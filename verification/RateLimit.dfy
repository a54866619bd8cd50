/** The request ceiling in front of the pipeline: per agent and per delegation, over a sliding
    window of sixty seconds kept in the shared store. */
module RateLimit {
  import opened Options
  import opened TimedStore

  const WINDOW_SECONDS: nat := 60

  datatype Scope = Agent(id: nat) | Delegation(id: nat)

  /** A ceiling of zero or less switches that scope off. */
  datatype Limits = Limits(enabled: bool, agent: int, delegation: int)

  datatype Request = Request(at: int, agent: nat, delegation: nat)

  datatype Check = Check(scope: Scope, limit: int)

  type Windows = Store<nat, nat, Scope>

  function Window(z: Scope): nat { WINDOW_SECONDS }

  function Checks(l: Limits, r: Request): seq<Check> {
    [Check(Agent(r.agent), l.agent), Check(Delegation(r.delegation), l.delegation)]
  }

  function Ceiling(l: Limits, z: Scope): int {
    match z
    case Agent(_) => l.agent
    case Delegation(_) => l.delegation
  }

  predicate Concerns(r: Request, z: Scope) {
    z == Agent(r.agent) || z == Delegation(r.delegation)
  }

  predicate Full(s: Windows, c: Check, at: int) {
    c.limit > 0 && |Since(Marks(s, c.scope), at - WINDOW_SECONDS)| >= c.limit
  }

  /** The first scope that is at its ceiling. */
  function FirstFull(s: Windows, checks: seq<Check>, at: int): Option<Scope> {
    if checks == [] then None
    else if Full(s, checks[0], at) then Some(checks[0].scope)
    else FirstFull(s, checks[1..], at)
  }

  function Mark(s: Windows, c: Check, at: int): Windows {
    if c.limit > 0 then Evicting(s, ZAddWindow(c.scope), at, Window).0 else s
  }

  function MarkAll(s: Windows, checks: seq<Check>, at: int): Windows {
    if checks == [] then s else Mark(MarkAll(s, checks[..|checks| - 1], at), checks[|checks| - 1], at)
  }

  /** Check every ceiling, then record: a refused request leaves no mark. */
  function Enforce(l: Limits, s: Windows, r: Request): (Windows, Option<Scope>) {
    if !l.enabled then (s, None)
    else
      var full := FirstFull(s, Checks(l, r), r.at);
      if full.Some? then (s, full) else (MarkAll(s, Checks(l, r), r.at), None)
  }

  lemma FirstFullSkips(s: Windows, checks: seq<Check>, at: int, n: nat)
    requires n <= |checks| && forall k | 0 <= k < n :: !Full(s, checks[k], at)
    ensures FirstFull(s, checks, at) == FirstFull(s, checks[n..], at)
  {
    if n > 0 {
      FirstFullSkips(s, checks, at, n - 1);
      assert checks[n - 1..][1..] == checks[n..];
    }
  }

  method EnforceEdgeRateLimit(limits: Limits, store: MemoryStore<nat, nat, Scope>, r: Request) returns (refused: Option<Scope>)
    modifies store
    ensures (store.Contents(), refused) == Enforce(limits, old(store.Contents()), r)
  {
    if !limits.enabled {
      return None;
    }
    var checks := Checks(limits, r);
    ghost var before := store.Contents();
    for n := 0 to |checks|
      invariant store.Contents() == before
      invariant forall k | 0 <= k < n :: !Full(before, checks[k], r.at)
    {
      if checks[n].limit > 0 {
        var count := store.ZCountWindow(checks[n].scope, WINDOW_SECONDS, r.at, Window);
        if count >= checks[n].limit {
          FirstFullSkips(before, checks, r.at, n);
          return Some(checks[n].scope);
        }
      }
    }
    FirstFullSkips(before, checks, r.at, |checks|);
    for n := 0 to |checks|
      invariant store.Contents() == MarkAll(before, checks[..n], r.at)
    {
      assert checks[..n + 1][..n] == checks[..n];
      if checks[n].limit > 0 {
        var size := store.ZAddWindow(checks[n].scope, WINDOW_SECONDS, r.at, Window);
      }
    }
    assert checks[..|checks|] == checks;
    refused := None;
  }

  // ---------------------------------------------------------------- whole runs

  predicate Ordered(rs: seq<Request>, from: int) {
    && (forall i | 0 <= i < |rs| :: from <= rs[i].at)
    && forall i, j | 0 <= i < j < |rs| :: rs[i].at <= rs[j].at
  }

  function After(l: Limits, s: Windows, rs: seq<Request>): Windows
    decreases |rs|
  {
    if rs == [] then s else After(l, Enforce(l, s, rs[0]).0, rs[1..])
  }

  /** When requests of this scope were let in. */
  function Admitted(l: Limits, s: Windows, rs: seq<Request>, z: Scope): seq<int>
    decreases |rs|
  {
    if rs == [] then [] else
      var (t, refused) := Enforce(l, s, rs[0]);
      (if refused.None? && Concerns(rs[0], z) then [rs[0].at] else []) + Admitted(l, t, rs[1..], z)
  }

  function InSpan(ts: seq<int>, lo: int, hi: int): nat {
    if ts == [] then 0
    else InSpan(ts[..|ts| - 1], lo, hi) + if lo <= ts[|ts| - 1] <= hi then 1 else 0
  }

  /** Each time, looking back one window from itself, sees no more than the ceiling. */
  predicate Paced(ts: seq<int>, ceiling: int) {
    && (forall i, j | 0 <= i < j < |ts| :: ts[i] <= ts[j])
    && (forall i | 0 <= i < |ts| :: |Since(ts[..i + 1], ts[i] - WINDOW_SECONDS)| <= ceiling)
  }

  /** What the store still shows of the past is all that matters from here on. */
  predicate Remembers(marks: seq<int>, past: seq<int>, now: int) {
    Since(marks, now - WINDOW_SECONDS) == Since(past, now - WINDOW_SECONDS)
  }

  lemma TwoChecks(l: Limits, s: Windows, r: Request)
    requires l.enabled
    ensures var a, d := Check(Agent(r.agent), l.agent), Check(Delegation(r.delegation), l.delegation);
            Enforce(l, s, r) ==
              if Full(s, a, r.at) then (s, Some(a.scope))
              else if Full(s, d, r.at) then (s, Some(d.scope))
              else (Mark(Mark(s, a, r.at), d, r.at), None)
  {
    var checks := Checks(l, r);
    assert checks[1..] == [checks[1]] && [checks[1]][1..] == [];
    assert FirstFull(s, [checks[1]], r.at) == if Full(s, checks[1], r.at) then Some(checks[1].scope) else None;
    assert checks[..1] == [checks[0]] && [checks[0]][..0] == [];
    assert MarkAll(s, [checks[0]], r.at) == Mark(s, checks[0], r.at);
  }

  lemma EnforceOnScope(l: Limits, s: Windows, r: Request, z: Scope)
    requires l.enabled
    ensures var (t, refused) := Enforce(l, s, r);
            && (refused == Some(z) ==> Concerns(r, z) && Full(s, Check(z, Ceiling(l, z)), r.at))
            && (refused.Some? ==> t == s)
            && (refused.None? && !Concerns(r, z) ==> Marks(t, z) == Marks(s, z))
            && (refused.None? && Concerns(r, z) && Ceiling(l, z) > 0 ==>
                  && !Full(s, Check(z, Ceiling(l, z)), r.at)
                  && Marks(t, z) == Since(Marks(s, z), r.at - WINDOW_SECONDS) + [r.at])
  {
    TwoChecks(l, s, r);
  }

  lemma PacedMore(ts: seq<int>, at: int, ceiling: int)
    requires Paced(ts, ceiling) && (forall i | 0 <= i < |ts| :: ts[i] <= at)
    requires |Since(ts, at - WINDOW_SECONDS)| < ceiling
    ensures Paced(ts + [at], ceiling)
  {
    SinceAppend(ts, [at], at - WINDOW_SECONDS);
    var more := ts + [at];
    forall i | 0 <= i < |more| ensures |Since(more[..i + 1], more[i] - WINDOW_SECONDS)| <= ceiling {
      if i < |ts| {
        assert more[..i + 1] == ts[..i + 1];
      } else {
        assert more[..i + 1] == more;
      }
    }
  }

  predicate Tracks(ceiling: int, marks: seq<int>, past: seq<int>, now: int) {
    Remembers(marks, past, now) && Paced(past, ceiling) && forall i | 0 <= i < |past| :: past[i] <= now
  }

  lemma TracksLater(ceiling: int, marks: seq<int>, past: seq<int>, now: int, later: int)
    requires Tracks(ceiling, marks, past, now) && now <= later
    ensures Tracks(ceiling, marks, past, later)
  {
    SinceOfSince(marks, now - WINDOW_SECONDS, later - WINDOW_SECONDS);
    SinceOfSince(past, now - WINDOW_SECONDS, later - WINDOW_SECONDS);
  }

  function Past(l: Limits, s: Windows, r: Request, z: Scope, past: seq<int>): seq<int> {
    if Enforce(l, s, r).1.None? && Concerns(r, z) then past + [r.at] else past
  }

  lemma TracksOneMore(ceiling: int, marks: seq<int>, past: seq<int>, at: int)
    requires Tracks(ceiling, marks, past, at) && |Since(marks, at - WINDOW_SECONDS)| < ceiling
    ensures Tracks(ceiling, Since(marks, at - WINDOW_SECONDS) + [at], past + [at], at)
  {
    var lo := at - WINDOW_SECONDS;
    SinceAppend(Since(marks, lo), [at], lo);
    SinceOfSince(marks, lo, lo);
    SinceAppend(past, [at], lo);
    PacedMore(past, at, ceiling);
  }

  lemma OneRequest(l: Limits, s: Windows, r: Request, z: Scope, past: seq<int>)
    requires l.enabled && Ceiling(l, z) > 0 && Tracks(Ceiling(l, z), Marks(s, z), past, r.at)
    ensures Tracks(Ceiling(l, z), Marks(Enforce(l, s, r).0, z), Past(l, s, r, z, past), r.at)
  {
    EnforceOnScope(l, s, r, z);
    var (t, refused) := Enforce(l, s, r);
    if refused.None? && Concerns(r, z) {
      TracksOneMore(Ceiling(l, z), Marks(s, z), past, r.at);
    } else {
      assert Marks(t, z) == Marks(s, z);
    }
  }

  lemma AdmittedUnfolds(l: Limits, s: Windows, rs: seq<Request>, z: Scope, past: seq<int>)
    requires rs != []
    ensures past + Admitted(l, s, rs, z)
         == Past(l, s, rs[0], z, past) + Admitted(l, Enforce(l, s, rs[0]).0, rs[1..], z)
  {
  }

  lemma OrderedTail(rs: seq<Request>, from: int)
    requires Ordered(rs, from) && rs != []
    ensures Ordered(rs[1..], rs[0].at)
  {
  }

  lemma {:induction false} RunIsPaced(l: Limits, s: Windows, rs: seq<Request>, z: Scope, past: seq<int>, from: int, to: int)
    requires l.enabled && Ceiling(l, z) > 0
    requires Ordered(rs, from) && from <= to && forall r | r in rs :: r.at <= to
    requires Tracks(Ceiling(l, z), Marks(s, z), past, from)
    ensures Tracks(Ceiling(l, z), Marks(After(l, s, rs), z), past + Admitted(l, s, rs, z), to)
    decreases |rs|
  {
    if rs == [] {
      assert past + [] == past;
      TracksLater(Ceiling(l, z), Marks(s, z), past, from, to);
    } else {
      TracksLater(Ceiling(l, z), Marks(s, z), past, from, rs[0].at);
      OneRequest(l, s, rs[0], z, past);
      OrderedTail(rs, from);
      AdmittedUnfolds(l, s, rs, z, past);
      RunIsPaced(l, Enforce(l, s, rs[0]).0, rs[1..], z, Past(l, s, rs[0], z, past), rs[0].at, to);
    }
  }

  lemma {:induction false} SpanWithinSince(ts: seq<int>, lo: int, hi: int, cut: int)
    requires cut <= lo
    ensures InSpan(ts, lo, hi) <= |Since(ts, cut)|
  {
    if ts != [] {
      var n := |ts| - 1;
      SpanWithinSince(ts[..n], lo, hi, cut);
      assert ts == ts[..n] + [ts[n]];
      SinceAppend(ts[..n], [ts[n]], cut);
    }
  }

  lemma {:induction false} PacedSpans(ts: seq<int>, ceiling: nat, t: int)
    requires Paced(ts, ceiling)
    ensures InSpan(ts, t, t + WINDOW_SECONDS) <= ceiling
  {
    if ts != [] {
      var n := |ts| - 1;
      if t <= ts[n] <= t + WINDOW_SECONDS {
        assert ts[..n + 1] == ts;
        SpanWithinSince(ts, t, t + WINDOW_SECONDS, ts[n] - WINDOW_SECONDS);
      } else {
        forall i | 0 <= i < n ensures |Since(ts[..n][..i + 1], ts[..n][i] - WINDOW_SECONDS)| <= ceiling {
          assert ts[..n][..i + 1] == ts[..i + 1];
        }
        PacedSpans(ts[..n], ceiling, t);
      }
    }
  }

  function NoMarks(): Windows { Store(map[], map[]) }

  lemma RunTracks(l: Limits, rs: seq<Request>, from: int, z: Scope, to: int)
    requires l.enabled && Ceiling(l, z) > 0
    requires Ordered(rs, from) && from <= to && forall r | r in rs :: r.at <= to
    ensures Tracks(Ceiling(l, z), Marks(After(l, NoMarks(), rs), z), Admitted(l, NoMarks(), rs, z), to)
  {
    RunIsPaced(l, NoMarks(), rs, z, [], from, to);
    assert [] + Admitted(l, NoMarks(), rs, z) == Admitted(l, NoMarks(), rs, z);
  }

  /** However the requests come, no sixty-second span, wherever it starts, lets in more than the
      ceiling of any agent or delegation. */
  lemma NoSpanExceedsCeiling(l: Limits, rs: seq<Request>, from: int, z: Scope, t: int)
    requires l.enabled && Ceiling(l, z) > 0 && Ordered(rs, from)
    ensures InSpan(Admitted(l, NoMarks(), rs, z), t, t + 60) <= Ceiling(l, z)
  {
    RunTracks(l, rs, from, z, if |rs| == 0 then from else rs[|rs| - 1].at);
    PacedSpans(Admitted(l, NoMarks(), rs, z), Ceiling(l, z), t);
  }

  lemma RefusedMeansFull(l: Limits, s: Windows, r: Request, z: Scope)
    requires Enforce(l, s, r).1 == Some(z)
    ensures l.enabled && Full(s, Check(z, Ceiling(l, z)), r.at) && Enforce(l, s, r).0 == s
  {
    EnforceOnScope(l, s, r, z);
  }

  /** And a refusal is never unfounded: the scope it names had its whole ceiling admitted in the
      last sixty seconds, refused attempts not counted; nothing is recorded for it. */
  lemma RefusalIsFounded(l: Limits, rs: seq<Request>, from: int, r: Request, z: Scope)
    requires Ordered(rs, from) && from <= r.at && forall q | q in rs :: q.at <= r.at
    requires Enforce(l, After(l, NoMarks(), rs), r).1 == Some(z)
    ensures |Since(Admitted(l, NoMarks(), rs, z), r.at - 60)| >= Ceiling(l, z) > 0
    ensures Enforce(l, After(l, NoMarks(), rs), r).0 == After(l, NoMarks(), rs)
  {
    RefusedMeansFull(l, After(l, NoMarks(), rs), r, z);
    RunTracks(l, rs, from, z, r.at);
  }
}
