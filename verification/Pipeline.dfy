/** The live view of a request: the gateway numbers stage events as it crosses each boundary,
    delivery may reorder, repeat or lose them, and the browser folds whatever arrived. */
module Pipeline {
  import opened Options

  datatype Stage = Identity | CanonicalForm | Analyzer | Risk | Pdp | Authorization | Audit | Unheard(name: string)

  datatype Status = Idle | Started | Passed | Blocked | Paused | Failed | Skipped

  datatype Event = Event(
    seqNo: nat, stage: Stage, status: Status, latency: Option<int>, elapsed: int, detail: map<string, string>)

  datatype StageState = StageState(
    status: Status, latency: Option<int>, elapsed: Option<int>, detail: map<string, string>)

  type View = map<Stage, StageState>

  /** The order the gateway runs the stages in. */
  const STAGES: seq<Stage> := [Identity, CanonicalForm, Analyzer, Risk, Pdp, Authorization, Audit]

  const BLANK: StageState := StageState(Idle, None, None, map[])

  function EmptyPipeline(): View {
    map[Identity := BLANK, CanonicalForm := BLANK, Analyzer := BLANK, Risk := BLANK, Pdp := BLANK,
        Authorization := BLANK, Audit := BLANK]
  }

  function IndexOf(s: Stage): (i: nat)
    requires !s.Unheard?
    ensures i < |STAGES| && STAGES[i] == s
    ensures forall k | 0 <= k < |STAGES| :: STAGES[k] == s ==> k == i
  {
    match s
    case Identity => 0
    case CanonicalForm => 1
    case Analyzer => 2
    case Risk => 3
    case Pdp => 4
    case Authorization => 5
    case Audit => 6
  }

  function Overlay(s: StageState, e: Event): StageState {
    StageState(e.status, if e.latency.Some? then e.latency else s.latency, Some(e.elapsed), s.detail + e.detail)
  }

  /** Events for stages nobody knows are ignored. */
  function Apply(v: View, e: Event): View {
    if e.stage in v then v[e.stage := Overlay(v[e.stage], e)] else v
  }

  function Fold(es: seq<Event>): View {
    if es == [] then EmptyPipeline() else Apply(Fold(es[..|es| - 1]), es[|es| - 1])
  }

  // ---------------------------------------------------------------- the consumer

  predicate Ascending(es: seq<Event>) {
    forall i, j | 0 <= i < j < |es| :: es[i].seqNo <= es[j].seqNo
  }

  predicate StrictlyAscending(es: seq<Event>) {
    forall i, j | 0 <= i < j < |es| :: es[i].seqNo < es[j].seqNo
  }

  /** Stable: a later event goes behind those with the same number. */
  function InsertLast(es: seq<Event>, e: Event): seq<Event> {
    if es == [] || es[|es| - 1].seqNo <= e.seqNo then es + [e]
    else InsertLast(es[..|es| - 1], e) + [es[|es| - 1]]
  }

  function SortBySeq(es: seq<Event>): seq<Event> {
    if es == [] then [] else InsertLast(SortBySeq(es[..|es| - 1]), es[|es| - 1])
  }

  lemma {:induction false} InsertLastHas(es: seq<Event>, e: Event)
    ensures forall x :: x in InsertLast(es, e) <==> x == e || x in es
  {
    if es != [] && es[|es| - 1].seqNo > e.seqNo {
      InsertLastHas(es[..|es| - 1], e);
      assert es == es[..|es| - 1] + [es[|es| - 1]];
    }
  }

  lemma {:induction false} InsertLastAscends(es: seq<Event>, e: Event)
    requires Ascending(es)
    ensures Ascending(InsertLast(es, e))
  {
    if es != [] && es[|es| - 1].seqNo > e.seqNo {
      var n := |es| - 1;
      InsertLastAscends(es[..n], e);
      InsertLastHas(es[..n], e);
      var front := InsertLast(es[..n], e);
      forall i | 0 <= i < |front| ensures front[i].seqNo <= es[n].seqNo {
        assert front[i] in front;
      }
    }
  }

  lemma {:induction false} SortKeeps(es: seq<Event>)
    ensures Ascending(SortBySeq(es))
    ensures forall x :: x in SortBySeq(es) <==> x in es
  {
    if es != [] {
      var n := |es| - 1;
      SortKeeps(es[..n]);
      InsertLastHas(SortBySeq(es[..n]), es[n]);
      InsertLastAscends(SortBySeq(es[..n]), es[n]);
      assert es == es[..n] + [es[n]];
    }
  }

  method ReducePipeline(events: seq<Event>) returns (state: View)
    ensures state == Fold(SortBySeq(events))
  {
    state := EmptyPipeline();
    var sorted := SortBySeq(events);
    for n := 0 to |sorted|
      invariant state == Fold(sorted[..n])
    {
      assert sorted[..n + 1][..n] == sorted[..n];
      var event := sorted[n];
      if event.stage in state {
        state := state[event.stage := Overlay(state[event.stage], event)];
      }
    }
    assert sorted[..|sorted|] == sorted;
  }

  /** Applying an event twice in a row is applying it once. */
  lemma ApplyTwice(v: View, e: Event)
    ensures Apply(Apply(v, e), e) == Apply(v, e)
  {
    if e.stage in v {
      assert v[e.stage].detail + e.detail + e.detail == v[e.stage].detail + e.detail;
    }
  }

  ghost predicate SameElements(a: seq<Event>, b: seq<Event>) {
    forall x :: x in a <==> x in b
  }

  lemma FoldAppend(es: seq<Event>, e: Event)
    ensures Fold(es + [e]) == Apply(Fold(es), e)
  {
    assert (es + [e])[..|es|] == es;
  }

  lemma SomethingIsNotNothing(c: seq<Event>)
    ensures c == [] || !SameElements([], c)
  {
    if c != [] {
      assert c[0] in c && c[0] !in [];
    }
  }

  lemma SameLast(r: seq<Event>, c: seq<Event>)
    requires Ascending(r) && StrictlyAscending(c) && SameElements(r, c) && r != []
    ensures c != [] && c[|c| - 1] == r[|r| - 1]
  {
    assert r[|r| - 1] in c;
    assert c[|c| - 1] in r;
  }

  /** Among events drawn from a strict order, the number identifies the event. */
  lemma NumbersIdentify(r: seq<Event>, c: seq<Event>, x: Event, y: Event)
    requires StrictlyAscending(c) && SameElements(r, c) && x in r && y in r && x.seqNo == y.seqNo
    ensures x == y
  {
    assert x in c && y in c;
  }

  lemma FoldOfRepeat(r: seq<Event>)
    requires |r| > 1 && r[|r| - 2] == r[|r| - 1]
    ensures Fold(r) == Fold(r[..|r| - 1])
  {
    var n := |r| - 1;
    ApplyTwice(Fold(r[..n][..n - 1]), r[n]);
  }

  lemma DropRepeat(r: seq<Event>, c: seq<Event>)
    requires Ascending(r) && StrictlyAscending(c) && SameElements(r, c)
    requires |r| > 0 && r[|r| - 1] in r[..|r| - 1]
    ensures SameElements(r[..|r| - 1], c)
    ensures Fold(r) == Fold(r[..|r| - 1])
  {
    forall x, y | x in r && y in r && x.seqNo == y.seqNo ensures x == y {
      NumbersIdentify(r, c, x, y);
    }
    LastRepeats(r);
    SameWithoutLast(r);
    FoldOfRepeat(r);
  }

  lemma SameWithoutLast(r: seq<Event>)
    requires |r| > 0 && r[|r| - 1] in r[..|r| - 1]
    ensures SameElements(r, r[..|r| - 1])
  {
    assert r == r[..|r| - 1] + [r[|r| - 1]];
  }

  /** Walk both back from the end: a repeated last event adds nothing, a fresh one is the same. */
  lemma {:induction false} RepeatsDoNotMatter(r: seq<Event>, c: seq<Event>)
    requires Ascending(r) && StrictlyAscending(c) && SameElements(r, c)
    ensures Fold(r) == Fold(c)
    decreases |r|
  {
    if r == [] {
      SomethingIsNotNothing(c);
    } else {
      SameLast(r, c);
      var n, m := |r| - 1, |c| - 1;
      if r[n] in r[..n] {
        DropRepeat(r, c);
        RepeatsDoNotMatter(r[..n], c);
      } else {
        DropSameLast(r, c);
        RepeatsDoNotMatter(r[..n], c[..m]);
      }
    }
  }

  lemma DropSameLast(r: seq<Event>, c: seq<Event>)
    requires |r| > 0 && |c| > 0 && r[|r| - 1] == c[|c| - 1] && SameElements(r, c)
    requires StrictlyAscending(c) && r[|r| - 1] !in r[..|r| - 1]
    ensures SameElements(r[..|r| - 1], c[..|c| - 1])
  {
    var n, m := |r| - 1, |c| - 1;
    assert r == r[..n] + [r[n]] && c == c[..m] + [c[m]];
    assert c[m] !in c[..m];
    forall x ensures x in r[..n] <==> x in c[..m] {
      assert x in r <==> x in c;
    }
  }

  /** In ascending order, copies of the last event sit next to it, when numbers are not shared. */
  lemma LastRepeats(r: seq<Event>)
    requires |r| > 0 && Ascending(r) && r[|r| - 1] in r[..|r| - 1]
    requires forall x, y | x in r && y in r :: x.seqNo == y.seqNo ==> x == y
    ensures |r| > 1 && r[|r| - 2] == r[|r| - 1]
  {
    var n := |r| - 1;
    var k :| 0 <= k < n && r[..n][k] == r[n];
    assert r[k].seqNo <= r[n - 1].seqNo <= r[n].seqNo;
  }

  /** Whatever reordering and repetition delivery causes, the view is the one the emitted order
      gives; of a run with losses it shows exactly the fold of what did arrive. */
  lemma DeliveryDoesNotMatter(received: seq<Event>, emitted: seq<Event>)
    requires StrictlyAscending(emitted) && SameElements(received, emitted)
    ensures Fold(SortBySeq(received)) == Fold(emitted)
  {
    SortKeeps(received);
    RepeatsDoNotMatter(SortBySeq(received), emitted);
  }

  // ---------------------------------------------------------------- what a stage shows

  /** The last event about a stage, with a latency if one is asked for, or with a certain detail. */
  predicate IsLast(es: seq<Event>, n: nat, s: Stage) {
    n < |es| && es[n].stage == s && forall i | n < i < |es| :: es[i].stage != s
  }

  predicate IsLastWithLatency(es: seq<Event>, n: nat, s: Stage) {
    n < |es| && es[n].stage == s && es[n].latency.Some? && forall i | n < i < |es| :: es[i].stage == s ==> es[i].latency.None?
  }

  predicate IsLastWithDetail(es: seq<Event>, n: nat, s: Stage, key: string) {
    n < |es| && es[n].stage == s && key in es[n].detail && forall i | n < i < |es| :: es[i].stage == s ==> key !in es[i].detail
  }

  /** A stage nothing was heard of is idle and blank. */
  lemma {:induction false} UnheardOfIsIdle(es: seq<Event>, s: Stage)
    requires !s.Unheard? && forall e | e in es :: e.stage != s
    ensures s in Fold(es) && Fold(es)[s] == StageState(Idle, None, None, map[])
  {
    if es != [] {
      UnheardOfIsIdle(es[..|es| - 1], s);
      assert es[|es| - 1] in es;
    }
  }

  /** Any other shows status and elapsed time of the last event about it, the last latency that was
      reported, and for each detail what was last said about it. */
  lemma {:induction false} StageShowsItsLast(es: seq<Event>, n: nat, s: Stage)
    requires !s.Unheard? && IsLast(es, n, s)
    ensures s in Fold(es) && Fold(es)[s].status == es[n].status && Fold(es)[s].elapsed == Some(es[n].elapsed)
  {
    var m := |es| - 1;
    FoldKnowsStages(es[..m], s);
    if n < m {
      StageShowsItsLast(es[..m], n, s);
    }
  }

  lemma {:induction false} StageShowsLastLatency(es: seq<Event>, n: nat, s: Stage)
    requires !s.Unheard? && IsLastWithLatency(es, n, s)
    ensures s in Fold(es) && Fold(es)[s].latency == es[n].latency
  {
    var m := |es| - 1;
    FoldKnowsStages(es[..m], s);
    if n < m {
      StageShowsLastLatency(es[..m], n, s);
    }
  }

  lemma {:induction false} StageShowsLastDetail(es: seq<Event>, n: nat, s: Stage, key: string)
    requires !s.Unheard? && IsLastWithDetail(es, n, s, key)
    ensures s in Fold(es) && key in Fold(es)[s].detail && Fold(es)[s].detail[key] == es[n].detail[key]
  {
    var m := |es| - 1;
    FoldKnowsStages(es[..m], s);
    if n < m {
      StageShowsLastDetail(es[..m], n, s, key);
    }
  }

  // ---------------------------------------------------------------- where the beam stops

  predicate Breaks(s: Status) {
    s == Blocked || s == Failed
  }

  /** The first stage that is blocked or failed. All seven stages count, the audit stage too. */
  method SeveredAt(state: View) returns (at: Option<nat>)
    requires forall s | s in STAGES :: s in state
    ensures at.None? <==> forall i | 0 <= i < |STAGES| :: !Breaks(state[STAGES[i]].status)
    ensures at.Some? ==> at.value < |STAGES| && Breaks(state[STAGES[at.value]].status)
    ensures at.Some? ==> forall i | 0 <= i < at.value :: !Breaks(state[STAGES[i]].status)
  {
    for i := 0 to |STAGES|
      invariant forall k | 0 <= k < i :: !Breaks(state[STAGES[k]].status)
    {
      assert STAGES[i] in STAGES;
      if state[STAGES[i]].status == Blocked || state[STAGES[i]].status == Failed {
        return Some(i);
      }
    }
    at := None;
  }

  // ---------------------------------------------------------------- the emitter

  /** A reading of the clock for each stage. */
  type Readings = ts: seq<int> | |ts| == |STAGES| witness seq(|STAGES|, _ => 0)

  function Skip(k: nat, number: nat, t0: int, at: Readings, detail: map<string, string>): Event
    requires k < |STAGES|
  {
    Event(number, STAGES[k], Skipped, None, at[k] - t0, detail)
  }

  /** The events skip_remaining publishes: one for each stage from number k on. */
  function SkipsFrom(k: nat, first: nat, t0: int, at: Readings, detail: map<string, string>): seq<Event>
    requires k <= |STAGES|
    decreases |STAGES| - k
  {
    if k == |STAGES| then []
    else [Skip(k, first, t0, at, detail)] + SkipsFrom(k + 1, first + 1, t0, at, detail)
  }

  lemma SkipsUnfold(k: nat, first: nat, t0: int, at: Readings, detail: map<string, string>)
    requires k < |STAGES|
    ensures SkipsFrom(k, first, t0, at, detail)
         == [Skip(k, first, t0, at, detail)] + SkipsFrom(k + 1, first + 1, t0, at, detail)
  {
  }

  class PipelineEmitter {
    const t0: int
    var seqNo: nat
    var stageStarted: map<Stage, int>
    ghost var published: seq<Event>

    /** Numbers only ever go up, so what was published is in strict order. */
    ghost predicate Valid()
      reads this
    {
      StrictlyAscending(published) && forall i | 0 <= i < |published| :: published[i].seqNo <= seqNo
    }

    constructor (t0: int)
      ensures Valid() && published == [] && seqNo == 0
    {
      this.t0, seqNo, stageStarted, published := t0, 0, map[], [];
    }

    /** The number is taken even when the event cannot be written out. */
    method Publish(stage: Stage, status: Status, detail: map<string, string>, latency: Option<int>,
                   now: int, serialisable: bool)
      requires Valid()
      modifies this`seqNo, this`published
      ensures Valid() && seqNo == old(seqNo) + 1
      ensures published == old(published) +
                if serialisable then [Event(seqNo, stage, status, latency, now - t0, detail)] else []
    {
      seqNo := seqNo + 1;
      if serialisable {
        published := published + [Event(seqNo, stage, status, latency, now - t0, detail)];
      }
    }

    /** The clock is read once for the stage and once more for the event. */
    method Start(stage: Stage, detail: map<string, string>, started: int, now: int, serialisable: bool)
      requires Valid()
      modifies this
      ensures Valid() && seqNo == old(seqNo) + 1 && stageStarted == old(stageStarted)[stage := started]
      ensures published == old(published) +
                if serialisable then [Event(seqNo, stage, Started, None, now - t0, detail)] else []
    {
      stageStarted := stageStarted[stage := started];
      Publish(stage, Started, detail, None, now, serialisable);
    }

    /** A start time of exactly zero reads as no start time. */
    method Finish(stage: Stage, status: Status, detail: map<string, string>, ended: int, now: int, serialisable: bool)
      requires Valid()
      modifies this`seqNo, this`published
      ensures Valid() && seqNo == old(seqNo) + 1
      ensures published == old(published) +
                if serialisable then
                  [Event(seqNo, stage, status,
                         if stage in stageStarted && stageStarted[stage] != 0 then Some(ended - stageStarted[stage]) else None,
                         now - t0, detail)]
                else []
    {
      var latency := if stage in stageStarted && stageStarted[stage] != 0 then Some(ended - stageStarted[stage]) else None;
      Publish(stage, status, detail, latency, now, serialisable);
    }

    /** One event for every stage after the given one, in stage order. */
    method SkipRemaining(after: Stage, detail: map<string, string>, at: Readings)
      requires Valid() && !after.Unheard?
      modifies this`seqNo, this`published
      ensures Valid()
      ensures published == old(published) + SkipsFrom(IndexOf(after) + 1, old(seqNo) + 1, t0, at, detail)
    {
      var index := IndexOf(after);
      ghost var all := old(published) + SkipsFrom(index + 1, old(seqNo) + 1, t0, at, detail);
      for k := index + 1 to |STAGES|
        invariant Valid()
        invariant published + SkipsFrom(k, seqNo + 1, t0, at, detail) == all
      {
        SkipsUnfold(k, seqNo + 1, t0, at, detail);
        ghost var e, rest := Skip(k, seqNo + 1, t0, at, detail), SkipsFrom(k + 1, seqNo + 2, t0, at, detail);
        assert published + ([e] + rest) == published + [e] + rest;
        Publish(STAGES[k], Skipped, detail, None, at[k], true);
      }
    }
  }

  // ---------------------------------------------------------------- what a block looks like

  lemma {:induction false} FoldKnowsStages(es: seq<Event>, s: Stage)
    ensures s in Fold(es) <==> !s.Unheard?
  {
    if es == [] {
      assert s in EmptyPipeline() <==> !s.Unheard?;
    } else {
      FoldKnowsStages(es[..|es| - 1], s);
    }
  }

  lemma SkipChangesOnlyItself(v: View, e: Event, k: nat, s: Stage)
    requires k < |STAGES| && e.stage == STAGES[k] && e.status == Skipped && !s.Unheard? && s in v
    ensures s in Apply(v, e)
    ensures IndexOf(s) != k ==> Apply(v, e)[s] == v[s]
    ensures IndexOf(s) == k ==> Apply(v, e)[s].status == Skipped
  {
  }

  lemma {:induction false} FoldOfSkips(es: seq<Event>, k: nat, first: nat, t0: int, at: Readings, detail: map<string, string>, s: Stage)
    requires k <= |STAGES| && !s.Unheard?
    ensures s in Fold(es) && s in Fold(es + SkipsFrom(k, first, t0, at, detail))
    ensures if IndexOf(s) < k then Fold(es + SkipsFrom(k, first, t0, at, detail))[s] == Fold(es)[s]
            else Fold(es + SkipsFrom(k, first, t0, at, detail))[s].status == Skipped
    decreases |STAGES| - k
  {
    FoldKnowsStages(es, s);
    if k == |STAGES| {
      assert es + [] == es;
    } else {
      var e := Skip(k, first, t0, at, detail);
      var rest := SkipsFrom(k + 1, first + 1, t0, at, detail);
      SkipsUnfold(k, first, t0, at, detail);
      assert es + ([e] + rest) == es + [e] + rest;
      FoldOfSkips(es + [e], k + 1, first + 1, t0, at, detail, s);
      FoldAppend(es, e);
      SkipChangesOnlyItself(Fold(es), e, k, s);
    }
  }

  /** One stage of the view after a stop. */
  predicate ShowsStop(was: StageState, now: StageState, s: Stage, stop: Stage)
    requires !s.Unheard? && !stop.Unheard?
  {
    if IndexOf(s) < IndexOf(stop) then now == was
    else if s == stop then Breaks(now.status)
    else now.status == Skipped
  }

  lemma StopShows(before: seq<Event>, stop: Event, t0: int, at: Readings, detail: map<string, string>, s: Stage)
    requires !stop.stage.Unheard? && Breaks(stop.status) && !s.Unheard?
    ensures var view := Fold(before + [stop] + SkipsFrom(IndexOf(stop.stage) + 1, stop.seqNo + 1, t0, at, detail));
            s in view && s in Fold(before) && ShowsStop(Fold(before)[s], view[s], s, stop.stage)
  {
    FoldAppend(before, stop);
    FoldKnowsStages(before, s);
    FoldKnowsStages(before, stop.stage);
    FoldOfSkips(before + [stop], IndexOf(stop.stage) + 1, stop.seqNo + 1, t0, at, detail, s);
    assert s != stop.stage ==> IndexOf(s) != IndexOf(stop.stage);
  }

  /** When a request is stopped at a stage, the view, however its events travelled, breaks
      exactly there: everything later is marked as never reached, everything earlier is as it was. */
  lemma BlockShowsWhereItHappened(before: seq<Event>, stop: Event, t0: int, at: Readings, detail: map<string, string>,
                                  received: seq<Event>)
    requires !stop.stage.Unheard? && Breaks(stop.status)
    requires var emitted := before + [stop] + SkipsFrom(IndexOf(stop.stage) + 1, stop.seqNo + 1, t0, at, detail);
             StrictlyAscending(emitted) && SameElements(received, emitted)
    ensures forall s: Stage | !s.Unheard? ::
              && s in Fold(SortBySeq(received)) && s in Fold(before)
              && ShowsStop(Fold(before)[s], Fold(SortBySeq(received))[s], s, stop.stage)
  {
    DeliveryDoesNotMatter(received, before + [stop] + SkipsFrom(IndexOf(stop.stage) + 1, stop.seqNo + 1, t0, at, detail));
    forall s: Stage | !s.Unheard?
      ensures s in Fold(SortBySeq(received)) && s in Fold(before)
      ensures ShowsStop(Fold(before)[s], Fold(SortBySeq(received))[s], s, stop.stage)
    {
      StopShows(before, stop, t0, at, detail, s);
    }
  }
}
