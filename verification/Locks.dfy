/** Leased locks: set-if-absent with a lease to take one, compare-and-delete to give it back.
    Any number of requests and sweeps use them, in the nesting the code has; leases may run
    out under anybody, and a holder may be late with its release. */
module Locks {
  import opened Options
  import opened TimedStore

  datatype LockKey = IdemLock(user: nat, key: nat) | FpLock(user: nat, fp: nat) | ChainLock

  /** The fixed order: idempotency key, fingerprint, audit chain. */
  function Level(k: LockKey): nat {
    match k
    case IdemLock(_, _) => 0
    case FpLock(_, _) => 1
    case ChainLock => 2
  }

  /** A request takes its two locks around the pipeline and the chain lock for each audit event;
      a sweep takes the chain lock only. */
  datatype Kind = Request(user: nat, key: nat, fp: nat) | Sweeper

  datatype Phase = Outside | WantIdem | WantFp | Inside | WantChain | Appending | LeavingIdem

  /** `holds` says which locks the process believes it holds, and until when. */
  datatype Proc = Proc(kind: Kind, phase: Phase, holds: map<LockKey, int>)

  datatype State = State(now: int, kv: map<LockKey, Entry<nat>>, procs: map<nat, Proc>)

  datatype Step =
    | Tick(dt: nat)
    | Enter(id: nat, kind: Kind)
    | Try(id: nat, ttl: nat)  // one set-if-absent; leases are never zero
    | GiveUp(id: nat)         // fifty attempts failed: the TimeoutError unwinds the nesting
    | Append(id: nat)         // begin an audit append
    | Leave(id: nat)          // leave the innermost section

  function Init(now: int): State {
    State(now, map[], map[])
  }

  function Wanted(p: Proc): Option<LockKey> {
    match p.phase
    case WantIdem => if p.kind.Request? then Some(IdemLock(p.kind.user, p.kind.key)) else None
    case WantFp => if p.kind.Request? then Some(FpLock(p.kind.user, p.kind.fp)) else None
    case WantChain => Some(ChainLock)
    case _ => None
  }

  function AfterTaking(ph: Phase): Phase {
    match ph
    case WantIdem => WantFp
    case WantFp => Inside
    case WantChain => Appending
    case other => other
  }

  function AfterGivingUp(p: Proc): Phase {
    match p.phase
    case WantIdem => Outside
    case WantFp => LeavingIdem
    case WantChain => if p.kind.Request? then Inside else Outside
    case other => other
  }

  /** The lock of the section a process leaves next, and where it is then. */
  function Innermost(p: Proc): Option<(LockKey, Phase)> {
    match p.phase
    case Appending => Some((ChainLock, if p.kind.Request? then Inside else Outside))
    case Inside => if p.kind.Request? then Some((FpLock(p.kind.user, p.kind.fp), LeavingIdem)) else None
    case LeavingIdem => if p.kind.Request? then Some((IdemLock(p.kind.user, p.kind.key), Outside)) else None
    case _ => None
  }

  function Put(s: State, id: nat, p: Proc): State {
    s.(procs := s.procs[id := p])
  }

  function DoTry(s: State, id: nat, p: Proc, ttl: nat): State {
    if Wanted(p).None? || ttl == 0 || Alive(s.kv, Wanted(p).value, s.now) then s
    else
      var k := Wanted(p).value;
      Put(s, id, p.(phase := AfterTaking(p.phase), holds := p.holds[k := s.now + ttl]))
      .(kv := PutIfAbsent(s.kv, k, id, ttl, s.now))
  }

  function DoLeave(s: State, id: nat, p: Proc): State {
    if Innermost(p).None? then s
    else
      var (k, next) := Innermost(p).value;
      Put(s, id, p.(phase := next, holds := p.holds - {k})).(kv := DropIfValue(s.kv, k, id, s.now))
  }

  function Do(s: State, step: Step): State {
    match step
    case Tick(dt) => s.(now := s.now + dt)
    case Enter(id, kind) =>
      if id in s.procs then s else Put(s, id, Proc(kind, if kind.Request? then WantIdem else Outside, map[]))
    case Try(id, ttl) => if id in s.procs then DoTry(s, id, s.procs[id], ttl) else s
    case GiveUp(id) => if id in s.procs then Put(s, id, s.procs[id].(phase := AfterGivingUp(s.procs[id]))) else s
    case Append(id) =>
      if id in s.procs && s.procs[id].phase == (if s.procs[id].kind.Request? then Inside else Outside)
      then Put(s, id, s.procs[id].(phase := WantChain)) else s
    case Leave(id) => if id in s.procs then DoLeave(s, id, s.procs[id]) else s
  }

  function Run(s: State, steps: seq<Step>): State
    decreases |steps|
  {
    if steps == [] then s else Run(Do(s, steps[0]), steps[1..])
  }

  // ---------------------------------------------------------------- what every step keeps

  /** The process holds the lock and its lease has not run out. */
  predicate LiveHolder(s: State, id: nat, k: LockKey) {
    id in s.procs && k in s.procs[id].holds && s.now <= s.procs[id].holds[k]
  }

  /** The locks a process has taken and not given back, by where it stands. */
  function Taken(p: Proc): set<LockKey> {
    match p.kind
    case Sweeper => if p.phase == Appending then {ChainLock} else {}
    case Request(user, key, fp) => (
      match p.phase
      case Outside => {}
      case WantIdem => {}
      case WantFp => {IdemLock(user, key)}
      case LeavingIdem => {IdemLock(user, key)}
      case Appending => {IdemLock(user, key), FpLock(user, fp), ChainLock}
      case _ => {IdemLock(user, key), FpLock(user, fp)}
      )
  }

  /** A process holds only locks strictly below the one it wants. */
  predicate Nested(p: Proc) {
    && p.holds.Keys == Taken(p)
    && (p.kind.Sweeper? ==> p.phase == Outside || p.phase == WantChain || p.phase == Appending)
    && (forall k | k in p.holds :: Wanted(p).Some? ==> Level(k) < Level(Wanted(p).value))
    && (forall k | k in p.holds :: k == ChainLock ==> p.phase == Appending)
    && (forall k | k in p.holds :: k.FpLock? ==> p.phase == Inside || p.phase == WantChain || p.phase == Appending)
    && (forall k | k in p.holds :: k.IdemLock? ==> p.phase != Outside && p.phase != WantIdem)
    && (forall k | k in p.holds && p.kind.Request? ::
          k == IdemLock(p.kind.user, p.kind.key) || k == FpLock(p.kind.user, p.kind.fp) || k == ChainLock)
    && (forall k | k in p.holds && p.kind.Sweeper? :: k == ChainLock)
  }

  /** A live holder's own entry is what the store shows. */
  predicate Backed(s: State, id: nat) {
    id in s.procs ==>
      forall k | k in s.procs[id].holds && s.now <= s.procs[id].holds[k] ::
        k in s.kv && s.kv[k] == Entry(id, Some(s.procs[id].holds[k]))
  }

  /** A live entry is somebody's live hold. */
  predicate NoStray(s: State) {
    forall k | k in s.kv && Live(s.kv[k], s.now) ::
      var id := s.kv[k].value;
      id in s.procs && k in s.procs[id].holds && s.kv[k].expires == Some(s.procs[id].holds[k])
  }

  ghost predicate Inv(s: State) {
    (forall id | id in s.procs :: Nested(s.procs[id]) && Backed(s, id)) && NoStray(s)
  }

  lemma StepInv(s: State, step: Step)
    requires Inv(s)
    ensures Inv(Do(s, step))
  {
    if step.Tick? {
      TickInv(s, step.dt);
    } else if step.Try? && step.id in s.procs {
      TryInv(s, step.id, step.ttl);
    } else if step.Leave? && step.id in s.procs {
      LeaveInv(s, step.id);
    } else if step.Enter? {
      EnterInv(s, step.id, step.kind);
    } else if step.GiveUp? && step.id in s.procs {
      GiveUpInv(s, step.id);
    } else if step.Append? && Do(s, step) != s {
      MoveInv(s, step.id, WantChain);
    }
  }

  lemma TickInv(s: State, dt: nat)
    requires Inv(s)
    ensures Inv(Do(s, Tick(dt)))
  {
  }

  lemma GiveUpInv(s: State, id: nat)
    requires Inv(s) && id in s.procs
    ensures Inv(Put(s, id, s.procs[id].(phase := AfterGivingUp(s.procs[id]))))
  {
    MoveInv(s, id, AfterGivingUp(s.procs[id]));
  }

  lemma EnterInv(s: State, id: nat, kind: Kind)
    requires Inv(s)
    ensures Inv(Do(s, Enter(id, kind)))
  {
  }

  /** A step that only changes where a process stands. */
  lemma MoveInv(s: State, id: nat, ph: Phase)
    requires Inv(s) && id in s.procs && Nested(s.procs[id].(phase := ph))
    ensures Inv(Put(s, id, s.procs[id].(phase := ph)))
  {
  }

  lemma TryInv(s: State, id: nat, ttl: nat)
    requires Inv(s) && id in s.procs
    ensures Inv(DoTry(s, id, s.procs[id], ttl))
  {
    var t := DoTry(s, id, s.procs[id], ttl);
    forall j | j in t.procs ensures Nested(t.procs[j]) && Backed(t, j) {
      if j == id {
        TryInvOwn(s, id, ttl);
      } else {
        TryInvOther(s, id, ttl, j);
      }
    }
  }

  lemma TryInvOwn(s: State, id: nat, ttl: nat)
    requires id in s.procs && Nested(s.procs[id]) && Backed(s, id)
    ensures var t := DoTry(s, id, s.procs[id], ttl); Nested(t.procs[id]) && Backed(t, id)
  {
  }

  lemma TryInvOther(s: State, id: nat, ttl: nat, j: nat)
    requires id in s.procs && j in s.procs && j != id && Nested(s.procs[j]) && Backed(s, id) && Backed(s, j)
    ensures var t := DoTry(s, id, s.procs[id], ttl); t.procs[j] == s.procs[j] && Backed(t, j)
  {
  }

  lemma LeaveInv(s: State, id: nat)
    requires Inv(s) && id in s.procs
    ensures Inv(DoLeave(s, id, s.procs[id]))
  {
    var t := DoLeave(s, id, s.procs[id]);
    forall j | j in t.procs ensures Nested(t.procs[j]) && Backed(t, j) {
      if j == id {
        LeaveInvOwn(s, id);
      } else {
        LeaveInvOther(s, id, j);
      }
    }
  }

  lemma LeaveInvOwn(s: State, id: nat)
    requires id in s.procs && Nested(s.procs[id]) && Backed(s, id)
    ensures var t := DoLeave(s, id, s.procs[id]); Nested(t.procs[id]) && Backed(t, id)
  {
  }

  lemma LeaveInvOther(s: State, id: nat, j: nat)
    requires id in s.procs && j in s.procs && j != id && Nested(s.procs[j]) && Backed(s, id) && Backed(s, j)
    ensures var t := DoLeave(s, id, s.procs[id]); t.procs[j] == s.procs[j] && Backed(t, j)
  {
  }

  lemma {:induction false} RunInv(s: State, steps: seq<Step>)
    requires Inv(s)
    ensures Inv(Run(s, steps))
    decreases |steps|
  {
    if steps != [] {
      StepInv(s, steps[0]);
      RunInv(Do(s, steps[0]), steps[1..]);
    }
  }

  ghost predicate Reachable(s: State) {
    exists now, steps :: s == Run(Init(now), steps)
  }

  // ---------------------------------------------------------------- what the locks give

  /** No lock ever has two live holders, however leases end and releases come late. */
  lemma OneLiveHolder(s: State, k: LockKey, p: nat, q: nat)
    requires Reachable(s) && LiveHolder(s, p, k) && LiveHolder(s, q, k)
    ensures p == q
  {
    var now, steps :| s == Run(Init(now), steps);
    RunInv(Init(now), steps);
    assert Backed(s, p) && Backed(s, q);
  }

  /** A lock is taken if and only if some process holds it: nothing is left locked behind. */
  lemma LockedIffHeld(s: State, k: LockKey)
    requires Reachable(s)
    ensures Alive(s.kv, k, s.now) <==> exists id :: LiveHolder(s, id, k)
  {
    var now, steps :| s == Run(Init(now), steps);
    RunInv(Init(now), steps);
    if Alive(s.kv, k, s.now) {
      assert LiveHolder(s, s.kv[k].value, k);
    }
    forall id | LiveHolder(s, id, k) ensures Alive(s.kv, k, s.now) {
      assert Backed(s, id);
    }
  }

  /** Inside its section a request has taken both its locks, while appending the third as well; before it
      has taken the first, and after it has left, none. */
  lemma PhaseTellsLocks(s: State, id: nat)
    requires Reachable(s) && id in s.procs && s.procs[id].kind.Request?
    ensures var p := s.procs[id];
            var idem, fp := IdemLock(p.kind.user, p.kind.key), FpLock(p.kind.user, p.kind.fp);
            && (idem in p.holds <==> p.phase != Outside && p.phase != WantIdem)
            && (fp in p.holds <==> p.phase == Inside || p.phase == WantChain || p.phase == Appending)
            && (ChainLock in p.holds <==> p.phase == Appending)
  {
    var now, steps :| s == Run(Init(now), steps);
    RunInv(Init(now), steps);
    assert Nested(s.procs[id]);
  }

  /** Whatever p does, a late release included, everybody else's live holds survive it. */
  lemma NobodyElseLoses(s: State, step: Step, p: nat, q: nat, k: LockKey)
    requires Reachable(s) && p != q && LiveHolder(s, q, k)
    requires step == Leave(p) || step == GiveUp(p) || step == Append(p) || (step.Try? && step.id == p)
    ensures var t := Do(s, step); LiveHolder(t, q, k) && k in s.kv && k in t.kv && t.kv[k] == s.kv[k] && t.kv[k].value == q
  {
    var now, steps :| s == Run(Init(now), steps);
    RunInv(Init(now), steps);
    assert Backed(s, q);
  }

  /** p is kept waiting by q: it wants a lock whose live entry is q's. */
  predicate WaitsFor(s: State, p: nat, q: nat) {
    && p in s.procs && q in s.procs && Wanted(s.procs[p]).Some?
    && LiveHolder(s, q, Wanted(s.procs[p]).value)
  }

  predicate Chain(s: State, ps: seq<nat>) {
    forall i | 0 < i < |ps| :: WaitsFor(s, ps[i - 1], ps[i])
  }

  /** Along a chain of waiting processes the wanted levels climb. */
  lemma {:induction false} LevelsClimb(s: State, ps: seq<nat>, n: nat)
    requires Inv(s) && Chain(s, ps) && n + 1 < |ps|
    ensures ps[0] in s.procs && Wanted(s.procs[ps[0]]).Some?
    ensures ps[n] in s.procs && Wanted(s.procs[ps[n]]).Some?
    ensures Level(Wanted(s.procs[ps[0]]).value) + n <= Level(Wanted(s.procs[ps[n]]).value)
  {
    assert WaitsFor(s, ps[n], ps[n + 1]);
    if n > 0 {
      LevelsClimb(s, ps, n - 1);
      assert WaitsFor(s, ps[n - 1], ps[n]);
      assert Nested(s.procs[ps[n]]);
    }
  }

  /** No deadlock: a chain of waiting processes, of any length, never comes back to where it started. */
  lemma NoCycle(s: State, ps: seq<nat>)
    requires Reachable(s) && |ps| > 1 && Chain(s, ps)
    ensures ps[0] != ps[|ps| - 1]
  {
    var now, steps :| s == Run(Init(now), steps);
    RunInv(Init(now), steps);
    LevelsClimb(s, ps, |ps| - 2);
    assert WaitsFor(s, ps[|ps| - 2], ps[|ps| - 1]);
    assert Nested(s.procs[ps[|ps| - 1]]);
  }

  // ---------------------------------------------------------------- the lock object

  const ATTEMPTS: nat := 50

  /** One use of a lock, alone with the store: the interleaved uses are the machine above, where
      each attempt is one `Try` step and leaving is one `Leave` step. */
  class DistributedLock {
    const key: LockKey
    const token: nat
    const ttl: nat
    var acquired: bool

    constructor (key: LockKey, token: nat, ttl: nat)
      ensures !acquired && this.key == key && this.token == token && this.ttl == ttl
    {
      this.key, this.token, this.ttl, acquired := key, token, ttl, false;
    }

    /** Try at these times until one attempt finds the key free; false is the TimeoutError. */
    method Enter(store: MemoryStore<LockKey, nat, nat>, times: seq<int>) returns (taken: bool)
      requires |times| == ATTEMPTS
      modifies this, store
      ensures taken ==> acquired
      ensures taken ==> exists n: nat :: (FirstFree(old(store.kv), times, n)
                                          && store.kv == old(store.kv)[key := Stamp(token, ttl, times[n])])
      ensures !taken ==> acquired == old(acquired) && store.kv == old(store.kv)
                         && forall n | 0 <= n < ATTEMPTS :: Alive(old(store.kv), key, times[n])
    {
      for n := 0 to ATTEMPTS
        invariant acquired == old(acquired) && store.kv == old(store.kv)
        invariant forall m | 0 <= m < n :: Alive(store.kv, key, times[m])
      {
        var ok := store.SetNx(key, token, ttl, times[n], z => 0);
        if ok {
          acquired := true;
          assert FirstFree(old(store.kv), times, n);
          return true;
        }
      }
      taken := false;
    }

    ghost predicate FirstFree(kv: map<LockKey, Entry<nat>>, times: seq<int>, n: nat) {
      n < |times| && !Alive(kv, key, times[n]) && forall m | 0 <= m < n :: Alive(kv, key, times[m])
    }

    /** Give back only what is still ours: nothing but our own live entry can disappear, and the
        key's entry stays visible if it belongs to somebody else. */
    method Exit(store: MemoryStore<LockKey, nat, nat>, now: int)
      modifies store
      ensures forall k | k != key :: Lookup(store.kv, k) == Lookup(old(store.kv), k)
      ensures Peek(store.kv, key, now) ==
                if acquired && Peek(old(store.kv), key, now) == Some(token) then None else Peek(old(store.kv), key, now)
    {
      if acquired {
        var ok := store.DeleteIfValue(key, token, now, z => 0);
      }
    }
  }
}
