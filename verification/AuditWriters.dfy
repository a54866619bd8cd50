/** Any number of concurrent appenders to one audit log. Each takes the chain lock (a lease),
    reads the head, and in a later step commits an event built on what it read. */
module AuditWriters {
  import opened Options
  import opened TimedStore
  import opened AuditChain

  const LOCK: string := "audit_chain"
  const LEASE: nat := 15

  datatype Pc =
    | Waiting
    | Holding
    | HasRead(head: Digest)
    | Leaving
    | Gone

  /** `lease` is when the lease this writer took runs out. */
  datatype Writer = Writer(body: Body, pc: Pc, lease: int)

  datatype State = State(now: int, kv: map<string, Entry<nat>>, writers: map<nat, Writer>, log: seq<Event>)

  datatype Step =
    | Tick(dt: nat)
    | Begin(body: Body)    // event ids are fresh: one writer per id
    | Acquire(id: nat)
    | GiveUp(id: nat)
    | ReadHead(id: nat)
    | Commit(id: nat)
    | Abort(id: nat)       // an exception inside the section
    | Release(id: nat)

  function Init(now: int): State {
    State(now, map[], map[], [])
  }

  predicate InSection(pc: Pc) {
    pc.Holding? || pc.HasRead? || pc.Leaving?
  }

  /** Everyone is out of the section by then. */
  predicate LeasesLast(s: State, later: int) {
    forall id | id in s.writers && InSection(s.writers[id].pc) :: later <= s.writers[id].lease
  }

  function Put(s: State, id: nat, w: Writer): State {
    s.(writers := s.writers[id := w])
  }

  function DoAcquire(s: State, id: nat, w: Writer): State {
    if w.pc.Waiting? && !Alive(s.kv, LOCK, s.now)
    then Put(s, id, w.(pc := Holding, lease := s.now + LEASE)).(kv := PutIfAbsent(s.kv, LOCK, id, LEASE, s.now))
    else s
  }

  function DoCommit(h: Hash, s: State, id: nat, w: Writer): State {
    if w.pc.HasRead?
    then Put(s, id, w.(pc := Leaving))
         .(log := s.log + [Event(|s.log| + 1, w.body, w.pc.head, h(w.body, w.pc.head))])
    else s
  }

  /** Compare-and-delete: only one's own live entry. */
  function DoRelease(s: State, id: nat, w: Writer): State {
    if w.pc.Leaving?
    then Put(s, id, w.(pc := Gone)).(kv := DropIfValue(s.kv, LOCK, id, s.now))
    else s
  }

  function DoWriter(h: Hash, s: State, step: Step, id: nat, w: Writer): State {
    match step
    case Acquire(_) => DoAcquire(s, id, w)
    case GiveUp(_) => if w.pc.Waiting? then Put(s, id, w.(pc := Gone)) else s
    case ReadHead(_) => if w.pc.Holding? then Put(s, id, w.(pc := HasRead(Head(s.log)))) else s
    case Commit(_) => DoCommit(h, s, id, w)
    case Abort(_) => if w.pc.Holding? || w.pc.HasRead? then Put(s, id, w.(pc := Leaving)) else s
    case Release(_) => DoRelease(s, id, w)
    case _ => s
  }

  /** With `timely`, time does not pass anyone's lease while they are in the section. */
  function Do(h: Hash, timely: bool, s: State, step: Step): State {
    match step
    case Tick(dt) => if !timely || LeasesLast(s, s.now + dt) then s.(now := s.now + dt) else s
    case Begin(body) =>
      if body.eventId in s.writers then s else Put(s, body.eventId, Writer(body, Waiting, s.now))
    case _ => if step.id in s.writers then DoWriter(h, s, step, step.id, s.writers[step.id]) else s
  }

  function Run(h: Hash, timely: bool, s: State, steps: seq<Step>): State
    decreases |steps|
  {
    if steps == [] then s else Run(h, timely, Do(h, timely, s, steps[0]), steps[1..])
  }

  // ---------------------------------------------------------------- what every step keeps

  /** A writer in the section is the live holder, and the head it read is still the head. */
  predicate WriterOk(s: State, id: nat, w: Writer) {
    && w.body.eventId == id
    && (InSection(w.pc) ==> s.now <= w.lease && LOCK in s.kv && s.kv[LOCK] == Entry(id, Some(w.lease)))
    && (w.pc.HasRead? ==> w.pc.head == Head(s.log))
  }

  ghost predicate Sound(h: Hash, s: State) {
    && (forall id | id in s.writers :: WriterOk(s, id, s.writers[id]))
    && IsChain(h, s.log)
  }

  lemma AppendKeepsChain(h: Hash, log: seq<Event>, e: Event)
    requires IsChain(h, log) && e.prev == Head(log) && e.hash == h(e.body, Head(log))
    ensures IsChain(h, log + [e])
  {
    forall i | 0 <= i < |log + [e]| ensures LinkOk(h, log + [e], i) {
      if i < |log| {
        assert LinkOk(h, log, i);
      }
    }
  }

  lemma CommitSound(h: Hash, s: State, id: nat)
    requires Sound(h, s) && id in s.writers
    ensures Sound(h, DoCommit(h, s, id, s.writers[id]))
  {
    var w := s.writers[id];
    if w.pc.HasRead? {
      AppendKeepsChain(h, s.log, Event(|s.log| + 1, w.body, w.pc.head, h(w.body, w.pc.head)));
      var t := DoCommit(h, s, id, w);
      forall j | j in t.writers ensures WriterOk(t, j, t.writers[j]) {
        assert WriterOk(s, j, s.writers[j]);
      }
    }
  }

  lemma StepSound(h: Hash, s: State, step: Step)
    requires Sound(h, s)
    ensures Sound(h, Do(h, true, s, step))
  {
    if step.Commit? && step.id in s.writers {
      CommitSound(h, s, step.id);
    } else {
      var t := Do(h, true, s, step);
      assert t.log == s.log;
      forall j | j in t.writers ensures WriterOk(t, j, t.writers[j]) {
        if j in s.writers {
          assert WriterOk(s, j, s.writers[j]);
        }
      }
    }
  }

  lemma {:induction false} RunSound(h: Hash, s: State, steps: seq<Step>)
    requires Sound(h, s)
    ensures Sound(h, Run(h, true, s, steps))
    decreases |steps|
  {
    if steps != [] {
      StepSound(h, s, steps[0]);
      RunSound(h, Do(h, true, s, steps[0]), steps[1..]);
    }
  }

  /** Once inside, nobody else gets in for fifteen seconds, however slow the appender, unless it leaves;
      after that anybody does. */
  lemma LeaseLastsFifteen(h: Hash, s: State, id: nat, other: nat, now: int)
    requires id in s.writers && other in s.writers && id != other && s.writers[id].pc == Waiting && s.writers[other].pc == Waiting
    requires !Alive(s.kv, LOCK, s.now) && s.now <= now
    ensures var t := Do(h, false, s, Acquire(id)).(now := now);
            t.writers[id].pc == Holding && (Do(h, false, t, Acquire(other)).writers[other].pc == Holding <==> s.now + 15 < now)
  {
  }

  // ---------------------------------------------------------------- the log stays one chain

  ghost predicate AlwaysVerifies(h: Hash, timely: bool) {
    forall now, steps :: IsChain(h, Run(h, timely, Init(now), steps).log)
  }

  lemma {:induction false} RunSplit(h: Hash, timely: bool, s: State, a: seq<Step>, b: seq<Step>)
    ensures Run(h, timely, s, a + b) == Run(h, timely, Run(h, timely, s, a), b)
    decreases |a|
  {
    if a == [] {
      assert a + b == b;
    } else {
      assert (a + b)[1..] == a[1..] + b;
      RunSplit(h, timely, Do(h, timely, s, a[0]), a[1..], b);
    }
  }

  /** Two writers, the first one slower than its lease: both build on the empty log. */
  function SlowRead(a: Body, b: Body): seq<Step> {
    [Begin(a), Begin(b), Acquire(a.eventId), ReadHead(a.eventId), Tick(LEASE + 1)]
  }

  function Overtake(a: Body, b: Body): seq<Step> {
    [Acquire(b.eventId), ReadHead(b.eventId), Commit(b.eventId), Commit(a.eventId)]
  }

  function Overslept(a: Body, b: Body): State {
    State(LEASE + 1, map[LOCK := Entry(a.eventId, Some(LEASE))],
          map[a.eventId := Writer(a, HasRead(GENESIS), LEASE), b.eventId := Writer(b, Waiting, 0)], [])
  }

  lemma SlowReadOversleeps(h: Hash, a: Body, b: Body)
    requires a.eventId != b.eventId
    ensures Run(h, false, Init(0), SlowRead(a, b)) == Overslept(a, b)
  {
    var steps := SlowRead(a, b);
    var s := Do(h, false, Do(h, false, Init(0), Begin(a)), Begin(b));
    assert Run(h, false, Init(0), steps) == Run(h, false, s, steps[1..][1..]);
    var t := Do(h, false, Do(h, false, s, Acquire(a.eventId)), ReadHead(a.eventId));
    assert Run(h, false, s, steps[1..][1..]) == Run(h, false, t, steps[1..][1..][1..][1..]);
    assert Do(h, false, t, Tick(LEASE + 1)) == Overslept(a, b);
  }

  lemma OvertakeForks(h: Hash, a: Body, b: Body)
    requires a.eventId != b.eventId && h(b, GENESIS) != GENESIS
    ensures !IsChain(h, Run(h, false, Overslept(a, b), Overtake(a, b)).log)
  {
    var steps := Overtake(a, b);
    var s := Do(h, false, Do(h, false, Overslept(a, b), Acquire(b.eventId)), ReadHead(b.eventId));
    assert Run(h, false, Overslept(a, b), steps) == Run(h, false, s, steps[1..][1..]);
    var t := Do(h, false, Do(h, false, s, Commit(b.eventId)), Commit(a.eventId));
    assert Run(h, false, s, steps[1..][1..]) == Run(h, false, t, steps[1..][1..][1..][1..]);
    assert !LinkOk(h, t.log, 1);
  }

  /** Every run leaves a log that verifies exactly when leases outlast the section. */
  lemma AlwaysVerifiesIffTimely(h: Hash, timely: bool, b: Body)
    requires h(b, GENESIS) != GENESIS
    ensures AlwaysVerifies(h, timely) <==> timely
  {
    if timely {
      forall now, steps ensures IsChain(h, Run(h, timely, Init(now), steps).log) {
        RunSound(h, Init(now), steps);
      }
    } else {
      var a := b.(eventId := b.eventId + 1);
      SlowReadOversleeps(h, a, b);
      OvertakeForks(h, a, b);
      RunSplit(h, false, Init(0), SlowRead(a, b), Overtake(a, b));
    }
  }
}
