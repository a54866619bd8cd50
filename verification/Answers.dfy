/** One answer per idempotency key: what the first lock protects, and exactly when it does. */
module Answers {
  import opened Options
  import opened Lifecycle
  import opened Canonical
  import opened Provider
  import opened TimedStore
  import opened Protocol
  import opened Invariant
  import opened Safety
  import opened Sections
  import opened Charging
  import opened Spending

  /** The idempotency lock holds as long as its holder works under it: its own lease lasts, or
      the fingerprint lock's does, is taken in time, and ends no later. */
  predicate IdemLockHolds(c: Config) {
    || c.env.idemLeaseLasts
    || (c.env.fpLeaseLasts && c.env.checkedInWindow && c.fpLockTtl + c.window <= c.lockTtl + 1)
  }

  lemma IdemLeaseOutlasts(c: Config, now: int, r: Request)
    requires IdemLockHolds(c) && LeasesOk(c, now, r) && (r.pc == WaitFp || InSection(r.pc))
    ensures now <= r.idemLease
  {
  }

  /** Past the idempotency check with nothing found, and not yet past storing an answer. */
  predicate Unrecorded(r: Request) {
    InSection(r.pc) && r.pc != CheckIdem && r.pc != Reserve && !r.pc.Replay? && !r.conflict
  }

  predicate IdemOk(c: Config, now: int, kv: Kv, v: Payment) {
    var r := v.req;
    && LeasesOk(c, now, r)
    && (r.pc == WaitFp || InSection(r.pc) ==> Owns(kv, now, IdemLockOf(r.txn), r.txn.pa, r.idemLease))
    && (Unrecorded(r) ==> !Alive(kv, IdemKeyOf(r.txn), now))
    && (Unchecked(r.pc) || r.pc == Remember ==> !r.conflict)
  }

  lemma IdemWaiting(c: Config, s: State, v: Payment, o: Oracle)
    requires IdemLockHolds(c) && PaymentOk(c, v) && IdemOk(c, s.now, s.kv, v)
    requires v.req.pc.WaitIdem? || v.req.pc.WaitFp?
    ensures var e := Next(c, s, v, o); IdemOk(c, s.now, e.kv, e.pay)
  {
    NextLeases(c, s, v, o);
  }

  lemma IdemChecking(c: Config, s: State, v: Payment, o: Oracle)
    requires IdemLockHolds(c) && PaymentOk(c, v) && IdemOk(c, s.now, s.kv, v)
    requires v.req.pc.CheckIdem? || v.req.pc.CheckFp? || v.req.pc.Decide?
    ensures var e := Next(c, s, v, o); IdemOk(c, s.now, e.kv, e.pay)
  {
    NextLeases(c, s, v, o);
  }

  lemma IdemInsert(c: Config, s: State, v: Payment, o: Oracle)
    requires IdemLockHolds(c) && PaymentOk(c, v) && IdemOk(c, s.now, s.kv, v)
    requires v.req.pc.Insert? || v.req.pc.Blocking?
    ensures var e := Next(c, s, v, o); IdemOk(c, s.now, e.kv, e.pay)
  {
    NextLeases(c, s, v, o);
  }

  lemma IdemWriting(c: Config, s: State, v: Payment, o: Oracle)
    requires IdemLockHolds(c) && PaymentOk(c, v) && IdemOk(c, s.now, s.kv, v)
    requires v.req.pc.Minting? || v.req.pc.Consuming?
    ensures var e := Next(c, s, v, o); IdemOk(c, s.now, e.kv, e.pay)
  {
    NextLeases(c, s, v, o);
  }

  lemma IdemMovingOut(c: Config, s: State, v: Payment, o: Oracle)
    requires IdemLockHolds(c) && PaymentOk(c, v) && IdemOk(c, s.now, s.kv, v)
    requires v.req.pc.Moving? && (v.req.pc.to == Authorized || v.req.pc.to == Submitted)
    ensures var e := Next(c, s, v, o); IdemOk(c, s.now, e.kv, e.pay)
  {
    NextLeases(c, s, v, o);
  }

  lemma IdemMovingOn(c: Config, s: State, v: Payment, o: Oracle)
    requires IdemLockHolds(c) && PaymentOk(c, v) && IdemOk(c, s.now, s.kv, v)
    requires v.req.pc.Moving? && v.req.pc.to != Authorized && v.req.pc.to != Submitted
    ensures var e := Next(c, s, v, o); IdemOk(c, s.now, e.kv, e.pay)
  {
    NextLeases(c, s, v, o);
  }

  lemma IdemTalking(c: Config, s: State, v: Payment, o: Oracle)
    requires IdemLockHolds(c) && PaymentOk(c, v) && IdemOk(c, s.now, s.kv, v)
    requires v.req.pc.Posting? || v.req.pc.Awaiting?
    ensures var e := Next(c, s, v, o); IdemOk(c, s.now, e.kv, e.pay)
  {
    NextLeases(c, s, v, o);
  }

  lemma IdemAuditing(c: Config, s: State, v: Payment, o: Oracle)
    requires IdemLockHolds(c) && PaymentOk(c, v) && IdemOk(c, s.now, s.kv, v)
    requires v.req.pc.Auditing?
    ensures var e := Next(c, s, v, o); IdemOk(c, s.now, e.kv, e.pay)
  {
    NextLeases(c, s, v, o);
  }

  lemma IdemLogging(c: Config, s: State, v: Payment, o: Oracle)
    requires IdemLockHolds(c) && PaymentOk(c, v) && IdemOk(c, s.now, s.kv, v)
    requires v.req.pc.LogDecision? || v.req.pc.Remember?
    ensures var e := Next(c, s, v, o); IdemOk(c, s.now, e.kv, e.pay)
  {
    NextLeases(c, s, v, o);
  }

  lemma IdemReserve(c: Config, s: State, v: Payment, o: Oracle)
    requires IdemLockHolds(c) && PaymentOk(c, v) && IdemOk(c, s.now, s.kv, v)
    requires v.req.pc.Reserve?
    ensures var e := Next(c, s, v, o); IdemOk(c, s.now, e.kv, e.pay)
  {
    NextLeases(c, s, v, o);
  }

  lemma IdemLeaving(c: Config, s: State, v: Payment, o: Oracle)
    requires IdemLockHolds(c) && PaymentOk(c, v) && IdemOk(c, s.now, s.kv, v)
    requires v.req.pc.LeaveFp? || v.req.pc.LeaveIdem?
    ensures var e := Next(c, s, v, o); IdemOk(c, s.now, e.kv, e.pay)
  {
    NextLeases(c, s, v, o);
  }

  lemma IdemReplay(c: Config, s: State, v: Payment, o: Oracle)
    requires IdemLockHolds(c) && PaymentOk(c, v) && IdemOk(c, s.now, s.kv, v)
    requires v.req.pc.Replay? || v.req.pc.Done?
    ensures var e := Next(c, s, v, o); IdemOk(c, s.now, e.kv, e.pay)
  {
    NextLeases(c, s, v, o);
  }

  lemma OwnIdemOk(c: Config, s: State, v: Payment, o: Oracle)
    requires IdemLockHolds(c) && PaymentOk(c, v) && IdemOk(c, s.now, s.kv, v)
    ensures var e := Next(c, s, v, o); IdemOk(c, s.now, e.kv, e.pay)
  {
    match v.req.pc
    case WaitIdem => IdemWaiting(c, s, v, o);
    case WaitFp => IdemWaiting(c, s, v, o);
    case CheckIdem => IdemChecking(c, s, v, o);
    case CheckFp => IdemChecking(c, s, v, o);
    case Decide => IdemChecking(c, s, v, o);
    case Insert => IdemInsert(c, s, v, o);
    case Blocking => IdemInsert(c, s, v, o);
    case Minting => IdemWriting(c, s, v, o);
    case Moving(to, _) => if to == Authorized || to == Submitted { IdemMovingOut(c, s, v, o); } else { IdemMovingOn(c, s, v, o); }
    case Auditing(_, _) => IdemAuditing(c, s, v, o);
    case Consuming => IdemWriting(c, s, v, o);
    case Posting => IdemTalking(c, s, v, o);
    case Awaiting(_) => IdemTalking(c, s, v, o);
    case LogDecision => IdemLogging(c, s, v, o);
    case Remember => IdemLogging(c, s, v, o);
    case Reserve => IdemReserve(c, s, v, o);
    case Replay(_) => IdemReplay(c, s, v, o);
    case Done => IdemReplay(c, s, v, o);
    case LeaveFp => IdemLeaving(c, s, v, o);
    case LeaveIdem => IdemLeaving(c, s, v, o);
  }

  lemma KeysExclude(c: Config, s: State, v: Payment, w: Payment)
    requires IdemOk(c, s.now, s.kv, v) && IdemOk(c, s.now, s.kv, w)
    requires InSection(v.req.pc) && InSection(w.req.pc) && SameKey(v.req.txn, w.req.txn)
    ensures v.req.txn.pa == w.req.txn.pa
  {
  }

  lemma OtherIdemOk(c: Config, s: State, v: Payment, kv: Kv, w: Payment)
    requires IdemOk(c, s.now, s.kv, v) && IdemOk(c, s.now, s.kv, w)
    requires v.req.txn.pa != w.req.txn.pa && WritesOwn(s, v, kv)
    ensures IdemOk(c, s.now, kv, w)
  {
    if v.req.pc == Remember && Unrecorded(w.req) && SameKey(v.req.txn, w.req.txn) {
      KeysExclude(c, s, v, w);
    }
  }

  ghost predicate AllIdemOk(c: Config, s: State) {
    forall p | p in s.payments :: IdemOk(c, s.now, s.kv, s.payments[p])
  }

  lemma AdvanceIdemOk(c: Config, s: State, p: nat, o: Oracle)
    requires IdemLockHolds(c) && Inv(c, s) && AllIdemOk(c, s) && p in s.payments
    ensures AllIdemOk(c, DoAdvance(c, s, p, o))
  {
    var v, t := s.payments[p], DoAdvance(c, s, p, o);
    assert PaymentOk(c, v) && v.req.txn.pa == p;
    OwnIdemOk(c, s, v, o);
    NextWritesOwn(c, s, v, o);
    forall q | q in t.payments ensures IdemOk(c, t.now, t.kv, t.payments[q]) {
      if q != p {
        assert s.payments[q].req.txn.pa == q;
        OtherIdemOk(c, s, v, t.kv, s.payments[q]);
      }
    }
  }

  lemma ReplacedIdemOk(c: Config, s: State, t: State, p: nat, w: Payment)
    requires AllIdemOk(c, s) && t.payments == s.payments[p := w] && t.now == s.now && t.kv == s.kv
    requires IdemOk(c, s.now, s.kv, w)
    ensures AllIdemOk(c, t)
  {
  }

  lemma FailingIdemOk(c: Config, now: int, kv: Kv, v: Payment, timedOut: bool)
    requires IdemOk(c, now, kv, v)
    ensures IdemOk(c, now, kv, v.(req := Failing(v.req, timedOut)))
  {
    FailingLeases(c, now, v.req, timedOut);
  }

  lemma TickIdemOk(c: Config, s: State, dt: nat)
    requires IdemLockHolds(c) && AllIdemOk(c, s)
    ensures AllIdemOk(c, Do(c, s, Tick(dt)))
  {
    var t := Do(c, s, Tick(dt));
    forall p | p in t.payments ensures IdemOk(c, t.now, t.kv, t.payments[p]) {
      var r := s.payments[p].req;
      assert IdemOk(c, s.now, s.kv, s.payments[p]);
      if r.pc == WaitFp || InSection(r.pc) {
        IdemLeaseOutlasts(c, t.now, r);
      }
    }
  }

  lemma SweepIdemOk(c: Config, s: State, step: Step)
    requires AllIdemOk(c, s)
    requires step.Query? || step.Resolve? || step.Expire? || step.SweepAppend? || step.SweepFail?
             || step.StartReconcile? || step.StartExpiry?
    ensures AllIdemOk(c, Do(c, s, step))
  {
    var t := Do(c, s, step);
    assert t.now == s.now && t.kv == s.kv;
    assert forall p | p in t.payments :: p in s.payments && t.payments[p].req == s.payments[p].req;
  }

  lemma StepIdemOk(c: Config, s: State, step: Step)
    requires IdemLockHolds(c) && Inv(c, s) && AllIdemOk(c, s)
    ensures AllIdemOk(c, Do(c, s, step))
  {
    var t := Do(c, s, step);
    match step
    case Tick(dt) => TickIdemOk(c, s, dt);
    case Advance(p, o) => if p in s.payments { AdvanceIdemOk(c, s, p, o); }
    case Arrive(p, order, execute) => if t != s { ReplacedIdemOk(c, s, t, p, t.payments[p]); }
    case Fail(p, timedOut) =>
      if p in s.payments && MayFail(c, s.payments[p]) {
        FailingIdemOk(c, s.now, s.kv, s.payments[p], timedOut);
        ReplacedIdemOk(c, s, t, p, s.payments[p].(req := Failing(s.payments[p].req, timedOut)));
      }
    case Deliver(p, how, reference) =>
      if p in s.payments && s.payments[p].flying.Some? {
        DeliveredIdemOk(c, s, p, how, reference);
        ReplacedIdemOk(c, s, t, p, t.payments[p]);
      }
    case _ => SweepIdemOk(c, s, step);
  }

  lemma DeliveredIdemOk(c: Config, s: State, p: nat, how: Behaviour, reference: nat)
    requires p in s.payments && s.payments[p].flying.Some? && IdemOk(c, s.now, s.kv, s.payments[p])
    ensures IdemOk(c, s.now, s.kv, DoDeliver(s, p, how, reference).payments[p])
  {
  }

  lemma {:induction false} RunIdemOk(c: Config, s: State, steps: seq<Step>)
    requires IdemLockHolds(c) && Inv(c, s) && AllIdemOk(c, s)
    ensures AllIdemOk(c, Run(c, s, steps))
    decreases |steps|
  {
    if steps != [] {
      StepInv(c, s, steps[0]);
      StepIdemOk(c, s, steps[0]);
      RunIdemOk(c, Do(c, s, steps[0]), steps[1..]);
    }
  }

  lemma ReachableIdemOk(c: Config, s: State)
    requires IdemLockHolds(c) && Reachable(c, s)
    ensures Inv(c, s) && AllIdemOk(c, s)
  {
    var now, steps :| s == Run(c, Init(now), steps);
    RunInv(c, Init(now), steps);
    RunIdemOk(c, Init(now), steps);
  }

  /** At most one request is inside the section of its key. */
  lemma OneSectionPerKey(c: Config, s: State, p: nat, q: nat)
    requires IdemLockHolds(c) && Reachable(c, s) && p in s.payments && q in s.payments
    requires InSection(s.payments[p].req.pc) && InSection(s.payments[q].req.pc)
    requires SameKey(s.payments[p].req.txn, s.payments[q].req.txn)
    ensures p == q
  {
    ReachableIdemOk(c, s);
    KeysExclude(c, s, s.payments[p], s.payments[q]);
  }

  // ---------------------------------------------------------------- stored answers

  /** A live answer is stored under the key, for this payload. */
  predicate Stored(s: State, user: nat, key: nat, payload: nat, reply: Reply) {
    var k := IdemKey(user, key);
    Alive(s.kv, k, s.now) && s.kv[k].value == Outcome(payload, reply)
  }

  lemma StepKeepsRecord(c: Config, s: State, step: Step, k: Key)
    requires Inv(c, s) && AllIdemOk(c, s)
    requires k.IdemKey? && Alive(s.kv, k, s.now)
    ensures k in Do(c, s, step).kv && Do(c, s, step).kv[k] == s.kv[k]
  {
    if step.Advance? && step.pa in s.payments {
      var v := s.payments[step.pa];
      NextWritesOwn(c, s, v, step.oracle);
      assert IdemOk(c, s.now, s.kv, v);
    }
  }

  lemma {:induction false} RunGoesForward(c: Config, s: State, steps: seq<Step>)
    ensures s.now <= Run(c, s, steps).now
    decreases |steps|
  {
    if steps != [] {
      RunGoesForward(c, Do(c, s, steps[0]), steps[1..]);
    }
  }

  /** Nobody overwrites a stored answer while it lives: not a retry, not a conflicting request,
      not a slow section of an earlier one. */
  lemma {:induction false} RunKeepsRecord(c: Config, s: State, steps: seq<Step>, k: Key)
    requires IdemLockHolds(c) && Inv(c, s) && AllIdemOk(c, s)
    requires k.IdemKey? && k in s.kv && Live(s.kv[k], Run(c, s, steps).now)
    ensures k in Run(c, s, steps).kv && Run(c, s, steps).kv[k] == s.kv[k]
    decreases |steps|
  {
    RunGoesForward(c, s, steps);
    if steps != [] {
      StepKeepsRecord(c, s, steps[0], k);
      StepInv(c, s, steps[0]);
      StepIdemOk(c, s, steps[0]);
      RunKeepsRecord(c, Do(c, s, steps[0]), steps[1..], k);
    }
  }

  /** A retry that has seen nothing but the stored answer: it owns no row and no POST, and what
      it tells its caller is the stored answer, marked as replayed, or that it gave up. */
  predicate Retrying(v: Payment, stored: Reply) {
    && v.row.None? && v.posts == 0 && v.charge.None?
    && match v.req.pc
       case WaitIdem => true
       case WaitFp => true
       case CheckIdem => true
       case Replay(r) => r == stored
       case LeaveFp => Answered(v.req, stored)
       case LeaveIdem => Answered(v.req, stored)
       case Done => Answered(v.req, stored)
       case _ => false
  }

  predicate Answered(r: Request, stored: Reply) {
    r.failed || r.reply.message == InFlight
    || r.reply == Reply(stored.pa, stored.decision, stored.state, stored.reference, IdempotentReplay, true)
  }

  lemma OwnStepKeepsRetrying(c: Config, s: State, q: nat, o: Oracle, stored: Reply)
    requires q in s.payments && s.payments[q].req.txn.pa == q && Retrying(s.payments[q], stored)
    requires var order := s.payments[q].req.txn.order; Stored(s, order.user, order.key, order.payload, stored)
    ensures Retrying(DoAdvance(c, s, q, o).payments[q], stored)
  {
    var v := s.payments[q];
    if v.req.pc.WaitIdem? || v.req.pc.WaitFp? {
      WaitingKeepsRetrying(c, s, v, o, stored);
    } else {
      RestKeepsRetrying(c, s, v, o, stored);
    }
  }

  lemma WaitingKeepsRetrying(c: Config, s: State, v: Payment, o: Oracle, stored: Reply)
    requires Retrying(v, stored) && (v.req.pc.WaitIdem? || v.req.pc.WaitFp?)
    ensures Retrying(Next(c, s, v, o).pay, stored)
  {
  }

  lemma RestKeepsRetrying(c: Config, s: State, v: Payment, o: Oracle, stored: Reply)
    requires Retrying(v, stored) && !v.req.pc.WaitIdem? && !v.req.pc.WaitFp?
    requires var order := v.req.txn.order; Stored(s, order.user, order.key, order.payload, stored)
    ensures Retrying(Next(c, s, v, o).pay, stored)
  {
  }

  lemma FailKeepsRetrying(c: Config, s: State, q: nat, timedOut: bool, stored: Reply)
    requires q in s.payments && Retrying(s.payments[q], stored)
    ensures var t := DoFail(c, s, q, timedOut); q in t.payments && Retrying(t.payments[q], stored)
  {
  }

  /** Whatever happens to a retry without its doing. */
  lemma EventKeepsRetrying(c: Config, s: State, step: Step, q: nat, stored: Reply)
    requires q in s.payments && Retrying(s.payments[q], stored) && PaymentOk(c, s.payments[q])
    requires step.Fail? || step.Deliver? || step.Arrive?
    requires step.pa == q
    ensures q in Do(c, s, step).payments && Retrying(Do(c, s, step).payments[q], stored)
  {
    if step.Fail? {
      FailKeepsRetrying(c, s, q, step.timedOut, stored);
    }
  }

  lemma SweepKeepsRetrying(c: Config, s: State, step: Step, q: nat, stored: Reply)
    requires q in s.payments && Retrying(s.payments[q], stored)
    requires !step.Advance? && !step.Fail? && !step.Deliver? && !step.Arrive?
    ensures q in Do(c, s, step).payments && Retrying(Do(c, s, step).payments[q], stored)
  {
  }

  lemma StepKeepsRetrying(c: Config, s: State, step: Step, q: nat, stored: Reply)
    requires Inv(c, s) && q in s.payments && Retrying(s.payments[q], stored)
    requires var o := s.payments[q].req.txn.order; Stored(s, o.user, o.key, o.payload, stored)
    ensures q in Do(c, s, step).payments && Retrying(Do(c, s, step).payments[q], stored)
  {
    assert PaymentOk(c, s.payments[q]) && s.payments[q].req.txn.pa == q;
    if step.Advance? || step.Fail? || step.Deliver? || step.Arrive? {
      if step.pa != q {
        OthersUntouched(c, s, step);
        StaysThere(c, s, step, q);
      } else if step.Advance? {
        OwnStepKeepsRetrying(c, s, q, step.oracle, stored);
      } else {
        EventKeepsRetrying(c, s, step, q, stored);
      }
    } else {
      SweepKeepsRetrying(c, s, step, q, stored);
    }
  }

  lemma StaysThere(c: Config, s: State, step: Step, q: nat)
    requires q in s.payments
    ensures q in Do(c, s, step).payments
  {
  }

  /** What a step of a retry may touch: its own request, its locks, one audit event. */
  lemma RetryIsInert(c: Config, s: State, q: nat, o: Oracle, stored: Reply)
    requires q in s.payments && Retrying(s.payments[q], stored)
    requires var order := s.payments[q].req.txn.order; Stored(s, order.user, order.key, order.payload, stored)
    ensures var t := DoAdvance(c, s, q, o);
            && t.payments == s.payments[q := t.payments[q]] && t.consumed == s.consumed && t.sweeps == s.sweeps
            && (forall k: Key | !IsLock(k) :: (k in t.kv <==> k in s.kv) && (k in t.kv ==> t.kv[k] == s.kv[k]))
            && (t.log == s.log || t.log == s.log + [Replayed(stored.pa)])
  {
    NextWritesOwn(c, s, s.payments[q], o);
  }

  /** Absent, or on its way to the stored answer. */
  predicate OnTrack(s: State, q: nat, order: Order, stored: Reply) {
    q in s.payments ==> s.payments[q].req.txn.order == order ==> Retrying(s.payments[q], stored)
  }

  lemma StepKeepsOnTrack(c: Config, s: State, step: Step, q: nat, order: Order, stored: Reply)
    requires Inv(c, s) && OnTrack(s, q, order, stored)
    requires Stored(s, order.user, order.key, order.payload, stored)
    ensures OnTrack(Do(c, s, step), q, order, stored)
  {
    StepPayments(c, s, step);
    if q in s.payments {
      if s.payments[q].req.txn.order == order {
        StepKeepsRetrying(c, s, step, q, stored);
      }
    } else if Subject(s, step) != q {
      OthersUntouched(c, s, step);
    }
  }

  lemma {:induction false} RunKeepsOnTrack(c: Config, s: State, steps: seq<Step>, q: nat, order: Order, stored: Reply)
    requires IdemLockHolds(c) && Inv(c, s) && AllIdemOk(c, s) && OnTrack(s, q, order, stored)
    requires Stored(s, order.user, order.key, order.payload, stored)
    requires Live(s.kv[IdemKey(order.user, order.key)], Run(c, s, steps).now)
    ensures OnTrack(Run(c, s, steps), q, order, stored)
    decreases |steps|
  {
    if steps != [] {
      var t := Do(c, s, steps[0]);
      StepKeepsRecord(c, s, steps[0], IdemKey(order.user, order.key));
      StepInv(c, s, steps[0]);
      StepIdemOk(c, s, steps[0]);
      RunGoesForward(c, t, steps[1..]);
      StepKeepsOnTrack(c, s, steps[0], q, order, stored);
      RunKeepsOnTrack(c, t, steps[1..], q, order, stored);
    }
  }

  // ---------------------------------------------------------------- how an answer is overwritten

  const NO := Oracle(true, Block, 1)
  const OTHER := CART.(payload := 10, cart := 11)

  /** A run so far: the steps taken from s lead to t. */
  ghost predicate Leads(c: Config, s: State, steps: seq<Step>, t: State) {
    Run(c, s, steps) == t
  }

  lemma Longer(c: Config, s: State, steps: seq<Step>, t: State, step: Step) returns (more: seq<Step>, u: State)
    requires Leads(c, s, steps, t)
    ensures u == Do(c, t, step) && Leads(c, s, more, u)
  {
    RunThen(c, s, steps, step);
    more, u := steps + [step], Do(c, t, step);
  }

  /** Apart from this payment, the store and the log, nothing happened. */
  predicate Aside(s: State, t: State, p: nat) {
    && p in s.payments && p in t.payments && t.payments == s.payments[p := t.payments[p]] && t.now == s.now
    && t.payments[p].req.txn == s.payments[p].req.txn
  }

  /** A request that found nothing and is denied stores its answer, whatever is stored by then. */
  lemma Records(c: Config, s: State, p: nat) returns (steps: seq<Step>, t: State)
    requires p in s.payments && s.payments[p].req.pc == Decide && !s.payments[p].req.conflict && s.payments[p].row.None?
    ensures Leads(c, s, steps, t) && Aside(s, t, p) && t.payments[p].req.pc == LeaveFp
    ensures var txn := s.payments[p].req.txn;
            t.kv == s.kv[IdemKeyOf(txn) := Stamp(Outcome(txn.order.payload, t.payments[p].req.reply), c.idemTtl, s.now)]
  {
    var u;
    steps, u := IsDenied(c, s, p);
    steps, t := Longer(c, s, steps, u, Advance(p, NO));
  }

  /** About to store a denial. */
  predicate Denied(v: Payment) {
    v.req.pc == Remember && !v.req.conflict && v.req.decision == Block
  }

  lemma IsDenied(c: Config, s: State, p: nat) returns (steps: seq<Step>, t: State)
    requires p in s.payments && s.payments[p].req.pc == Decide && !s.payments[p].req.conflict && s.payments[p].row.None?
    ensures Leads(c, s, steps, t) && Aside(s, t, p) && t.kv == s.kv && Denied(t.payments[p])
  {
    steps, t := IsLogged(c, s, p);
    steps, t := Longer(c, s, steps, t, Advance(p, NO));
  }

  lemma IsLogged(c: Config, s: State, p: nat) returns (steps: seq<Step>, t: State)
    requires p in s.payments && s.payments[p].req.pc == Decide && !s.payments[p].req.conflict && s.payments[p].row.None?
    ensures Leads(c, s, steps, t) && Aside(s, t, p) && t.kv == s.kv
    ensures t.payments[p].req.pc == LogDecision && !t.payments[p].req.conflict && t.payments[p].req.decision == Block
  {
    steps, t := Longer(c, s, [], s, Advance(p, NO));
    steps, t := Longer(c, s, steps, t, Advance(p, NO));
    steps, t := Longer(c, s, steps, t, Advance(p, NO));
  }

  /** A newcomer that finds its locks free gets to the first check. */
  lemma Enters(c: Config, s: State, p: nat, order: Order) returns (steps: seq<Step>, t: State)
    requires p !in s.payments && order.rendering == 0
    requires var txn := Txn(p, order, FingerprintOf(order, s.now, c.window), s.now);
             !Alive(s.kv, IdemLockOf(txn), s.now) && !Alive(s.kv, FpLockOf(txn), s.now)
    ensures Leads(c, s, steps, t) && t.now == s.now && p in t.payments && t.payments == s.payments[p := t.payments[p]]
    ensures t.payments[p].req.txn == Txn(p, order, FingerprintOf(order, s.now, c.window), s.now)
    ensures t.payments[p].req.pc == CheckIdem && !t.payments[p].req.conflict && t.payments[p].row.None?
    ensures !t.payments[p].req.failed
    ensures var txn := t.payments[p].req.txn;
            t.kv == s.kv[IdemLockOf(txn) := Stamp(Holder(p), c.lockTtl, s.now)][FpLockOf(txn) := Stamp(Holder(p), c.fpLockTtl, s.now)]
  {
    steps, t := Longer(c, s, [], s, Arrive(p, order, true));
    steps, t := Longer(c, s, steps, t, Advance(p, NO));
    steps, t := Longer(c, s, steps, t, Advance(p, NO));
  }

  /** And past both checks, if nothing is recorded. */
  lemma Passes(c: Config, s: State, p: nat) returns (steps: seq<Step>, t: State)
    requires p in s.payments && s.payments[p].req.pc == CheckIdem && !s.payments[p].req.conflict && s.payments[p].row.None?
    requires forall k | k in s.kv :: IsLock(k)
    ensures Leads(c, s, steps, t) && Aside(s, t, p) && t.kv == s.kv
    ensures t.payments[p].req.pc == Decide && !t.payments[p].req.conflict && t.payments[p].row.None?
  {
    steps, t := Longer(c, s, [], s, Advance(p, NO));
    steps, t := Longer(c, s, steps, t, Advance(p, NO));
  }

  /** Payment 0 has found nothing and dawdles; its idempotency lease has just run out. */
  ghost predicate Dawdling(c: Config, s: State) {
    && Reachable(c, s) && s.now == c.lockTtl + 1 && s.payments.Keys == {0}
    && s.payments[0].req.pc == Decide && !s.payments[0].req.conflict && s.payments[0].row.None?
    && s.payments[0].req.txn == FirstTxn(c)
    && (forall k | k in s.kv :: k == IdemLockOf(FirstTxn(c)) || k == FpLockOf(FirstTxn(c)))
    && !Alive(s.kv, IdemLockOf(FirstTxn(c)), s.now)
  }

  lemma ToDawdling(c: Config) returns (s: State)
    requires !IdemLockHolds(c)
    ensures Dawdling(c, s)
  {
    var pause := if c.env.fpLeaseLasts && c.fpLockTtl < c.lockTtl + 1 then c.lockTtl + 1 - c.fpLockTtl else 0;
    var s0 := ToWaitFp(c);
    var s1 := Do(c, s0, Tick(pause));
    ReachableStep(c, s0, Tick(pause));
    assert s1 == s0.(now := pause);
    var s2 := Do(c, s1, Advance(0, NO));
    ReachableStep(c, s1, Advance(0, NO));
    assert s2.payments[0].req.fpLease == pause + c.fpLockTtl;
    s := DawdlesOn(c, s2);
  }

  lemma ToWaitFp(c: Config) returns (s: State)
    ensures Reachable(c, s) && s.now == 0 && s.payments.Keys == {0}
    ensures s.payments[0].req.pc == WaitFp && !s.payments[0].req.conflict && s.payments[0].row.None?
    ensures s.payments[0].req.txn == FirstTxn(c)
    ensures s.kv == map[IdemLockOf(FirstTxn(c)) := Entry(Holder(0), Some(c.lockTtl))]
  {
    assert Init(0) == Run(c, Init(0), []);
    var s0 := Do(c, Init(0), Arrive(0, CART, true));
    ReachableStep(c, Init(0), Arrive(0, CART, true));
    s := Do(c, s0, Advance(0, NO));
    ReachableStep(c, s0, Advance(0, NO));
  }

  /** Alone, on the way through the checks, with nothing but its own locks in the store. */
  ghost predicate OwnLocks(c: Config, s: State, pc: Pc) {
    && Reachable(c, s) && s.now <= c.lockTtl + 1 && s.payments.Keys == {0}
    && s.payments[0].req.pc == pc && !s.payments[0].req.conflict && s.payments[0].row.None?
    && s.payments[0].req.txn == FirstTxn(c)
    && (c.env.fpLeaseLasts ==> c.lockTtl + 1 <= s.payments[0].req.fpLease)
    && (forall k | k in s.kv :: k == IdemLockOf(FirstTxn(c)) || k == FpLockOf(FirstTxn(c)))
    && IdemLockOf(FirstTxn(c)) in s.kv && s.kv[IdemLockOf(FirstTxn(c))] == Entry(Holder(0), Some(c.lockTtl))
  }

  lemma ChecksPass(c: Config, s: State) returns (t: State)
    requires OwnLocks(c, s, CheckIdem)
    ensures OwnLocks(c, t, Decide)
  {
    var s1 := Do(c, s, Advance(0, NO));
    ReachableStep(c, s, Advance(0, NO));
    t := Do(c, s1, Advance(0, NO));
    ReachableStep(c, s1, Advance(0, NO));
  }

  lemma DawdlesOn(c: Config, s: State) returns (t: State)
    requires OwnLocks(c, s, CheckIdem) && !c.env.idemLeaseLasts
    ensures Dawdling(c, t)
  {
    var s1 := ChecksPass(c, s);
    t := Do(c, s1, Tick(c.lockTtl + 1 - s1.now));
    ReachableStep(c, s1, Tick(c.lockTtl + 1 - s1.now));
    assert t == s1.(now := c.lockTtl + 1);
  }

  /** Another payload under the same key has its answer stored; payment 0 still dawdles. */
  ghost predicate Recorded(c: Config, s: State) {
    && Reachable(c, s) && s.payments.Keys == {0, 1}
    && s.payments[0].req.pc == Decide && !s.payments[0].req.conflict && s.payments[0].row.None?
    && s.payments[0].req.txn == FirstTxn(c)
    && s.payments[1].req.pc == LeaveFp && s.payments[1].req.txn == Txn(1, OTHER, FingerprintOf(OTHER, s.now, c.window), s.now)
    && Stored(s, OTHER.user, OTHER.key, OTHER.payload, s.payments[1].req.reply)
    && var txn := s.payments[1].req.txn;
       IdemLockOf(txn) in s.kv && s.kv[IdemLockOf(txn)] == Entry(Holder(1), Some(s.now + c.lockTtl))
       && FpLockOf(txn) in s.kv && s.kv[FpLockOf(txn)] == Entry(Holder(1), Some(s.now + c.fpLockTtl))
  }

  lemma LeadsReachable(c: Config, s: State, steps: seq<Step>, t: State)
    requires Reachable(c, s) && Leads(c, s, steps, t)
    ensures Reachable(c, t)
  {
    var now, before :| s == Run(c, Init(now), before);
    RunJoins(c, Init(now), before, steps);
  }

  lemma ToRecorded(c: Config) returns (s: State)
    requires !IdemLockHolds(c)
    ensures Recorded(c, s)
  {
    var before := ToRecording(c);
    s := Do(c, before, Advance(1, NO));
  }

  /** One step before that. */
  lemma ToRecording(c: Config) returns (s: State)
    requires !IdemLockHolds(c)
    ensures Reachable(c, s) && 1 in s.payments && Denied(s.payments[1]) && Recorded(c, Do(c, s, Advance(1, NO)))
  {
    var s0 := ToDawdling(c);
    var steps, s1 := Enters(c, s0, 1, OTHER);
    LeadsReachable(c, s0, steps, s1);
    var s2;
    steps, s2 := Passes(c, s1, 1);
    LeadsReachable(c, s1, steps, s2);
    steps, s := IsDenied(c, s2, 1);
    LeadsReachable(c, s2, steps, s);
    IsRecorded(c, s);
  }

  /** The rest of what it takes. */
  ghost predicate Recording(c: Config, s: State) {
    && Reachable(c, s) && s.payments.Keys == {0, 1}
    && s.payments[0].req.pc == Decide && !s.payments[0].req.conflict && s.payments[0].row.None?
    && s.payments[0].req.txn == FirstTxn(c)
    && Denied(s.payments[1]) && s.payments[1].req.txn == Txn(1, OTHER, FingerprintOf(OTHER, s.now, c.window), s.now)
    && var txn := s.payments[1].req.txn;
       IdemLockOf(txn) in s.kv && s.kv[IdemLockOf(txn)] == Entry(Holder(1), Some(s.now + c.lockTtl))
       && FpLockOf(txn) in s.kv && s.kv[FpLockOf(txn)] == Entry(Holder(1), Some(s.now + c.fpLockTtl))
  }

  lemma IsRecorded(c: Config, s: State)
    requires Recording(c, s)
    ensures Recorded(c, Do(c, s, Advance(1, NO)))
  {
    ReachableStep(c, s, Advance(1, NO));
  }

  /** Then payment 0 stores its own answer over it. */
  lemma Overwrites(c: Config, s: State) returns (steps: seq<Step>, t: State)
    requires Recorded(c, s)
    ensures Leads(c, s, steps, t) && Aside(s, t, 0)
    ensures IdemKeyOf(FirstTxn(c)) in t.kv
    ensures t.kv == s.kv[IdemKeyOf(FirstTxn(c)) := t.kv[IdemKeyOf(FirstTxn(c))]]
    ensures t.kv[IdemKeyOf(FirstTxn(c))] == Stamp(Outcome(CART.payload, t.payments[0].req.reply), c.idemTtl, s.now)
  {
    steps, t := Records(c, s, 0);
  }

  /** The other request gives its locks back. */
  lemma LeavesBoth(c: Config, s: State, p: nat) returns (steps: seq<Step>, t: State)
    requires p in s.payments && s.payments[p].req.pc == LeaveFp && s.payments[p].req.txn.pa == p
    requires var txn := s.payments[p].req.txn;
             && IdemLockOf(txn) in s.kv && s.kv[IdemLockOf(txn)] == Entry(Holder(p), Some(s.now + c.lockTtl))
             && FpLockOf(txn) in s.kv && s.kv[FpLockOf(txn)] == Entry(Holder(p), Some(s.now + c.fpLockTtl))
    ensures Leads(c, s, steps, t) && Aside(s, t, p)
    ensures var txn := s.payments[p].req.txn; t.kv == s.kv - {FpLockOf(txn)} - {IdemLockOf(txn)}
  {
    steps, t := Longer(c, s, [], s, Advance(p, NO));
    steps, t := Longer(c, s, steps, t, Advance(p, NO));
  }

  /** And an honest retry of the other request is told that it conflicts. */
  lemma RetryConflicts(c: Config, s: State) returns (steps: seq<Step>, t: State)
    requires Recorded(c, s)
    ensures Leads(c, s, steps, t) && t.now == s.now && 2 !in s.payments && 2 in t.payments
    ensures t.payments[2].req.txn.order == OTHER && t.payments[2].req.pc == Decide
  {
    var u, more, w;
    steps, u := Overwrites(c, s);
    more, w := LeavesBoth(c, u, 1);
    RunJoins(c, s, steps, more);
    steps := steps + more;
    more, u := Enters(c, w, 2, OTHER);
    RunJoins(c, s, steps, more);
    steps := steps + more;
    assert Peek(u.kv, IdemKeyOf(u.payments[2].req.txn), u.now) == Some(u.kv[IdemKeyOf(FirstTxn(c))].value);
    more, t := Longer(c, u, [], u, Advance(2, NO));
    RunJoins(c, s, steps, more);
    steps := steps + more;
  }

  // ---------------------------------------------------------------- exactly when

  ghost predicate AnswersAreKept(c: Config) {
    forall s, steps, k: Key | Reachable(c, s) && k.IdemKey? && k in s.kv && Live(s.kv[k], Run(c, s, steps).now) ::
      k in Run(c, s, steps).kv && Run(c, s, steps).kv[k] == s.kv[k]
  }

  /** A stored answer is never overwritten while it lives, exactly when the idempotency lock holds. */
  lemma AnswersKeptIff(c: Config)
    ensures AnswersAreKept(c) <==> IdemLockHolds(c)
  {
    if IdemLockHolds(c) {
      forall s, steps, k: Key | Reachable(c, s) && k.IdemKey? && k in s.kv && Live(s.kv[k], Run(c, s, steps).now)
        ensures k in Run(c, s, steps).kv && Run(c, s, steps).kv[k] == s.kv[k]
      {
        ReachableIdemOk(c, s);
        RunKeepsRecord(c, s, steps, k);
      }
    } else {
      var s := ToRecorded(c);
      var steps, t := Overwrites(c, s);
      var k := IdemKeyOf(FirstTxn(c));
      assert k in s.kv && Live(s.kv[k], Run(c, s, steps).now);
      assert Run(c, s, steps).kv[k] != s.kv[k];
    }
  }

  /** q came after the answer was stored, asks the same question, and the answer still lives. */
  ghost predicate AsksAgain(c: Config, s: State, steps: seq<Step>, q: nat, stored: Reply) {
    var t := Run(c, s, steps);
    && Reachable(c, s) && q !in s.payments && q in t.payments
    && var order := t.payments[q].req.txn.order;
       Stored(s, order.user, order.key, order.payload, stored) && Live(s.kv[IdemKey(order.user, order.key)], t.now)
  }

  ghost predicate RetriesGetStoredAnswer(c: Config) {
    forall s, steps, q, stored | AsksAgain(c, s, steps, q, stored) :: Retrying(Run(c, s, steps).payments[q], stored)
  }

  /** Once an answer is stored, every later request with the same key and payload gets exactly
      that answer as long as it lives, or is refused, and never gains a row, a POST or a charge:
      exactly when the idempotency lock holds. */
  lemma RetriesGetStoredAnswerIff(c: Config)
    ensures RetriesGetStoredAnswer(c) <==> IdemLockHolds(c)
  {
    if IdemLockHolds(c) {
      forall s, steps, q, stored | AsksAgain(c, s, steps, q, stored)
        ensures Retrying(Run(c, s, steps).payments[q], stored)
      {
        ReachableIdemOk(c, s);
        RunKeepsOnTrack(c, s, steps, q, Run(c, s, steps).payments[q].req.txn.order, stored);
      }
    } else {
      var s := ToRecorded(c);
      var steps, t := RetryConflicts(c, s);
      assert AsksAgain(c, s, steps, 2, s.payments[1].req.reply);
      assert !Retrying(t.payments[2], s.payments[1].req.reply);
    }
  }

  /** With the shipped lease times (10 and 15 seconds) only the idempotency lease will do. */
  lemma ShippedLockHolds(env: Environment)
    ensures IdemLockHolds(Shipped(env)) <==> env.idemLeaseLasts
  {
  }
}
