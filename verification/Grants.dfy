/** One grant per fingerprint: the second lock, the duplicate check and the reserved slot, and
    exactly when they suffice. */
module Grants {
  import opened Options
  import opened Lifecycle
  import opened Canonical
  import opened Provider
  import opened TimedStore
  import opened Protocol
  import opened Invariant
  import opened Safety
  import opened Sections
  import opened Charging
  import opened Fences
  import opened Provenance

  /** The slot of a granted payment stays reserved until nobody checks it any more. */
  predicate SlotKept(c: Config, kv: Kv, t: Txn) {
    var k := SlotKeyOf(t);
    && k in kv && kv[k].value == Slot(t.pa)
    && kv[k].expires.Some? && kv[k].expires.value >= Deadline(c, t.fp)
  }

  /** Past both checks, cleared to be granted. */
  predicate Cleared(r: Request) {
    (r.pc == Decide || r.pc == Insert) && !r.conflict
  }

  /** The token does not run out under a granted section while it matters, so that no expiry sweep
      ends it: whatever bounds the section is no longer than the token's lifetime. */
  predicate TokenOutlasts(c: Config) {
    || (c.env.fpLeaseLasts && c.fpLockTtl <= c.tokenTtl)
    || (c.env.idemLeaseLasts && c.lockTtl <= c.tokenTtl)
    || 2 * c.window <= c.tokenTtl + 2
  }

  /** What duplicate protection needs from the environment. */
  predicate Protects(c: Config) {
    c.env.completes && c.env.checkedInWindow && FpLockHolds(c) && TokenOutlasts(c)
  }

  predicate FpOk(c: Config, now: int, kv: Kv, v: Payment) {
    var r := v.req;
    && (c.env.plainAmounts ==> r.txn.fp.rendering == 0)
    && (Unchecked(r.pc) ==> !r.conflict && r.decision == Block)
    && (r.conflict ==> r.decision == Block)
    && (r.pc.Replay? ==> v.row.None?)
    && (r.pc == Remember ==> !r.conflict)
    && (now < Deadline(c, r.txn.fp) ==> WhileOpen(c, kv, v))
  }

  /** As long as the fingerprint can still be checked. */
  predicate WhileOpen(c: Config, kv: Kv, v: Payment) {
    var r := v.req;
    && (Granted(v) && !InSection(r.pc) ==> SlotKept(c, kv, r.txn))
    && (Granted(v) && InSection(r.pc) ==>
          v.row.value.state != Expired && (v.row.value.expires.Some? ==> v.row.value.expires.value >= r.fpLease - c.fpLockTtl + c.tokenTtl))
  }

  lemma FpWaiting(c: Config, s: State, v: Payment, o: Oracle)
    requires PaymentOk(c, v) && FenceOk(c, s.now, s.kv, v) && FpOk(c, s.now, s.kv, v)
    requires v.req.pc.WaitIdem? || v.req.pc.WaitFp?
    ensures var e := Next(c, s, v, o); FpOk(c, s.now, e.kv, e.pay)
  {
  }

  lemma FpChecking(c: Config, s: State, v: Payment, o: Oracle)
    requires PaymentOk(c, v) && FenceOk(c, s.now, s.kv, v) && FpOk(c, s.now, s.kv, v)
    requires v.req.pc.CheckIdem? || v.req.pc.CheckFp? || v.req.pc.Decide?
    ensures var e := Next(c, s, v, o); FpOk(c, s.now, e.kv, e.pay)
  {
  }

  lemma FpInsert(c: Config, s: State, v: Payment, o: Oracle)
    requires PaymentOk(c, v) && FenceOk(c, s.now, s.kv, v) && FpOk(c, s.now, s.kv, v)
    requires v.req.pc.Insert?
    ensures var e := Next(c, s, v, o); FpOk(c, s.now, e.kv, e.pay)
  {
  }

  lemma FpBlocking(c: Config, s: State, v: Payment, o: Oracle)
    requires PaymentOk(c, v) && FenceOk(c, s.now, s.kv, v) && FpOk(c, s.now, s.kv, v)
    requires v.req.pc.Blocking?
    ensures var e := Next(c, s, v, o); FpOk(c, s.now, e.kv, e.pay)
  {
  }

  lemma FpMinting(c: Config, s: State, v: Payment, o: Oracle)
    requires PaymentOk(c, v) && FenceOk(c, s.now, s.kv, v) && FpOk(c, s.now, s.kv, v)
    requires v.req.pc.Minting?
    ensures var e := Next(c, s, v, o); FpOk(c, s.now, e.kv, e.pay)
  {
  }

  lemma FpMovingOut(c: Config, s: State, v: Payment, o: Oracle)
    requires PaymentOk(c, v) && FenceOk(c, s.now, s.kv, v) && FpOk(c, s.now, s.kv, v)
    requires v.req.pc.Moving? && (v.req.pc.to == Authorized || v.req.pc.to == Submitted)
    ensures var e := Next(c, s, v, o); FpOk(c, s.now, e.kv, e.pay)
  {
  }

  lemma FpMovingOn(c: Config, s: State, v: Payment, o: Oracle)
    requires PaymentOk(c, v) && FenceOk(c, s.now, s.kv, v) && FpOk(c, s.now, s.kv, v)
    requires v.req.pc.Moving? && v.req.pc.to != Authorized && v.req.pc.to != Submitted
    ensures var e := Next(c, s, v, o); FpOk(c, s.now, e.kv, e.pay)
  {
  }

  lemma FpSending(c: Config, s: State, v: Payment, o: Oracle)
    requires PaymentOk(c, v) && FenceOk(c, s.now, s.kv, v) && FpOk(c, s.now, s.kv, v)
    requires v.req.pc.Consuming? || v.req.pc.Posting?
    ensures var e := Next(c, s, v, o); FpOk(c, s.now, e.kv, e.pay)
  {
  }

  lemma FpAwaiting(c: Config, s: State, v: Payment, o: Oracle)
    requires PaymentOk(c, v) && FenceOk(c, s.now, s.kv, v) && FpOk(c, s.now, s.kv, v)
    requires v.req.pc.Awaiting?
    ensures var e := Next(c, s, v, o); FpOk(c, s.now, e.kv, e.pay)
  {
  }

  lemma FpAuditing(c: Config, s: State, v: Payment, o: Oracle)
    requires PaymentOk(c, v) && FenceOk(c, s.now, s.kv, v) && FpOk(c, s.now, s.kv, v)
    requires v.req.pc.Auditing?
    ensures var e := Next(c, s, v, o); FpOk(c, s.now, e.kv, e.pay)
  {
  }

  lemma FpLogging(c: Config, s: State, v: Payment, o: Oracle)
    requires PaymentOk(c, v) && FenceOk(c, s.now, s.kv, v) && FpOk(c, s.now, s.kv, v)
    requires v.req.pc.LogDecision? || v.req.pc.Remember?
    ensures var e := Next(c, s, v, o); FpOk(c, s.now, e.kv, e.pay)
  {
  }

  lemma FpReserve(c: Config, s: State, v: Payment, o: Oracle)
    requires PaymentOk(c, v) && FenceOk(c, s.now, s.kv, v) && FpOk(c, s.now, s.kv, v)
    requires v.req.pc.Reserve?
    ensures var e := Next(c, s, v, o); FpOk(c, s.now, e.kv, e.pay)
  {
    assert AtReserve(c, s, v).kv == s.kv[SlotKeyOf(v.req.txn) := Stamp(Slot(v.req.txn.pa), 2 * c.window, s.now)];
    assert SlotKept(c, AtReserve(c, s, v).kv, v.req.txn);
  }

  lemma FpLeaving(c: Config, s: State, v: Payment, o: Oracle)
    requires PaymentOk(c, v) && FenceOk(c, s.now, s.kv, v) && FpOk(c, s.now, s.kv, v)
    requires v.req.pc.LeaveFp? || v.req.pc.LeaveIdem?
    ensures var e := Next(c, s, v, o); FpOk(c, s.now, e.kv, e.pay)
  {
  }

  lemma FpReplay(c: Config, s: State, v: Payment, o: Oracle)
    requires PaymentOk(c, v) && FenceOk(c, s.now, s.kv, v) && FpOk(c, s.now, s.kv, v)
    requires v.req.pc.Replay? || v.req.pc.Done?
    ensures var e := Next(c, s, v, o); FpOk(c, s.now, e.kv, e.pay)
  {
  }

  lemma OwnFpOk(c: Config, s: State, v: Payment, o: Oracle)
    requires PaymentOk(c, v) && FenceOk(c, s.now, s.kv, v) && FpOk(c, s.now, s.kv, v)
    ensures var e := Next(c, s, v, o); FpOk(c, s.now, e.kv, e.pay)
  {
    match v.req.pc
    case WaitIdem => FpWaiting(c, s, v, o);
    case WaitFp => FpWaiting(c, s, v, o);
    case CheckIdem => FpChecking(c, s, v, o);
    case CheckFp => FpChecking(c, s, v, o);
    case Decide => FpChecking(c, s, v, o);
    case Insert => FpInsert(c, s, v, o);
    case Blocking => FpBlocking(c, s, v, o);
    case Minting => FpMinting(c, s, v, o);
    case Moving(to, _) => if to == Authorized || to == Submitted { FpMovingOut(c, s, v, o); } else { FpMovingOn(c, s, v, o); }
    case Auditing(_, _) => FpAuditing(c, s, v, o);
    case Consuming => FpSending(c, s, v, o);
    case Posting => FpSending(c, s, v, o);
    case Awaiting(_) => FpAwaiting(c, s, v, o);
    case LogDecision => FpLogging(c, s, v, o);
    case Remember => FpLogging(c, s, v, o);
    case Reserve => FpReserve(c, s, v, o);
    case Replay(_) => FpReplay(c, s, v, o);
    case Done => FpReplay(c, s, v, o);
    case LeaveFp => FpLeaving(c, s, v, o);
    case LeaveIdem => FpLeaving(c, s, v, o);
  }

  // ---------------------------------------------------------------- the other payments

  lemma OtherFpOk(c: Config, s: State, v: Payment, kv: Kv, w: Payment)
    requires FpOk(c, s.now, s.kv, v) && FpOk(c, s.now, s.kv, w)
    requires v.req.txn.pa != w.req.txn.pa
    requires WritesOwn(s, v, kv)
    requires v.req.pc == Reserve && Granted(w) ==> v.req.txn.fp != w.req.txn.fp
    ensures FpOk(c, s.now, kv, w)
  {
  }

  /** Of two payments of one fingerprint at most one is granted or cleared to be. */
  predicate Compatible(w: Payment, x: Payment) {
    w.req.txn.fp == x.req.txn.fp ==> !((Granted(w) || Cleared(w.req)) && (Granted(x) || Cleared(x.req)))
  }

  ghost predicate Separated(c: Config, s: State) {
    && (forall p | p in s.payments :: FpOk(c, s.now, s.kv, s.payments[p]))
    && forall p, q | p in s.payments && q in s.payments && p != q :: Compatible(s.payments[p], s.payments[q])
  }

  // ---------------------------------------------------------------- one step

  /** A grant comes only from a cleared request, and clearance only from the slot check. */
  lemma NextGrants(c: Config, s: State, v: Payment, o: Oracle)
    requires PaymentOk(c, v) && FpOk(c, s.now, s.kv, v)
    ensures Granted(Next(c, s, v, o).pay) && !Granted(v) ==> Cleared(v.req)
  {
    if WritesRow(v.req.pc) {
      NextWritesRow(c, s, v, o);
    } else {
      NextKeepsRow(c, s, v, o);
    }
  }

  /** The slot, if it is taken at all, is this payment's own. */
  predicate SlotFree(s: State, v: Payment) {
    var k := SlotKeyOf(v.req.txn);
    Alive(s.kv, k, s.now) ==> s.kv[k].value == Slot(v.req.txn.pa)
  }

  lemma NextClears(c: Config, s: State, v: Payment, o: Oracle)
    requires FpOk(c, s.now, s.kv, v)
    ensures Cleared(Next(c, s, v, o).pay.req) && !Cleared(v.req) ==> v.req.pc == CheckFp && SlotFree(s, v)
  {
    if !IsEarly(v.req.pc) {
      LateNeverClears(c, s, v, o);
    }
  }

  lemma LateNeverClears(c: Config, s: State, v: Payment, o: Oracle)
    requires !IsEarly(v.req.pc)
    ensures !Cleared(Next(c, s, v, o).pay.req)
  {
  }

  /** A request that finds the slot free is first: nobody else of its fingerprint is granted or
      about to be. One still inside would hold the lock; a granted one outside keeps the slot. */
  lemma FreeSlotMeansFirst(c: Config, s: State, v: Payment, w: Payment)
    requires c.env.checkedInWindow && FenceOk(c, s.now, s.kv, v) && FenceOk(c, s.now, s.kv, w)
    requires FpOk(c, s.now, s.kv, v) && FpOk(c, s.now, s.kv, w)
    requires v.req.pc == CheckFp && SlotFree(s, v) && v.req.txn.pa != w.req.txn.pa
    requires v.req.txn.fp == w.req.txn.fp
    ensures !Granted(w) && !Cleared(w.req)
  {
    assert s.now < Deadline(c, v.req.txn.fp);
    if InSection(w.req.pc) {
      LocksExclude(c, s, v, w);
    }
  }

  lemma StaysCompatible(c: Config, s: State, v: Payment, w: Payment, x: Payment)
    requires c.env.checkedInWindow && FenceOk(c, s.now, s.kv, v) && FenceOk(c, s.now, s.kv, x)
    requires FpOk(c, s.now, s.kv, v) && FpOk(c, s.now, s.kv, x)
    requires Compatible(v, x) && v.req.txn.pa != x.req.txn.pa && w.req.txn == v.req.txn
    requires Granted(w) && !Granted(v) ==> Cleared(v.req)
    requires Cleared(w.req) && !Cleared(v.req) ==> v.req.pc == CheckFp && SlotFree(s, v)
    ensures Compatible(w, x)
  {
    if Cleared(w.req) && !Cleared(v.req) && w.req.txn.fp == x.req.txn.fp {
      FreeSlotMeansFirst(c, s, v, x);
    }
  }

  lemma AdvanceSeparates(c: Config, s: State, p: nat, o: Oracle)
    requires Protects(c) && Inv(c, s) && AllFenced(c, s) && Separated(c, s) && p in s.payments
    ensures Separated(c, DoAdvance(c, s, p, o))
  {
    var v := s.payments[p];
    var e := Next(c, s, v, o);
    assert PaymentOk(c, v) && v.req.txn.pa == p && FenceOk(c, s.now, s.kv, v);
    OwnFpOk(c, s, v, o);
    forall q | q in s.payments && q != p
      ensures FpOk(c, s.now, e.kv, s.payments[q]) && Compatible(e.pay, s.payments[q])
    {
      BesideAdvance(c, s, p, o, q);
    }
    OneChanged(c, s, DoAdvance(c, s, p, o), p, e.pay);
  }

  lemma BesideAdvance(c: Config, s: State, p: nat, o: Oracle, q: nat)
    requires Protects(c) && Inv(c, s) && AllFenced(c, s) && Separated(c, s) && p in s.payments && q in s.payments && p != q
    ensures var e := Next(c, s, s.payments[p], o);
            FpOk(c, s.now, e.kv, s.payments[q]) && Compatible(e.pay, s.payments[q])
  {
    var v := s.payments[p];
    assert PaymentOk(c, v) && v.req.txn.pa == p && s.payments[q].req.txn.pa == q;
    NextWritesOwn(c, s, v, o);
    NextGrants(c, s, v, o);
    NextClears(c, s, v, o);
    OtherFpOk(c, s, v, Next(c, s, v, o).kv, s.payments[q]);
    AdvanceStep(c, s, p, o);
    assert DoAdvance(c, s, p, o).payments[p] == Next(c, s, v, o).pay;
    StaysCompatible(c, s, v, Next(c, s, v, o).pay, s.payments[q]);
  }

  lemma OneChanged(c: Config, s: State, t: State, p: nat, w: Payment)
    requires Separated(c, s) && p in s.payments && t.payments == s.payments[p := w]
    requires FpOk(c, t.now, t.kv, w)
    requires forall q | q in s.payments && q != p :: FpOk(c, t.now, t.kv, s.payments[q]) && Compatible(w, s.payments[q])
    ensures Separated(c, t)
  {
    forall q, r | q in t.payments && r in t.payments && q != r ensures Compatible(t.payments[q], t.payments[r]) {
      assert q != p && r != p ==> Compatible(s.payments[q], s.payments[r]);
    }
  }

  /** Replacing one payment by one that is no more granted or cleared. */
  lemma GentleChange(c: Config, s: State, t: State, p: nat, w: Payment)
    requires Separated(c, s) && p in s.payments && t.payments == s.payments[p := w] && t.kv == s.kv && t.now == s.now
    requires FpOk(c, t.now, t.kv, w) && w.req.txn == s.payments[p].req.txn
    requires (Granted(w) ==> Granted(s.payments[p])) && (Cleared(w.req) ==> Cleared(s.payments[p].req))
    ensures Separated(c, t)
  {
    forall q | q in s.payments && q != p ensures Compatible(w, s.payments[q]) {
      assert Compatible(s.payments[p], s.payments[q]);
    }
    OneChanged(c, s, t, p, w);
  }

  lemma FailSeparates(c: Config, s: State, p: nat, timedOut: bool)
    requires Protects(c) && Inv(c, s) && AllFenced(c, s) && Separated(c, s) && p in s.payments && MayFail(c, s.payments[p])
    ensures Separated(c, DoFail(c, s, p, timedOut))
  {
    var v := s.payments[p];
    assert PaymentOk(c, v) && FpOk(c, s.now, s.kv, v);
    FailingFpOk(c, s.now, s.kv, v, timedOut);
    GentleChange(c, s, DoFail(c, s, p, timedOut), p, v.(req := Failing(v.req, timedOut)));
  }

  lemma FailingFpOk(c: Config, now: int, kv: Kv, v: Payment, timedOut: bool)
    requires c.env.completes && PaymentOk(c, v) && FpOk(c, now, kv, v) && MayFail(c, v)
    ensures FpOk(c, now, kv, v.(req := Failing(v.req, timedOut)))
    ensures Failing(v.req, timedOut).txn == v.req.txn && !Cleared(Failing(v.req, timedOut))
  {
  }

  lemma DeliverSeparates(c: Config, s: State, p: nat, how: Behaviour, reference: nat)
    requires Separated(c, s) && p in s.payments && s.payments[p].flying.Some?
    ensures Separated(c, DoDeliver(s, p, how, reference))
  {
    var v := s.payments[p];
    var (charge, answer) := Assess(s.consumed, v.flying.value.body, Some(v.flying.value.token), how, s.now, reference);
    DeliveredFpOk(c, s.now, s.kv, v, charge, answer);
    GentleChange(c, s, DoDeliver(s, p, how, reference), p, Delivered(v, charge, answer));
  }

  lemma DeliveredFpOk(c: Config, now: int, kv: Kv, v: Payment, charge: Option<Charge>, answer: Answer)
    requires FpOk(c, now, kv, v)
    ensures var w := Delivered(v, charge, answer);
            FpOk(c, now, kv, w) && w.row == v.row && w.req.txn == v.req.txn && (Cleared(w.req) <==> Cleared(v.req))
  {
  }

  /** No sweep expires a payment whose section still matters. */
  lemma SweepMoveSeparates(c: Config, s: State, id: nat, p: nat, to: PaymentState, ref: Option<nat>, next: Sweep)
    requires TokenOutlasts(c) && AllFenced(c, s) && Separated(c, s) && (to == Expired ==> RanOut(s, p))
    ensures Separated(c, SweepMove(s, id, p, to, ref, next))
  {
    if HasRow(s, p) && CanMove(RowOf(s, p).state, to) {
      var v := s.payments[p];
      assert FenceOk(c, s.now, s.kv, v) && FpOk(c, s.now, s.kv, v);
      GentleChange(c, s, SweepMove(s, id, p, to, ref, next), p, v.(row := Some(Moved(v.row.value, to, ref))));
    }
  }

  lemma TickSeparates(c: Config, s: State, dt: nat)
    requires Separated(c, s)
    ensures Separated(c, Do(c, s, Tick(dt)))
  {
    var t := Do(c, s, Tick(dt));
    forall p | p in t.payments ensures FpOk(c, t.now, t.kv, t.payments[p]) {
      LaterFpOk(c, s.now, t.now, s.kv, s.payments[p]);
    }
  }

  lemma LaterFpOk(c: Config, now: int, later: int, kv: Kv, v: Payment)
    requires FpOk(c, now, kv, v) && now <= later
    ensures FpOk(c, later, kv, v)
  {
  }

  lemma ArriveSeparates(c: Config, s: State, p: nat, order: Order, execute: bool)
    requires Separated(c, s)
    ensures Separated(c, DoArrive(c, s, p, order, execute))
  {
    var t := DoArrive(c, s, p, order, execute);
    if t != s {
      NewcomerFpOk(c, s, p, order, execute);
      forall q | q in t.payments ensures FpOk(c, t.now, t.kv, t.payments[q]) {
        assert q != p ==> t.payments[q] == s.payments[q];
      }
      forall q, r | q in t.payments && r in t.payments && q != r ensures Compatible(t.payments[q], t.payments[r]) {
        assert q != p && r != p ==> Compatible(s.payments[q], s.payments[r]);
      }
    }
  }

  lemma NewcomerFpOk(c: Config, s: State, p: nat, order: Order, execute: bool)
    requires c.env.plainAmounts ==> order.rendering == 0
    ensures var v := Payment(NewRequest(c, p, order, execute, s.now), None, 0, None, None);
            FpOk(c, s.now, s.kv, v) && !Granted(v) && !Cleared(v.req)
  {
  }

  lemma StepSeparates(c: Config, s: State, step: Step)
    requires Protects(c) && Inv(c, s) && AllFenced(c, s) && Separated(c, s)
    ensures Separated(c, Do(c, s, step))
  {
    match step
    case Tick(dt) => TickSeparates(c, s, dt);
    case Arrive(p, order, execute) => ArriveSeparates(c, s, p, order, execute);
    case Advance(p, o) => if p in s.payments { AdvanceSeparates(c, s, p, o); }
    case Fail(p, timedOut) => if p in s.payments && MayFail(c, s.payments[p]) { FailSeparates(c, s, p, timedOut); }
    case Deliver(p, how, reference) =>
      if p in s.payments && s.payments[p].flying.Some? { DeliverSeparates(c, s, p, how, reference); }
    case Resolve(id) =>
      if id in s.sweeps && s.sweeps[id].Settling? {
        assert SweepOk(c, s, s.sweeps[id]);
        var w := s.sweeps[id];
        SweepMoveSeparates(c, s, id, w.pa, w.to, w.ref, Reconciling(w.rest));
      }
    case Expire(id, p) =>
      if id in s.sweeps && s.sweeps[id].Expiring? && p in s.sweeps[id].pending {
        assert SweepOk(c, s, s.sweeps[id]);
        SweepMoveSeparates(c, s, id, p, Expired, None, Expiring(s.sweeps[id].pending - {p}));
      }
    case _ => assert Do(c, s, step).payments == s.payments && Do(c, s, step).kv == s.kv && Do(c, s, step).now == s.now;
  }

  lemma {:induction false} RunSeparates(c: Config, s: State, steps: seq<Step>)
    requires Protects(c) && Inv(c, s) && AllFenced(c, s) && Separated(c, s)
    ensures Separated(c, Run(c, s, steps))
    decreases |steps|
  {
    if steps != [] {
      StepInv(c, s, steps[0]);
      StepFenced(c, s, steps[0]);
      StepSeparates(c, s, steps[0]);
      RunSeparates(c, Do(c, s, steps[0]), steps[1..]);
    }
  }

  lemma ReachableSeparated(c: Config, s: State)
    requires Protects(c) && Reachable(c, s)
    ensures Inv(c, s) && Separated(c, s)
  {
    var now, steps :| s == Run(c, Init(now), steps);
    RunInv(c, Init(now), steps);
    RunSeparates(c, Init(now), steps);
  }

  lemma ReachableStore(c: Config, s: State)
    requires Reachable(c, s)
    ensures Inv(c, s) && StoreOk(c, s)
  {
    var now, steps :| s == Run(c, Init(now), steps);
    RunInv(c, Init(now), steps);
    RunStoreOk(c, Init(now), steps);
  }

  // ---------------------------------------------------------------- how a rival slips in

  const RIVAL := CART.(key := 9)
  const REWRITTEN := RIVAL.(rendering := 1)

  /** Payment 0 is granted; payment 1, under another key, is about to start and will find every
      lock and every record it looks at free. */
  ghost predicate Ripe(c: Config, s: State, order: Order) {
    && Reachable(c, s) && s.payments.Keys == {0, 1}
    && Granted(s.payments[0]) && s.payments[0].row.value.txn == s.payments[0].req.txn
    && s.payments[0].req.txn == FirstTxn(c)
    && s.payments[1].row.None? && s.payments[1].req.pc == WaitIdem && !s.payments[1].req.conflict
    && s.payments[1].req.txn.pa == 1 && s.payments[1].req.txn.order == order && order.key != CART.key
    && forall k | BelongsTo(k, s.payments[1].req.txn) :: !Alive(s.kv, k, s.now)
  }

  ghost predicate PastChecks(c: Config, s: State, t: State) {
    && Reachable(c, t) && t.payments.Keys == {0, 1} && 0 in s.payments && 1 in s.payments
    && t.payments[0] == s.payments[0] && t.payments[1].req.txn == s.payments[1].req.txn
    && t.payments[1].row.None? && t.payments[1].req.pc == Decide && !t.payments[1].req.conflict
  }

  ghost predicate InsideUnchecked(c: Config, s: State, t: State) {
    && Reachable(c, t) && t.now == s.now && t.payments.Keys == {0, 1} && 0 in s.payments && 1 in s.payments
    && t.payments[0] == s.payments[0] && t.payments[1].req.txn == s.payments[1].req.txn
    && t.payments[1].row.None? && t.payments[1].req.pc == CheckIdem && !t.payments[1].req.conflict
    && (forall k | BelongsTo(k, t.payments[1].req.txn) && !IsLock(k) :: !Alive(t.kv, k, t.now))
  }

  lemma RivalEnters(c: Config, s: State, order: Order) returns (t: State)
    requires Ripe(c, s, order)
    ensures InsideUnchecked(c, s, t)
  {
    var txn := s.payments[1].req.txn;
    assert BelongsTo(FpLockOf(txn), txn) && !Alive(s.kv, FpLockOf(txn), s.now);
    var s1 := RivalTakesKey(c, s, order);
    t := Do(c, s1, Advance(1, GO));
    ReachableStep(c, s1, Advance(1, GO));
  }

  lemma RivalTakesKey(c: Config, s: State, order: Order) returns (t: State)
    requires Ripe(c, s, order)
    ensures Reachable(c, t) && t.now == s.now && t.payments.Keys == {0, 1}
    ensures t.payments[0] == s.payments[0] && t.payments[1].req.txn == s.payments[1].req.txn
    ensures t.payments[1].row.None? && t.payments[1].req.pc == WaitFp && !t.payments[1].req.conflict
    ensures forall k | k != IdemLockOf(s.payments[1].req.txn) :: Alive(t.kv, k, t.now) == Alive(s.kv, k, s.now)
  {
    var txn := s.payments[1].req.txn;
    assert BelongsTo(IdemLockOf(txn), txn) && !Alive(s.kv, IdemLockOf(txn), s.now);
    t := Do(c, s, Advance(1, GO));
    ReachableStep(c, s, Advance(1, GO));
  }

  lemma RivalPasses(c: Config, s: State, order: Order) returns (t: State)
    requires Ripe(c, s, order)
    ensures PastChecks(c, s, t)
  {
    var s1 := RivalEnters(c, s, order);
    var k, l := IdemKeyOf(s1.payments[1].req.txn), SlotKeyOf(s1.payments[1].req.txn);
    assert !Alive(s1.kv, k, s1.now) && !Alive(s1.kv, l, s1.now);
    var s2 := Do(c, s1, Advance(1, GO));
    ReachableStep(c, s1, Advance(1, GO));
    t := Do(c, s2, Advance(1, GO));
    ReachableStep(c, s2, Advance(1, GO));
  }

  ghost predicate BothGranted(c: Config, s: State, fp: Fingerprint) {
    && Reachable(c, s) && 0 in s.payments && 1 in s.payments && Granted(s.payments[0]) && Granted(s.payments[1])
    && s.payments[0].req.txn == FirstTxn(c) && s.payments[1].req.txn.fp == fp
  }

  lemma RivalSlipsIn(c: Config, s: State, order: Order) returns (t: State)
    requires Ripe(c, s, order)
    ensures BothGranted(c, t, s.payments[1].req.txn.fp)
  {
    var s1 := RivalPasses(c, s, order);
    var s2 := Do(c, s1, Advance(1, GO));
    ReachableStep(c, s1, Advance(1, GO));
    assert !KeyTaken(s2, s2.payments[1].req.txn);
    t := Do(c, s2, Advance(1, GO));
    ReachableStep(c, s2, Advance(1, GO));
  }

  /** A section raises after the grant: locks are given back, no slot was reserved. */
  lemma ExceptionLetsRivalIn(c: Config) returns (t: State)
    requires !c.env.completes
    ensures BothGranted(c, t, FirstTxn(c).fp)
  {
    var s := GrantedAndGone(c);
    var s1 := Do(c, s, Arrive(1, RIVAL, true));
    ReachableStep(c, s, Arrive(1, RIVAL, true));
    t := RivalSlipsIn(c, s1, RIVAL);
  }

  lemma GrantedAndGone(c: Config) returns (s: State)
    requires !c.env.completes
    ensures Reachable(c, s) && s.now == 0 && s.payments.Keys == {0} && Granted(s.payments[0])
    ensures s.payments[0].req.txn == FirstTxn(c) && s.payments[0].row.value.txn == FirstTxn(c)
    ensures forall k | k in s.kv :: k == IdemLockOf(FirstTxn(c))
  {
    var s0 := ToMinting(c);
    ReachableInv(c, s0);
    assert PaymentOk(c, s0.payments[0]);
    var s1 := Do(c, s0, Fail(0, false));
    ReachableStep(c, s0, Fail(0, false));
    s := Do(c, s1, Advance(0, GO));
    ReachableStep(c, s1, Advance(0, GO));
  }

  /** The section outlives its lease while rivals of the same bucket are still being checked. */
  lemma SlowSectionLetsRivalIn(c: Config) returns (t: State)
    requires !FpLockHolds(c)
    ensures BothGranted(c, t, FirstTxn(c).fp)
  {
    var s := LockRunsOut(c);
    t := RivalSlipsIn(c, s, RIVAL);
  }

  lemma LockRunsOut(c: Config) returns (u: State)
    requires !FpLockHolds(c)
    ensures Ripe(c, u, RIVAL) && u.payments[1].req.txn.fp == FirstTxn(c).fp
    ensures u.payments[0].req.pc == Minting && u.now == c.fpLockTtl + 1
  {
    var s := ToMinting(c);
    ReachableStore(c, s);
    assert LeasesOk(c, 0, s.payments[0].req);
    u := RivalWaits(c, s, c.fpLockTtl + 1);
    assert RowOf(u, 0).txn == FirstTxn(c) by {
      ReachableInv(c, u);
      assert PaymentOk(c, u.payments[0]);
    }
    forall k | BelongsTo(k, u.payments[1].req.txn) ensures !Alive(u.kv, k, u.now) {
      assert k in s.kv ==> EntryOk(c, 0, k, s.kv[k]);
    }
  }

  /** Payment 0 sits in its section, granted; its leases allow it to sit there so late. */
  ghost predicate Sitting(c: Config, s: State, late: int) {
    && Reachable(c, s) && s.now == 0 && s.payments.Keys == {0} && s.payments[0].req.txn == FirstTxn(c)
    && Granted(s.payments[0]) && InSection(s.payments[0].req.pc) && !Unchecked(s.payments[0].req.pc)
    && (c.env.fpLeaseLasts ==> late <= s.payments[0].req.fpLease)
    && (c.env.idemLeaseLasts ==> late <= s.payments[0].req.idemLease)
  }

  ghost predicate Waiting(c: Config, s: State, u: State, at: int) {
    && Reachable(c, u) && u.now == at && u.kv == s.kv && u.payments.Keys == {0, 1} && 0 in s.payments
    && u.sweeps == s.sweeps && u.payments[0] == s.payments[0]
    && u.payments[1].row.None? && u.payments[1].req.pc == WaitIdem && !u.payments[1].req.conflict
    && u.payments[1].req.txn.pa == 1 && u.payments[1].req.txn.order == RIVAL
    && u.payments[1].req.txn.fp == FirstTxn(c).fp
  }

  /** A rival arrives as late in the bucket as it can, and waits. */
  lemma RivalWaits(c: Config, s: State, late: int) returns (u: State)
    requires Sitting(c, s, late) && 0 < late < 2 * c.window - 1
    ensures Waiting(c, s, u, late)
  {
    var start := if late < c.window then late else c.window - 1;
    var s1 := Do(c, s, Tick(start));
    ReachableStep(c, s, Tick(start));
    assert s1 == s.(now := start);
    var s2 := Do(c, s1, Arrive(1, RIVAL, true));
    ReachableStep(c, s1, Arrive(1, RIVAL, true));
    ZeroBucket(start, c.window);
    u := WaitsOn(c, s, s2, late);
  }

  lemma WaitsOn(c: Config, s: State, u: State, late: int) returns (t: State)
    requires Sitting(c, s, late) && Waiting(c, s, u, u.now) && u.now <= late
    requires late < u.payments[1].req.txn.arrived + c.window
    ensures Waiting(c, s, t, late)
  {
    t := Do(c, u, Tick(late - u.now));
    ReachableStep(c, u, Tick(late - u.now));
    assert t == u.(now := late);
  }

  lemma ZeroBucket(at: int, window: nat)
    requires 0 <= at < window
    ensures at / window == 0 / window == 0
  {
  }

  /** The token runs out inside the section: an expiry sweep ends the payment, the next transition
      raises, and the locks are given back without a slot. */
  lemma ExpiryLetsRivalIn(c: Config) returns (t: State)
    requires !TokenOutlasts(c)
    ensures BothGranted(c, t, FirstTxn(c).fp)
  {
    var s := ToAuthorized(c);
    var u := RivalWaits(c, s, c.tokenTtl + 1);
    var v := IsExpired(c, s, u);
    var w := LosesItsSection(c, v);
    t := RivalSlipsIn(c, w, RIVAL);
  }

  /** Only payment 0's own locks are in the store. */
  ghost predicate BareLocks(c: Config, kv: Kv) {
    forall k | k in kv :: (k == IdemLockOf(FirstTxn(c)) || k == FpLockOf(FirstTxn(c))) && kv[k].value == Holder(0)
  }

  lemma ToAuthorized(c: Config) returns (s: State)
    requires !TokenOutlasts(c)
    ensures Sitting(c, s, c.tokenTtl + 1) && BareLocks(c, s.kv) && s.sweeps == map[]
    ensures s.payments[0].req.pc == Auditing(Created, Authorized) && s.payments[0].req.execute
    ensures s.payments[0].row.value.state == Authorized && s.payments[0].row.value.uses == 0
    ensures s.payments[0].row.value.expires == Some(c.tokenTtl) && s.payments[0].row.value.txn == FirstTxn(c)
  {
    var s0 := ToMinted(c);
    s := Do(c, s0, Advance(0, GO));
    ReachableStep(c, s0, Advance(0, GO));
  }

  lemma ToMinted(c: Config) returns (s: State)
    requires !TokenOutlasts(c)
    ensures Sitting(c, s, c.tokenTtl + 1) && BareLocks(c, s.kv) && s.sweeps == map[]
    ensures s.payments[0].req.pc == Moving(Authorized, None) && s.payments[0].req.execute
    ensures s.payments[0].row.value.state == Created && s.payments[0].row.value.uses == 0
    ensures s.payments[0].row.value.expires == Some(c.tokenTtl) && s.payments[0].row.value.txn == FirstTxn(c)
  {
    var s0 := ToMinting(c);
    ReachableStore(c, s0);
    assert LeasesOk(c, 0, s0.payments[0].req) && PaymentOk(c, s0.payments[0]);
    s := Do(c, s0, Advance(0, GO));
    ReachableStep(c, s0, Advance(0, GO));
  }

  ghost predicate RivalStillWaits(c: Config, s: State) {
    && Reachable(c, s) && s.payments.Keys == {0, 1} && BareLocks(c, s.kv)
    && s.payments[0].req.txn == FirstTxn(c) && Granted(s.payments[0]) && s.payments[0].row.value.txn == FirstTxn(c)
    && s.payments[1].row.None? && s.payments[1].req.pc == WaitIdem && !s.payments[1].req.conflict
    && s.payments[1].req.txn.pa == 1 && s.payments[1].req.txn.order == RIVAL
    && s.payments[1].req.txn.fp == FirstTxn(c).fp
  }

  lemma IsExpired(c: Config, s: State, u: State) returns (t: State)
    requires Waiting(c, s, u, c.tokenTtl + 1) && s.sweeps == map[] && BareLocks(c, s.kv)
    requires Granted(s.payments[0]) && s.payments[0].req.txn == FirstTxn(c) && s.payments[0].row.value.txn == FirstTxn(c)
    requires s.payments[0].req.pc == Auditing(Created, Authorized) && s.payments[0].req.execute
    requires s.payments[0].row.value.state == Authorized && s.payments[0].row.value.uses == 0
    requires s.payments[0].row.value.expires == Some(c.tokenTtl)
    ensures RivalStillWaits(c, t) && t.payments[0].req == s.payments[0].req
    ensures t.payments[0].row.value.state == Expired && t.payments[0].row.value.uses == 0
  {
    var s1 := Do(c, u, StartExpiry(0));
    ReachableStep(c, u, StartExpiry(0));
    assert 0 in StaleRows(u);
    t := Do(c, s1, Expire(0, 0));
    ReachableStep(c, s1, Expire(0, 0));
  }

  lemma ToRaising(c: Config, s: State) returns (t: State)
    requires RivalStillWaits(c, s) && s.payments[0].req.pc == Auditing(Created, Authorized) && s.payments[0].req.execute
    requires s.payments[0].row.value.state == Expired && s.payments[0].row.value.uses == 0
    ensures RivalStillWaits(c, t) && t.payments[0].req.pc == Moving(Submitted, None)
    ensures t.payments[0].row.value.state == Expired
  {
    var s1 := Do(c, s, Advance(0, GO));
    ReachableStep(c, s, Advance(0, GO));
    t := Do(c, s1, Advance(0, GO));
    ReachableStep(c, s1, Advance(0, GO));
  }

  lemma Raises(c: Config, s: State) returns (t: State)
    requires RivalStillWaits(c, s) && s.payments[0].req.pc == Moving(Submitted, None)
    requires s.payments[0].row.value.state == Expired
    ensures RivalStillWaits(c, t) && t.payments[0].req.pc == LeaveFp
  {
    t := Do(c, s, Advance(0, GO));
    ReachableStep(c, s, Advance(0, GO));
  }

  lemma GivesLockBack(c: Config, s: State) returns (t: State)
    requires RivalStillWaits(c, s) && s.payments[0].req.pc == LeaveFp
    ensures RivalStillWaits(c, t) && !Alive(t.kv, FpLockOf(FirstTxn(c)), t.now)
  {
    t := Do(c, s, Advance(0, GO));
    ReachableStep(c, s, Advance(0, GO));
  }

  lemma LosesItsSection(c: Config, s: State) returns (t: State)
    requires RivalStillWaits(c, s) && s.payments[0].req.pc == Auditing(Created, Authorized) && s.payments[0].req.execute
    requires s.payments[0].row.value.state == Expired && s.payments[0].row.value.uses == 0
    ensures Ripe(c, t, RIVAL) && t.payments[1].req.txn.fp == FirstTxn(c).fp
  {
    t := ToRaising(c, s);
    t := Raises(c, t);
    t := GivesLockBack(c, t);
    forall k | BelongsTo(k, t.payments[1].req.txn) ensures !Alive(t.kv, k, t.now) {
      assert k in t.kv ==> k == FpLockOf(FirstTxn(c));
    }
  }

  lemma ToRemembering(c: Config) returns (s: State)
    ensures Reachable(c, s) && s.now == 0 && s.payments.Keys == {0} && s.payments[0].req.pc == Remember
    ensures s.payments[0].req.txn == FirstTxn(c) && Granted(s.payments[0]) && s.payments[0].req.decision == Allow
    ensures s.payments[0].row.value.txn == FirstTxn(c)
  {
    var s0 := SomeRunConfirms(c);
    ReachableInv(c, s0);
    assert PaymentOk(c, s0.payments[0]);
    var s1 := Do(c, s0, Advance(0, GO));
    ReachableStep(c, s0, Advance(0, GO));
    s := Do(c, s1, Advance(0, GO));
    ReachableStep(c, s1, Advance(0, GO));
  }

  lemma ToLeaving(c: Config) returns (s: State)
    ensures Reachable(c, s) && s.now == 0 && s.payments.Keys == {0} && s.payments[0].req.pc == LeaveFp
    ensures s.payments[0].req.txn == FirstTxn(c) && Granted(s.payments[0])
    ensures s.payments[0].row.value.txn == FirstTxn(c)
  {
    var s0 := ToRemembering(c);
    var s1 := Do(c, s0, Advance(0, GO));
    ReachableStep(c, s0, Advance(0, GO));
    s := Do(c, s1, Advance(0, GO));
    ReachableStep(c, s1, Advance(0, GO));
  }

  /** A rival of the same bucket waits so long for its locks that the slot has run out. */
  lemma LateCheckLetsRivalIn(c: Config) returns (t: State)
    requires !c.env.checkedInWindow
    ensures BothGranted(c, t, FirstTxn(c).fp)
  {
    var s := ToLeaving(c);
    ReachableStore(c, s);
    var late := 2 * c.window + c.lockTtl + c.fpLockTtl + 1;
    var s1 := Do(c, s, Arrive(1, RIVAL, true));
    ReachableStep(c, s, Arrive(1, RIVAL, true));
    var s2 := Do(c, s1, Tick(late));
    ReachableStep(c, s1, Tick(late));
    assert s2.now == late && s2.kv == s.kv;
    forall k | BelongsTo(k, s2.payments[1].req.txn) ensures !Alive(s2.kv, k, s2.now) {
      assert k in s.kv ==> EntryOk(c, 0, k, s.kv[k]) && HasOwner(s, k);
    }
    t := RivalSlipsIn(c, s2, RIVAL);
  }

  /** The same money written differently takes another lock and another slot. */
  lemma RewrittenAmountLetsRivalIn(c: Config) returns (t: State)
    requires !c.env.plainAmounts
    ensures BothGranted(c, t, FirstTxn(c).fp.(rendering := 1))
  {
    var s := ToMinting(c);
    ReachableInv(c, s);
    assert PaymentOk(c, s.payments[0]);
    var s1 := Do(c, s, Arrive(1, REWRITTEN, true));
    ReachableStep(c, s, Arrive(1, REWRITTEN, true));
    t := RivalSlipsIn(c, s1, REWRITTEN);
  }

  // ---------------------------------------------------------------- exactly when

  /** In every reachable state at most one request is inside the section of a fingerprint that can
      still be checked. */
  ghost predicate SectionsExclude(c: Config) {
    forall s, p, q | Reachable(c, s) && p in s.payments && q in s.payments
                     && InSection(s.payments[p].req.pc) && InSection(s.payments[q].req.pc)
                     && s.payments[p].req.txn.fp == s.payments[q].req.txn.fp
                     && s.now < Deadline(c, s.payments[p].req.txn.fp) :: p == q
  }

  /** The second lock keeps sections apart exactly when it holds; exceptions, late checks and expired
      tokens make no difference. */
  lemma SectionsExcludeIff(c: Config)
    ensures SectionsExclude(c) <==> FpLockHolds(c)
  {
    if FpLockHolds(c) {
      forall s, p, q | Reachable(c, s) && p in s.payments && q in s.payments
                       && InSection(s.payments[p].req.pc) && InSection(s.payments[q].req.pc)
                       && s.payments[p].req.txn.fp == s.payments[q].req.txn.fp
                       && s.now < Deadline(c, s.payments[p].req.txn.fp)
        ensures p == q
      {
        OneSectionPerFingerprint(c, s, p, q);
      }
    } else {
      var s := LockRunsOut(c);
      var t := RivalEnters(c, s, RIVAL);
      ZeroBucket(0, c.window);
      assert FirstTxn(c).fp.bucket == 0;
      assert InSection(t.payments[0].req.pc) && InSection(t.payments[1].req.pc);
    }
  }

  /** The same user asks to pay the same merchant the same amount for the same cart in the same window. */
  predicate SamePurchase(c: Config, a: Txn, b: Txn) {
    && a.order.user == b.order.user && a.order.merchant == b.order.merchant && a.order.cart == b.order.cart
    && a.order.amount == b.order.amount && a.order.currency == b.order.currency
    && a.arrived / c.window == b.arrived / c.window
  }

  ghost predicate BothAllowed(c: Config, s: State, p: nat, q: nat) {
    Reachable(c, s) && p in s.payments && q in s.payments && Granted(s.payments[p]) && Granted(s.payments[q])
  }

  lemma FingerprintTells(c: Config, s: State, p: nat, q: nat)
    requires Reachable(c, s) && p in s.payments && q in s.payments
    ensures var a, b := s.payments[p].req.txn, s.payments[q].req.txn;
            && (a.fp == b.fp <==> SamePurchase(c, a, b) && a.order.rendering == b.order.rendering)
            && (a.fp.(rendering := 0) == b.fp.(rendering := 0) <==> SamePurchase(c, a, b))
            && a.fp.rendering == a.order.rendering
  {
    ReachableRecords(c, s);
    var a, b := s.payments[p].req.txn, s.payments[q].req.txn;
    assert FoundOk(c, s, s.payments[p]) && FoundOk(c, s, s.payments[q]);
    SameFingerprintIff(a.order, a.arrived, b.order, b.arrived, c.window);
  }

  ghost predicate GrantsAreUnique(c: Config) {
    forall s, p, q | BothAllowed(c, s, p, q) && SamePurchase(c, s.payments[p].req.txn, s.payments[q].req.txn)
                     && s.payments[p].req.txn.order.rendering == s.payments[q].req.txn.order.rendering :: p == q
  }

  lemma FingerprintIsGrantedOnce(c: Config, s: State, p: nat, q: nat)
    requires Protects(c) && BothAllowed(c, s, p, q) && s.payments[p].req.txn.fp == s.payments[q].req.txn.fp
    ensures p == q
  {
    ReachableSeparated(c, s);
    assert p != q ==> Compatible(s.payments[p], s.payments[q]);
  }

  /** No two requests for the same purchase, the amount written alike, are ever both allowed, whatever
      their idempotency keys, exactly when granted sections complete, checks come in time, and the
      lock and the token last. */
  lemma GrantsUniqueIff(c: Config)
    ensures GrantsAreUnique(c) <==> Protects(c)
  {
    if Protects(c) {
      forall s, p, q | BothAllowed(c, s, p, q) && SamePurchase(c, s.payments[p].req.txn, s.payments[q].req.txn)
                       && s.payments[p].req.txn.order.rendering == s.payments[q].req.txn.order.rendering
        ensures p == q
      {
        FingerprintTells(c, s, p, q);
        FingerprintIsGrantedOnce(c, s, p, q);
      }
    } else {
      var s := RivalGetsIn(c);
      FingerprintTells(c, s, 0, 1);
      assert BothAllowed(c, s, 0, 1);
    }
  }

  lemma RivalGetsIn(c: Config) returns (s: State)
    requires !Protects(c)
    ensures BothGranted(c, s, FirstTxn(c).fp)
  {
    if !c.env.completes {
      s := ExceptionLetsRivalIn(c);
    } else if !c.env.checkedInWindow {
      s := LateCheckLetsRivalIn(c);
    } else if !FpLockHolds(c) {
      s := SlowSectionLetsRivalIn(c);
    } else {
      s := ExpiryLetsRivalIn(c);
    }
  }

  ghost predicate PaymentsAreUnique(c: Config) {
    forall s, p, q | BothAllowed(c, s, p, q) && SamePurchase(c, s.payments[p].req.txn, s.payments[q].req.txn) :: p == q
  }

  /** And no two requests for the same purchase at all, however the amount is written, exactly when on
      top of that amounts are written in one way only. */
  lemma PaymentsUniqueIff(c: Config)
    ensures PaymentsAreUnique(c) <==> Protects(c) && c.env.plainAmounts
  {
    if Protects(c) && c.env.plainAmounts {
      forall s, p, q | BothAllowed(c, s, p, q) && SamePurchase(c, s.payments[p].req.txn, s.payments[q].req.txn)
        ensures p == q
      {
        ReachableSeparated(c, s);
        assert FpOk(c, s.now, s.kv, s.payments[p]) && FpOk(c, s.now, s.kv, s.payments[q]);
        FingerprintTells(c, s, p, q);
        FingerprintTells(c, s, q, p);
        FingerprintIsGrantedOnce(c, s, p, q);
      }
    } else {
      var s;
      if Protects(c) {
        s := RewrittenAmountLetsRivalIn(c);
      } else {
        s := RivalGetsIn(c);
      }
      FingerprintTells(c, s, 0, 1);
      assert BothAllowed(c, s, 0, 1);
      assert SamePurchase(c, s.payments[0].req.txn, s.payments[1].req.txn);
    }
  }

  /** With the shipped lease times (10 and 15 seconds), token lifetime and window (300 each) either
      lease will do. */
  lemma ShippedProtects(env: Environment)
    ensures Protects(Shipped(env)) <==> env.completes && env.checkedInWindow && (env.fpLeaseLasts || env.idemLeaseLasts)
  {
  }
}
