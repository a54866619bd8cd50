/** What holds in every reachable state of the payment protocol, whatever interleaving led
    there: at most one POST per user and key, and agreement between gateway and provider. */
module Safety {
  import opened Options
  import opened Lifecycle
  import opened Canonical
  import opened Provider
  import opened TimedStore
  import opened Protocol
  import opened Invariant

  /** A row some sweep picked up because it was UNKNOWN, whatever happened to it since. */
  predicate Picked(s: State, p: nat) {
    HasRow(s, p) && Asking(RowOf(s, p).state)
  }

  predicate Asking(s: PaymentState) {
    s == Unknown || s == Confirmed || s == Failed
  }

  /** A row some sweep picked up because its token had run out unused. */
  predicate RanOut(s: State, p: nat) {
    && HasRow(s, p) && RowOf(s, p).decision == Allow && RowOf(s, p).state != Created
    && RowOf(s, p).expires.Some? && RowOf(s, p).expires.value < s.now
  }

  predicate SweepOk(c: Config, s: State, w: Sweep) {
    match w
    case Reconciling(ps) => forall p | p in ps :: Picked(s, p) && RowOf(s, p).decision == Allow
    case Settling(p, to, _, rest) =>
      && (forall q | q in rest :: Picked(s, q) && RowOf(s, q).decision == Allow)
      && Picked(s, p) && RowOf(s, p).decision == Allow
      && (to == Failed || to == Confirmed)
      && (to == Confirmed ==> IsPaid(ChargeOf(s, p)))
      && (to == Failed && !c.lateDelivery ==> !IsPaid(ChargeOf(s, p)))
    case Expiring(ps) => forall p | p in ps :: RanOut(s, p)
    case Recording(p, _, _, next) => HasRow(s, p) && RowOf(s, p).decision == Allow && SweepOk(c, s, next)
    case Stopped => true
  }

  /** The unique index holds. */
  ghost predicate UniqueKeys(s: State) {
    forall p, q | Claims(s, p) && Claims(s, q) && SameKey(RowOf(s, p).txn, RowOf(s, q).txn) :: p == q
  }

  predicate PaymentsOk(c: Config, s: State) {
    forall p | p in s.payments :: s.payments[p].req.txn.pa == p && PaymentOk(c, s.payments[p])
  }

  predicate SweepsOk(c: Config, s: State) {
    forall id | id in s.sweeps :: SweepOk(c, s, s.sweeps[id])
  }

  ghost predicate Inv(c: Config, s: State) {
    PaymentsOk(c, s) && SweepsOk(c, s) && UniqueKeys(s)
  }

  // ---------------------------------------------------------------- one step

  /** Every payment of s evolved into the payment of t with the same id, the clock did not go
      back, and a charge a sweep has asked about did not change. */
  predicate Evolved(c: Config, s: State, t: State) {
    && s.now <= t.now
    && forall p | p in s.payments ::
         && p in t.payments && Evolves(s.payments[p], t.payments[p])
         && (Picked(s, p) && !c.lateDelivery ==> t.payments[p].charge == s.payments[p].charge)
  }

  lemma {:induction false} SweepStays(c: Config, s: State, t: State, w: Sweep)
    requires Evolved(c, s, t) && SweepOk(c, s, w)
    ensures SweepOk(c, t, w)
    decreases w
  {
    if w.Recording? {
      SweepStays(c, s, t, w.next);
    }
  }

  /** A step that replaces one payment by one it may evolve into. */
  lemma OnePayment(c: Config, s: State, t: State, p: nat, w: Payment)
    requires PaymentsOk(c, s) && p in s.payments && s.now <= t.now
    requires t.payments == s.payments[p := w]
    requires PaymentOk(c, w) && Evolves(s.payments[p], w)
    requires Picked(s, p) && !c.lateDelivery ==> w.charge == s.payments[p].charge
    ensures PaymentsOk(c, t) && Evolved(c, s, t)
  {
    forall q | q in s.payments
      ensures q in t.payments && PaymentOk(c, t.payments[q]) && t.payments[q].req.txn.pa == q && Evolves(s.payments[q], t.payments[q])
    {
      if q != p {
        assert t.payments[q] == s.payments[q];
      }
    }
  }

  lemma AdvanceStep(c: Config, s: State, p: nat, o: Oracle)
    requires PaymentsOk(c, s) && p in s.payments
    ensures var t := DoAdvance(c, s, p, o); PaymentsOk(c, t) && Evolved(c, s, t)
  {
    var v := s.payments[p];
    NextOk(c, s, v, o);
    if WritesRow(v.req.pc) {
      NextWritesRow(c, s, v, o);
    } else {
      NextKeepsRow(c, s, v, o);
    }
    OnePayment(c, s, DoAdvance(c, s, p, o), p, Next(c, s, v, o).pay);
  }

  lemma FailStep(c: Config, s: State, p: nat, timedOut: bool)
    requires PaymentsOk(c, s) && p in s.payments && MayFail(c, s.payments[p])
    ensures var t := DoFail(c, s, p, timedOut); PaymentsOk(c, t) && Evolved(c, s, t)
  {
    var v := s.payments[p];
    FailingOk(c, v, timedOut);
    OnePayment(c, s, DoFail(c, s, p, timedOut), p, v.(req := Failing(v.req, timedOut)));
  }

  lemma DeliverStep(c: Config, s: State, p: nat, how: Behaviour, reference: nat)
    requires PaymentsOk(c, s) && p in s.payments && s.payments[p].flying.Some?
    ensures var t := DoDeliver(s, p, how, reference); PaymentsOk(c, t) && Evolved(c, s, t)
  {
    var v := s.payments[p];
    DeliveredOk(c, v, s.consumed, how, s.now, reference);
    var (charge, answer) := Assess(s.consumed, v.flying.value.body, Some(v.flying.value.token), how, s.now, reference);
    OnePayment(c, s, DoDeliver(s, p, how, reference), p, Delivered(v, charge, answer));
  }

  /** A sweep may settle an UNKNOWN payment the way the provider answered. */
  lemma SettledOk(c: Config, v: Payment, to: PaymentState, ref: Option<nat>)
    requires PaymentOk(c, v) && v.row.Some? && v.row.value.decision == Allow
    requires CanMove(v.row.value.state, to)
    requires Asking(v.row.value.state) && (to == Confirmed || to == Failed)
    requires to == Confirmed ==> IsPaid(v.charge)
    requires to == Failed && !c.lateDelivery ==> !IsPaid(v.charge)
    ensures PaymentOk(c, v.(row := Some(Moved(v.row.value, to, ref))))
  {
    MovedHistory(v.row.value, to, ref);
  }

  lemma ExpiredOk(c: Config, v: Payment)
    requires PaymentOk(c, v) && v.row.Some? && v.row.value.decision == Allow
    requires CanMove(v.row.value.state, Expired)
    ensures PaymentOk(c, v.(row := Some(Moved(v.row.value, Expired, None))))
  {
    MovedHistory(v.row.value, Expired, None);
  }

  lemma SweepMoveStep(c: Config, s: State, id: nat, p: nat, to: PaymentState, ref: Option<nat>, next: Sweep)
    requires Inv(c, s)
    requires HasRow(s, p) && RowOf(s, p).decision == Allow && CanMove(RowOf(s, p).state, to)
    requires PaymentOk(c, s.payments[p].(row := Some(Moved(RowOf(s, p), to, ref))))
    requires SweepOk(c, s, next)
    ensures var t := SweepMove(s, id, p, to, ref, next);
            PaymentsOk(c, t) && Evolved(c, s, t) && SweepOk(c, t, t.sweeps[id])
  {
    var t := SweepMove(s, id, p, to, ref, next);
    OnePayment(c, s, t, p, s.payments[p].(row := Some(Moved(RowOf(s, p), to, ref))));
    SweepStays(c, s, t, next);
  }

  lemma ResolveStep(c: Config, s: State, id: nat)
    requires Inv(c, s) && id in s.sweeps && s.sweeps[id].Settling?
    ensures var t := DoResolve(s, id);
            PaymentsOk(c, t) && Evolved(c, s, t) && SweepOk(c, t, t.sweeps[id])
  {
    var w := s.sweeps[id];
    if CanMove(RowOf(s, w.pa).state, w.to) {
      SettledOk(c, s.payments[w.pa], w.to, w.ref);
      SweepMoveStep(c, s, id, w.pa, w.to, w.ref, Reconciling(w.rest));
    } else {
      Unmoved(c, s, DoResolve(s, id));
    }
  }

  lemma ExpireStep(c: Config, s: State, id: nat, p: nat)
    requires Inv(c, s) && id in s.sweeps && s.sweeps[id].Expiring? && p in s.sweeps[id].pending
    ensures var t := DoExpire(s, id, p);
            PaymentsOk(c, t) && Evolved(c, s, t) && SweepOk(c, t, t.sweeps[id])
  {
    assert RanOut(s, p);
    if CanMove(RowOf(s, p).state, Expired) {
      ExpiredOk(c, s.payments[p]);
      SweepMoveStep(c, s, id, p, Expired, None, Expiring(s.sweeps[id].pending - {p}));
    } else {
      Unmoved(c, s, DoExpire(s, id, p));
    }
  }

  lemma Unmoved(c: Config, s: State, t: State)
    requires t.payments == s.payments && s.now <= t.now && PaymentsOk(c, s)
    ensures Evolved(c, s, t) && PaymentsOk(c, t)
  {
  }

  lemma StepPayments(c: Config, s: State, step: Step)
    requires Inv(c, s)
    ensures var t := Do(c, s, step); PaymentsOk(c, t) && Evolved(c, s, t)
  {
    var t := Do(c, s, step);
    match step
    case Arrive(p, order, execute) => ArriveStep(c, s, p, order, execute);
    case Advance(p, o) => if p in s.payments { AdvanceStep(c, s, p, o); } else { Unmoved(c, s, t); }
    case Fail(p, timedOut) =>
      if p in s.payments && MayFail(c, s.payments[p]) { FailStep(c, s, p, timedOut); } else { Unmoved(c, s, t); }
    case Deliver(p, how, reference) =>
      if p in s.payments && s.payments[p].flying.Some? { DeliverStep(c, s, p, how, reference); } else { Unmoved(c, s, t); }
    case Resolve(id) =>
      if id in s.sweeps && s.sweeps[id].Settling? { ResolveStep(c, s, id); } else { Unmoved(c, s, t); }
    case Expire(id, p) =>
      if id in s.sweeps && s.sweeps[id].Expiring? && p in s.sweeps[id].pending { ExpireStep(c, s, id, p); } else { Unmoved(c, s, t); }
    case _ => Unmoved(c, s, t);
  }

  lemma ArriveStep(c: Config, s: State, p: nat, order: Order, execute: bool)
    requires PaymentsOk(c, s)
    ensures var t := DoArrive(c, s, p, order, execute); PaymentsOk(c, t) && Evolved(c, s, t)
  {
    var t := DoArrive(c, s, p, order, execute);
    if t != s {
      assert PaymentOk(c, t.payments[p]);
      forall q | q in s.payments ensures q in t.payments && PaymentOk(c, t.payments[q]) && Evolves(s.payments[q], t.payments[q]) {
        assert t.payments[q] == s.payments[q];
      }
    }
  }

  lemma StepSweeps(c: Config, s: State, step: Step)
    requires Inv(c, s)
    ensures SweepsOk(c, Do(c, s, step))
  {
    var t := Do(c, s, step);
    StepPayments(c, s, step);
    forall id | id in t.sweeps ensures SweepOk(c, t, t.sweeps[id]) {
      if id in s.sweeps && t.sweeps[id] == s.sweeps[id] {
        SweepStays(c, s, t, s.sweeps[id]);
      } else {
        ChangedSweepOk(c, s, step, id);
      }
    }
  }

  lemma ChangedSweepOk(c: Config, s: State, step: Step, id: nat)
    requires Inv(c, s)
    requires var t := Do(c, s, step); id in t.sweeps && (id in s.sweeps ==> t.sweeps[id] != s.sweeps[id])
    ensures var t := Do(c, s, step); SweepOk(c, t, t.sweeps[id])
  {
    var t := Do(c, s, step);
    if step.Resolve? {
      ResolveStep(c, s, id);
    } else if step.Expire? {
      ExpireStep(c, s, id, step.pa);
    } else {
      StepPayments(c, s, step);
      match step {
        case StartReconcile(_) => UnknownRowsOk(c, s);
        case StartExpiry(_) => StaleRowsOk(c, s);
        case Query(_, p, _) => AskedOk(c, s, s.sweeps[id].pending, p);
        case SweepAppend(_) => assert SweepOk(c, s, s.sweeps[id]);
        case _ =>
      }
      assert SweepOk(c, s, t.sweeps[id]);
      SweepStays(c, s, t, t.sweeps[id]);
    }
  }

  lemma UnknownRowsOk(c: Config, s: State)
    requires PaymentsOk(c, s)
    ensures SweepOk(c, s, Reconciling(UnknownRows(c, s)))
  {
  }

  lemma StaleRowsOk(c: Config, s: State)
    requires PaymentsOk(c, s)
    ensures SweepOk(c, s, Expiring(StaleRows(s)))
  {
  }

  lemma AskedOk(c: Config, s: State, pending: set<nat>, p: nat)
    requires SweepOk(c, s, Reconciling(pending)) && p in pending
    ensures SweepOk(c, s, Reconciling(pending - {p}))
    ensures SweepOk(c, s, Asked(ChargeOf(s, p), p, pending - {p}))
  {
  }

  /** Which row, if any, a step inserts: none that would break the unique index. */
  lemma StepInserts(c: Config, s: State, step: Step, p: nat)
    requires Inv(c, s) && !HasRow(s, p) && HasRow(Do(c, s, step), p)
    ensures step.Advance? && step.pa == p && p in s.payments
    ensures var row := RowOf(Do(c, s, step), p);
            && row.txn == s.payments[p].req.txn && row.created == s.now && row.uses == 0
            && (row.decision != Block ==> !KeyTaken(s, row.txn))
  {
    if step.Advance? && p in s.payments {
      NextInserts(c, s, s.payments[p], step.oracle);
    }
  }

  /** The insert is refused if and only if the user has already used this key for a payment that was not
      blocked; a blocked attempt is never refused. */
  lemma InsertRefusedIff(c: Config, s: State, p: nat, o: Oracle)
    requires Inv(c, s) && p in s.payments && s.payments[p].req.pc == Insert
    ensures var v := s.payments[p];
            HasRow(DoAdvance(c, s, p, o), p) <==>
            v.req.decision == Block
            || forall q | HasRow(s, q) && RowOf(s, q).decision != Block ::
                 RowOf(s, q).txn.order.user != v.req.txn.order.user || RowOf(s, q).txn.order.key != v.req.txn.order.key
  {
    assert PaymentOk(c, s.payments[p]);
    if KeyTaken(s, s.payments[p].req.txn) {
      var q :| q in s.payments && Claims(s, q) && SameKey(RowOf(s, q).txn, s.payments[p].req.txn);
      assert HasRow(s, q);
    }
  }

  lemma StepUniqueKeys(c: Config, s: State, step: Step)
    requires Inv(c, s)
    ensures UniqueKeys(Do(c, s, step))
  {
    var t := Do(c, s, step);
    StepPayments(c, s, step);
    forall p, q | Claims(t, p) && Claims(t, q) && SameKey(RowOf(t, p).txn, RowOf(t, q).txn)
      ensures p == q
    {
      if !HasRow(s, p) {
        StepInserts(c, s, step, p);
      }
      if !HasRow(s, q) {
        StepInserts(c, s, step, q);
      }
      assert HasRow(s, p) ==> Claims(s, p) && RowOf(t, p).txn == RowOf(s, p).txn;
      assert HasRow(s, q) ==> Claims(s, q) && RowOf(t, q).txn == RowOf(s, q).txn;
    }
  }

  lemma StepInv(c: Config, s: State, step: Step)
    requires Inv(c, s)
    ensures Inv(c, Do(c, s, step)) && Evolved(c, s, Do(c, s, step))
  {
    StepPayments(c, s, step);
    StepSweeps(c, s, step);
    StepUniqueKeys(c, s, step);
  }

  /** Every run keeps the invariant. */
  lemma {:induction false} RunInv(c: Config, s: State, steps: seq<Step>)
    requires Inv(c, s)
    ensures Inv(c, Run(c, s, steps))
    decreases |steps|
  {
    if steps != [] {
      StepInv(c, s, steps[0]);
      RunInv(c, Do(c, s, steps[0]), steps[1..]);
    }
  }
}
