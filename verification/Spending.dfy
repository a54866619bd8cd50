/** Spend-to-date, as the policy sees it, and its relation to what the provider charged. */
module Spending {
  import opened Options
  import opened Lifecycle
  import opened Canonical
  import opened Provider
  import opened Protocol
  import opened Invariant
  import opened Safety
  import opened Charging
  import opened Sums

  /** The row belongs to the user and was created inside the window the sum looks at. */
  predicate InWindow(s: State, p: nat, user: nat, since: int) {
    HasRow(s, p) && RowOf(s, p).txn.order.user == user && RowOf(s, p).created >= since
  }

  function Counted(s: State, user: nat, since: int): nat -> int {
    (p: nat) => if InWindow(s, p, user, since) && Settled(RowOf(s, p).state) then RowOf(s, p).txn.order.amount else 0
  }

  ghost function Spend(s: State, user: nat, since: int): int {
    Sum(s.payments.Keys, Counted(s, user, since))
  }

  function ChargedAmount(s: State, user: nat, since: int): nat -> int {
    (p: nat) =>
      if HasRow(s, p) && RowOf(s, p).txn.order.user == user && RowOf(s, p).created >= since && IsPaid(s.payments[p].charge)
      then s.payments[p].charge.value.amount else 0
  }

  ghost function ChargedTotal(s: State, user: nat, since: int): int {
    Sum(s.payments.Keys, ChargedAmount(s, user, since))
  }

  /** The payment a step is about; a step about none names 0 and changes no row. */
  function Subject(s: State, step: Step): nat {
    match step
    case Arrive(p, _, _) => p
    case Advance(p, _) => p
    case Fail(p, _) => p
    case Deliver(p, _, _) => p
    case Resolve(id) => if id in s.sweeps && s.sweeps[id].Settling? then s.sweeps[id].pa else 0
    case Expire(_, p) => p
    case _ => 0
  }

  lemma OthersUntouched(c: Config, s: State, step: Step)
    requires PaymentsOk(c, s)
    ensures var t := Do(c, s, step);
            forall q | q != Subject(s, step) && q in t.payments :: q in s.payments && t.payments[q] == s.payments[q]
  {
    if step.Advance? && step.pa in s.payments {
      assert s.payments[step.pa].req.txn.pa == step.pa;
    }
  }

  function StateOf(s: State, p: nat): PaymentState {
    if HasRow(s, p) then RowOf(s, p).state else Created
  }

  /** How the spend of a user moves when the payment p goes from its state in s to that in t. */
  function Movement(s: State, t: State, p: nat, user: nat, since: int): int {
    if !HasRow(t, p) || RowOf(t, p).txn.order.user != user || RowOf(t, p).created < since then 0
    else
      var amount: int := RowOf(t, p).txn.order.amount;
      if StateOf(s, p) == Created && StateOf(t, p) == Authorized then amount
      else if Settled(StateOf(s, p)) && (StateOf(t, p) == Failed || StateOf(t, p) == Expired) then -amount
      else 0
  }

  /** The sum rises by the amount exactly when a payment becomes AUTHORIZED, falls by it exactly
      when a settled payment becomes FAILED or EXPIRED, and no other step moves it. */
  lemma SpendIsConserved(c: Config, s: State, step: Step, user: nat, since: int)
    requires Reachable(c, s)
    ensures var t := Do(c, s, step);
            Spend(t, user, since) - Spend(s, user, since) == Movement(s, t, Subject(s, step), user, since)
  {
    ReachableInv(c, s);
    if Subject(s, step) in s.payments {
      StepPayments(c, s, step);
      OthersUntouched(c, s, step);
      OneMoves(c, s, Do(c, s, step), Subject(s, step), user, since);
    } else {
      NewSubject(c, s, step, user, since);
    }
  }

  /** Nobody else's payment and no older one moves it. */
  lemma OthersDoNotCount(c: Config, s: State, step: Step, user: nat, since: int)
    requires Reachable(c, s)
    requires var t, p := Do(c, s, step), Subject(s, step);
             HasRow(t, p) ==> RowOf(t, p).txn.order.user != user || RowOf(t, p).created < since
    ensures Spend(Do(c, s, step), user, since) == Spend(s, user, since)
  {
    SpendIsConserved(c, s, step, user, since);
  }

  /** Who has nothing outstanding or settled inside the window has spent nothing. */
  lemma NothingSettledNothingSpent(s: State, user: nat, since: int)
    requires forall p | HasRow(s, p) && RowOf(s, p).txn.order.user == user && RowOf(s, p).created >= since ::
               RowOf(s, p).state == Created || RowOf(s, p).state == Failed || RowOf(s, p).state == Expired
    ensures Spend(s, user, since) == 0
  {
    SumZero(s.payments.Keys);
    SumAgree(s.payments.Keys, Counted(s, user, since), q => 0);
  }

  lemma OneMoves(c: Config, s: State, t: State, p: nat, user: nat, since: int)
    requires Evolved(c, s, t) && p in s.payments
    requires forall q | q != p && q in t.payments :: q in s.payments && t.payments[q] == s.payments[q]
    ensures Spend(t, user, since) - Spend(s, user, since) == Movement(s, t, p, user, since)
  {
    assert p in t.payments && Evolves(s.payments[p], t.payments[p]);
    assert t.payments.Keys == s.payments.Keys;
    Moves(s, t, p, user, since);
    SumChange(t.payments.Keys, Counted(s, user, since), Counted(t, user, since), p);
  }

  lemma Moves(s: State, t: State, p: nat, user: nat, since: int)
    requires p in s.payments && p in t.payments && Evolves(s.payments[p], t.payments[p])
    ensures Counted(t, user, since)(p) - Counted(s, user, since)(p) == Movement(s, t, p, user, since)
  {
  }

  /** A payment nobody has seen yet enters without a row. */
  lemma NewcomerHasNoRow(c: Config, s: State, step: Step)
    requires Inv(c, s) && Subject(s, step) !in s.payments
    ensures var t := Do(c, s, step);
            t.payments == s.payments
            || (step.Arrive? && t.payments.Keys == s.payments.Keys + {step.pa} && !HasRow(t, step.pa)
                && forall q | q in s.payments :: t.payments[q] == s.payments[q])
  {
    match step
    case Arrive(p, order, execute) =>
    case Resolve(id) => assert id in s.sweeps && s.sweeps[id].Settling? ==> !HasRow(s, s.sweeps[id].pa);
    case Expire(id, p) => assert !HasRow(s, p);
    case _ => assert Do(c, s, step).payments == s.payments;
  }

  lemma NewSubject(c: Config, s: State, step: Step, user: nat, since: int)
    requires Inv(c, s) && Subject(s, step) !in s.payments
    ensures var t := Do(c, s, step);
            Spend(t, user, since) == Spend(s, user, since) && Movement(s, t, Subject(s, step), user, since) == 0
  {
    var t, p := Do(c, s, step), Subject(s, step);
    NewcomerHasNoRow(c, s, step);
    if t.payments == s.payments {
      SumAgree(s.payments.Keys, Counted(s, user, since), Counted(t, user, since));
    } else {
      RowlessAddsNothing(s, t, p, user, since);
    }
  }

  lemma RowlessAddsNothing(s: State, t: State, p: nat, user: nat, since: int)
    requires p !in s.payments && t.payments.Keys == s.payments.Keys + {p} && !HasRow(t, p)
    requires forall q | q in s.payments :: t.payments[q] == s.payments[q]
    ensures Spend(t, user, since) == Spend(s, user, since)
  {
    assert t.payments.Keys - {p} == s.payments.Keys;
    SumTake(t.payments.Keys, Counted(t, user, since), p);
    SumAgree(s.payments.Keys, Counted(s, user, since), Counted(t, user, since));
  }

  ghost predicate SpendCovers(c: Config) {
    forall s, user, since | Reachable(c, s) :: Spend(s, user, since) >= ChargedTotal(s, user, since)
  }

  /** The policy never sees less than what was really charged, for any user and window, exactly
      when no POST is delivered after the client gave up on it. */
  lemma SpendCoversIff(c: Config)
    ensures SpendCovers(c) <==> !c.lateDelivery
  {
    if c.lateDelivery {
      var s := LateChargeIsNotCovered(c);
      assert Spend(s, CART.user, 0) < ChargedTotal(s, CART.user, 0);
    } else {
      forall s, user, since | Reachable(c, s) ensures Spend(s, user, since) >= ChargedTotal(s, user, since) {
        SpendCoversCharges(c, s, user, since);
      }
    }
  }

  lemma LateChargeIsNotCovered(c: Config) returns (s: State)
    requires c.lateDelivery
    ensures Reachable(c, s) && Spend(s, CART.user, 0) < ChargedTotal(s, CART.user, 0)
  {
    s := LateDeliveryDisagrees(c);
    SumOfOne(0, Counted(s, CART.user, 0));
    SumOfOne(0, ChargedAmount(s, CART.user, 0));
    assert Counted(s, CART.user, 0)(0) == 0;
    assert ChargedAmount(s, CART.user, 0)(0) == CART.amount;
  }

  lemma SpendCoversCharges(c: Config, s: State, user: nat, since: int)
    requires Reachable(c, s) && !c.lateDelivery
    ensures Spend(s, user, since) >= ChargedTotal(s, user, since)
  {
    ReachableInv(c, s);
    forall p | p in s.payments.Keys ensures ChargedAmount(s, user, since)(p) <= Counted(s, user, since)(p) {
      assert PaymentOk(c, s.payments[p]);
    }
    SumBelow(s.payments.Keys, ChargedAmount(s, user, since), Counted(s, user, since));
  }
}
