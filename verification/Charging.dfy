/** The two promises about money leaving: nobody is POSTed twice for one key, and gateway and
    provider never disagree for good. Both are about every reachable state. */
module Charging {
  import opened Options
  import opened Lifecycle
  import opened Canonical
  import opened Provider
  import opened TimedStore
  import opened Protocol
  import opened Invariant
  import opened Safety
  import opened Sums

  ghost predicate Reachable(c: Config, s: State) {
    exists now, steps :: s == Run(c, Init(now), steps)
  }

  lemma ReachableInv(c: Config, s: State)
    requires Reachable(c, s)
    ensures Inv(c, s)
  {
    var now, steps :| s == Run(c, Init(now), steps);
    RunInv(c, Init(now), steps);
  }

  // ---------------------------------------------------------------- at most one POST

  function PostsFor(s: State, user: nat, key: nat): nat -> int {
    p => if p in s.payments && s.payments[p].req.txn.order.user == user
            && s.payments[p].req.txn.order.key == key then s.payments[p].posts else 0
  }

  /** However many requests, retries and sweeps interleave, whatever fails in between, and even
      if lock leases run out: the POSTs ever made for one user and idempotency key number at
      most one. */
  lemma AtMostOnePost(c: Config, s: State, user: nat, key: nat)
    requires Reachable(c, s)
    ensures 0 <= Sum(s.payments.Keys, PostsFor(s, user, key)) <= 1
  {
    ReachableInv(c, s);
    forall p | p in s.payments.Keys ensures 0 <= PostsFor(s, user, key)(p) <= 1 {
      assert PaymentOk(c, s.payments[p]);
    }
    forall p, q | p in s.payments.Keys && q in s.payments.Keys
                  && PostsFor(s, user, key)(p) == 1 && PostsFor(s, user, key)(q) == 1
      ensures p == q
    {
      assert PaymentOk(c, s.payments[p]) && PaymentOk(c, s.payments[q]);
      assert Claims(s, p) && Claims(s, q);
    }
    SumAtMostOne(s.payments.Keys, PostsFor(s, user, key));
  }

  /** What the unique index also does: once a payment of some key waits for human approval, no
      later request under that key is ever authorized. The approved retry needs a new key. */
  lemma ParkedKeyIsSpent(c: Config, s: State, steps: seq<Step>, parked: nat, q: nat)
    requires Reachable(c, s)
    requires HasRow(s, parked) && RowOf(s, parked).decision == RequireApproval
    requires var t := Run(c, s, steps);
             q != parked && HasRow(t, q) && SameKey(RowOf(t, q).txn, RowOf(s, parked).txn)
    ensures var t := Run(c, s, steps);
            RowOf(t, q).decision == Block && t.payments[q].posts == 0
  {
    ReachableInv(c, s);
    RunInv(c, s, steps);
    RunEvolves(c, s, steps, parked);
    var t := Run(c, s, steps);
    assert PaymentOk(c, t.payments[q]);
    assert Claims(t, parked);
  }

  /** A row, once inserted, keeps its transaction and its decision along every run. */
  ghost predicate RowKept(s: State, t: State, p: nat)
    requires HasRow(s, p)
  {
    && HasRow(t, p)
    && RowOf(t, p).txn == RowOf(s, p).txn
    && RowOf(t, p).decision == RowOf(s, p).decision
    && Rank(RowOf(t, p).state) <= Rank(RowOf(s, p).state)
  }

  lemma StepKeepsRow(c: Config, s: State, step: Step, p: nat)
    requires Inv(c, s) && HasRow(s, p)
    ensures RowKept(s, Do(c, s, step), p)
  {
    StepPayments(c, s, step);
    var t := Do(c, s, step);
    assert p in t.payments && Evolves(s.payments[p], t.payments[p]);
    EvolvingKeepsRow(s.payments[p], t.payments[p]);
  }

  lemma EvolvingKeepsRow(v: Payment, w: Payment)
    requires Evolves(v, w) && v.row.Some?
    ensures w.row.Some? && w.row.value.txn == v.row.value.txn && w.row.value.decision == v.row.value.decision
    ensures Rank(w.row.value.state) <= Rank(v.row.value.state)
  {
  }

  lemma {:induction false} RunEvolves(c: Config, s: State, steps: seq<Step>, p: nat)
    requires Inv(c, s) && HasRow(s, p)
    ensures RowKept(s, Run(c, s, steps), p)
    decreases |steps|
  {
    if steps != [] {
      StepInv(c, s, steps[0]);
      StepKeepsRow(c, s, steps[0], p);
      RunEvolves(c, Do(c, s, steps[0]), steps[1..], p);
    }
  }

  // ---------------------------------------------------------------- what is asked for, what is paid

  /** What is sent to the provider, the token that authorizes it, and what is charged in the end are all
      for exactly what was ordered. */
  lemma MoneyMatchesTheOrder(c: Config, s: State, p: nat)
    requires Reachable(c, s) && p in s.payments
    ensures var v, order := s.payments[p], s.payments[p].req.txn.order;
            && (v.req.token.Some? ==>
                  var token := v.req.token.value;
                  && token.pa == p && token.merchant == order.merchant && token.amount == order.amount
                  && token.currency == order.currency && token.cart == order.cart
                  && HasRow(s, p) && RowOf(s, p).jti == Some(token.jti) && RowOf(s, p).expires == Some(token.expires))
            && (v.flying.Some? ==>
                  var body := v.flying.value.body;
                  && v.req.token == Some(v.flying.value.token)
                  && body.pa == p && body.key == order.key && body.merchant == order.merchant && body.amount == order.amount
                  && body.currency == order.currency && body.cart == order.cart)
            && (IsPaid(v.charge) ==>
                  && v.charge.value.amount == order.amount && v.charge.value.currency == order.currency
                  && v.charge.value.merchant == order.merchant)
            && (HasRow(s, p) ==> RowOf(s, p).txn == v.req.txn && RowOf(s, p).uses <= 1 && v.posts <= RowOf(s, p).uses)
  {
    ReachableInv(c, s);
    assert PaymentOk(c, s.payments[p]) && s.payments[p].req.txn.pa == p;
  }

  // ---------------------------------------------------------------- agreement

  predicate AgreesWithProvider(v: Payment) {
    if v.row.Some? then Agrees(v.row.value.state, v.charge) else v.charge.None?
  }

  ghost predicate AlwaysAgrees(c: Config) {
    forall s, p | Reachable(c, s) && p in s.payments :: AgreesWithProvider(s.payments[p])
  }

  /** What was charged is always still counted as outstanding or settled. */
  ghost predicate NeverWrittenOff(c: Config) {
    forall s, p | Reachable(c, s) && HasRow(s, p) :: NotWrittenOff(RowOf(s, p).state, s.payments[p].charge)
  }

  /** What is called a success was charged. */
  ghost predicate NeverInvented(c: Config) {
    forall s, p | Reachable(c, s) && HasRow(s, p) :: NotInvented(RowOf(s, p).state, s.payments[p].charge)
  }

  // Two runs show that neither assumption about the network can be dropped.

  const GO := Oracle(true, Allow, 1)
  const GIVE_UP := Oracle(false, Allow, 1)
  const CART := Order(1, 2, 3, 4, 5, 6, 0, 7)

  lemma {:induction false} RunJoins(c: Config, s: State, a: seq<Step>, b: seq<Step>)
    ensures Run(c, s, a + b) == Run(c, Run(c, s, a), b)
    decreases |a|
  {
    if a == [] {
      assert a + b == b;
    } else {
      assert (a + b)[1..] == a[1..] + b;
      RunJoins(c, Do(c, s, a[0]), a[1..], b);
    }
  }

  lemma RunThen(c: Config, s: State, steps: seq<Step>, step: Step)
    ensures Run(c, s, steps + [step]) == Do(c, Run(c, s, steps), step)
  {
    RunJoins(c, s, steps, [step]);
    var t := Run(c, s, steps);
    assert [step][1..] == [];
    assert Run(c, t, [step]) == Run(c, Do(c, t, step), []);
  }

  lemma ReachableStep(c: Config, s: State, step: Step)
    requires Reachable(c, s)
    ensures Reachable(c, Do(c, s, step))
  {
    var now, steps :| s == Run(c, Init(now), steps);
    RunJoins(c, Init(now), steps, [step]);
    assert Run(c, s, [step]) == Run(c, Do(c, s, step), []);
  }

  function FirstTxn(c: Config): Txn {
    Txn(0, CART, FingerprintOf(CART, 0, c.window), 0)
  }

  /** Payment 0 is alone in the system and has come this far. */
  ghost predicate Alone(c: Config, s: State, pc: Pc) {
    && Reachable(c, s) && s.now == 0 && s.sweeps == map[] && s.consumed == {}
    && s.payments.Keys == {0} && s.payments[0].req.pc == pc
    && s.payments[0].req.txn == FirstTxn(c) && s.payments[0].req.execute && !s.payments[0].req.conflict
    && !s.payments[0].req.failed && s.payments[0].charge.None?
  }

  /** The store holds nothing but the two locks payment 0 took. */
  ghost predicate OwnLocksOnly(c: Config, s: State)
    requires 0 in s.payments
  {
    var t := s.payments[0].req.txn;
    forall k | k in s.kv :: (k == IdemLockOf(t) || k == FpLockOf(t)) && s.kv[k].value == Holder(0) && Live(s.kv[k], 0)
  }

  lemma ToChecks(c: Config) returns (s: State)
    ensures Alone(c, s, CheckIdem) && s.payments[0].row.None?
    ensures OwnLocksOnly(c, s)
  {
    assert Init(0) == Run(c, Init(0), []);
    s := Do(c, Init(0), Arrive(0, CART, true));
    ReachableStep(c, Init(0), Arrive(0, CART, true));
    var s1 := Do(c, s, Advance(0, GO));
    ReachableStep(c, s, Advance(0, GO));
    s := Do(c, s1, Advance(0, GO));
    ReachableStep(c, s1, Advance(0, GO));
  }

  lemma ToDecide(c: Config) returns (s: State)
    ensures Alone(c, s, Decide) && s.payments[0].row.None? && OwnLocksOnly(c, s)
  {
    var s0 := ToChecks(c);
    var s1 := Do(c, s0, Advance(0, GO));
    ReachableStep(c, s0, Advance(0, GO));
    s := Do(c, s1, Advance(0, GO));
    ReachableStep(c, s1, Advance(0, GO));
  }

  lemma ToMinting(c: Config) returns (s: State)
    ensures Alone(c, s, Minting) && OwnLocksOnly(c, s) && s.payments[0].req.decision == Allow
    ensures s.payments[0].row.Some? && RowOf(s, 0).decision == Allow
    ensures s.payments[0].row.Some? && RowOf(s, 0).state == Created && RowOf(s, 0).created == 0
  {
    var s0 := ToDecide(c);
    var s1 := Do(c, s0, Advance(0, GO));
    ReachableStep(c, s0, Advance(0, GO));
    s := Do(c, s1, Advance(0, GO));
    ReachableStep(c, s1, Advance(0, GO));
  }

  ghost predicate TokenFits(c: Config, s: State)
    requires 0 in s.payments
  {
    var r := s.payments[0].req;
    r.token.Some? && r.token.value.expires == c.tokenTtl && Matches(r.token.value, PostOf(r.txn, r.token.value).body)
  }

  lemma ToAuthorizing(c: Config) returns (s: State)
    ensures Alone(c, s, Moving(Authorized, None)) && TokenFits(c, s)
    ensures s.payments[0].row.Some? && RowOf(s, 0).state == Created && RowOf(s, 0).created == 0
  {
    var s0 := ToMinting(c);
    s := Do(c, s0, Advance(0, GO));
    ReachableStep(c, s0, Advance(0, GO));
  }

  lemma ToConsuming(c: Config) returns (s: State)
    ensures Alone(c, s, Consuming) && TokenFits(c, s)
    ensures s.payments[0].row.Some? && RowOf(s, 0).state == Authorized && RowOf(s, 0).created == 0
  {
    var s0 := ToAuthorizing(c);
    var s1 := Do(c, s0, Advance(0, GO));
    ReachableStep(c, s0, Advance(0, GO));
    s := Do(c, s1, Advance(0, GO));
    ReachableStep(c, s1, Advance(0, GO));
  }

  lemma ToSubmitting(c: Config) returns (s: State)
    ensures Alone(c, s, Moving(Submitted, None)) && TokenFits(c, s)
    ensures s.payments[0].row.Some? && RowOf(s, 0).state == Authorized && RowOf(s, 0).created == 0
  {
    var s0 := ToConsuming(c);
    ReachableInv(c, s0);
    assert PaymentOk(c, s0.payments[0]);
    s := Do(c, s0, Advance(0, GO));
    ReachableStep(c, s0, Advance(0, GO));
  }

  lemma ToPosting(c: Config) returns (s: State)
    ensures Alone(c, s, Posting) && TokenFits(c, s)
    ensures s.payments[0].row.Some? && RowOf(s, 0).state == Submitted && RowOf(s, 0).created == 0
  {
    var s0 := ToSubmitting(c);
    var s1 := Do(c, s0, Advance(0, GO));
    ReachableStep(c, s0, Advance(0, GO));
    s := Do(c, s1, Advance(0, GO));
    ReachableStep(c, s1, Advance(0, GO));
  }

  ghost predicate PostFits(c: Config, v: Payment) {
    v.flying.Some? && v.flying.value.token.expires == c.tokenTtl && Matches(v.flying.value.token, v.flying.value.body)
  }

  lemma ToAwaiting(c: Config) returns (s: State)
    ensures Alone(c, s, Awaiting(None)) && PostFits(c, s.payments[0])
    ensures s.payments[0].row.Some? && RowOf(s, 0).state == Submitted && RowOf(s, 0).created == 0
  {
    var s0 := ToPosting(c);
    s := Do(c, s0, Advance(0, GO));
    ReachableStep(c, s0, Advance(0, GO));
  }

  /** The good case is there too: under any settings some run ends CONFIRMED, and charged. */
  lemma SomeRunConfirms(c: Config) returns (s: State)
    ensures Reachable(c, s) && HasRow(s, 0) && RowOf(s, 0).state == Confirmed
    ensures ChargeOf(s, 0) == Some(Charged(9, CART.amount, CART.currency, CART.merchant))
    ensures s.now == 0 && s.payments.Keys == {0} && s.payments[0].req.txn == FirstTxn(c)
    ensures s.payments[0].req.pc == Auditing(Submitted, Confirmed) && !s.payments[0].req.conflict && !s.payments[0].req.failed
  {
    var s0 := ToCharged(c);
    var s1 := Do(c, s0, Advance(0, GO));
    ReachableStep(c, s0, Advance(0, GO));
    s := Do(c, s1, Advance(0, GO));
    ReachableStep(c, s1, Advance(0, GO));
  }

  lemma ToCharged(c: Config) returns (s: State)
    ensures Reachable(c, s) && HasRow(s, 0) && RowOf(s, 0).state == Submitted
    ensures ChargeOf(s, 0) == Some(Charged(9, CART.amount, CART.currency, CART.merchant))
    ensures s.now == 0 && s.payments.Keys == {0} && s.payments[0].req.txn == FirstTxn(c) && s.sweeps == map[]
    ensures s.payments[0].req.pc == Awaiting(Some(AnsweredConfirmed(9))) && !s.payments[0].req.conflict && !s.payments[0].req.failed
  {
    var s0 := ToAwaiting(c);
    ReachableInv(c, s0);
    assert PaymentOk(c, s0.payments[0]);
    s := Do(c, s0, Deliver(0, Success, 9));
    ReachableStep(c, s0, Deliver(0, Success, 9));
  }

  /** A provider that hangs for less than the client's patience says confirmed and has
      recorded nothing: CONFIRMED without a charge. */
  lemma ShortHangDisagrees(c: Config) returns (s: State)
    requires c.shortHang
    ensures Reachable(c, s) && 0 in s.payments && !AgreesWithProvider(s.payments[0])
    ensures HasRow(s, 0) && RowOf(s, 0).state == Confirmed && ChargeOf(s, 0) == None
    ensures s.payments[0].req.pc == Auditing(Submitted, Confirmed)
  {
    var s0 := ToSoothed(c);
    var s1 := Do(c, s0, Advance(0, GO));
    ReachableStep(c, s0, Advance(0, GO));
    s := Do(c, s1, Advance(0, GO));
    ReachableStep(c, s1, Advance(0, GO));
  }

  lemma ToSoothed(c: Config) returns (s: State)
    requires c.shortHang
    ensures Alone(c, s, Awaiting(Some(ConfirmedAfterHang(9))))
    ensures s.payments[0].row.Some? && RowOf(s, 0).state == Submitted
  {
    var s0 := ToAwaiting(c);
    s := Do(c, s0, Deliver(0, Hang, 9));
    ReachableStep(c, s0, Deliver(0, Hang, 9));
  }

  ghost predicate Adrift(c: Config, s: State, pc: Pc, state: PaymentState) {
    && Alone(c, s, pc) && PostFits(c, s.payments[0])
    && s.payments[0].row.Some? && RowOf(s, 0).state == state && RowOf(s, 0).created == 0
  }

  lemma ToTimeout(c: Config) returns (s: State)
    requires c.lateDelivery
    ensures Adrift(c, s, Auditing(Submitted, Timeout), Timeout)
  {
    var s0 := ToAwaiting(c);
    var s1 := Do(c, s0, Advance(0, GIVE_UP));
    ReachableStep(c, s0, Advance(0, GIVE_UP));
    s := Do(c, s1, Advance(0, GO));
    ReachableStep(c, s1, Advance(0, GO));
  }

  lemma ToUnknown(c: Config) returns (s: State)
    requires c.lateDelivery
    ensures Adrift(c, s, Auditing(Timeout, Unknown), Unknown)
  {
    var s0 := ToTimeout(c);
    var s1 := Do(c, s0, Advance(0, GO));
    ReachableStep(c, s0, Advance(0, GO));
    s := Do(c, s1, Advance(0, GO));
    ReachableStep(c, s1, Advance(0, GO));
  }

  lemma ToGivenUp(c: Config) returns (s: State)
    requires c.lateDelivery
    ensures Reachable(c, s) && s.now == 0 && s.consumed == {} && s.payments.Keys == {0}
    ensures s.payments[0].row.Some? && RowOf(s, 0).state == Failed && RowOf(s, 0).created == 0
    ensures s.payments[0].charge.None? && PostFits(c, s.payments[0]) && s.payments[0].req.txn.order == CART
  {
    var s0 := ToUnknown(c);
    var s1 := Do(c, s0, StartReconcile(0));
    ReachableStep(c, s0, StartReconcile(0));
    assert 0 in UnknownRows(c, s0);
    var s2 := Do(c, s1, Query(0, 0, true));
    ReachableStep(c, s1, Query(0, 0, true));
    s := Do(c, s2, Resolve(0));
    ReachableStep(c, s2, Resolve(0));
  }

  /** A POST that arrives after reconciliation asked: FAILED, and charged all the same. */
  lemma LateDeliveryDisagrees(c: Config) returns (s: State)
    requires c.lateDelivery
    ensures Reachable(c, s) && s.payments.Keys == {0} && !AgreesWithProvider(s.payments[0])
    ensures HasRow(s, 0) && RowOf(s, 0).state == Failed && RowOf(s, 0).created == 0 && RowOf(s, 0).txn.order == CART
    ensures IsPaid(ChargeOf(s, 0)) && ChargeOf(s, 0).value.amount == CART.amount
  {
    var s0 := ToGivenUp(c);
    ReachableInv(c, s0);
    assert PaymentOk(c, s0.payments[0]);
    s := Do(c, s0, Deliver(0, Success, 9));
    ReachableStep(c, s0, Deliver(0, Success, 9));
  }

  /** A charged payment is never written off, exactly when no POST is delivered after the client
      gave up on it; hanging providers make no difference. */
  lemma NeverWrittenOffIff(c: Config)
    ensures NeverWrittenOff(c) <==> !c.lateDelivery
  {
    if c.lateDelivery {
      var s := LateDeliveryDisagrees(c);
    } else {
      forall s, p | Reachable(c, s) && HasRow(s, p) ensures NotWrittenOff(RowOf(s, p).state, s.payments[p].charge) {
        ReachableInv(c, s);
        assert PaymentOk(c, s.payments[p]);
      }
    }
  }

  /** CONFIRMED always means charged, exactly when no hanging provider answers before the client
      gives up; late deliveries make no difference. */
  lemma NeverInventedIff(c: Config)
    ensures NeverInvented(c) <==> !c.shortHang
  {
    if c.shortHang {
      var s := ShortHangDisagrees(c);
    } else {
      forall s, p | Reachable(c, s) && HasRow(s, p) ensures NotInvented(RowOf(s, p).state, s.payments[p].charge) {
        ReachableInv(c, s);
        assert PaymentOk(c, s.payments[p]);
      }
    }
  }

  /** Gateway and provider agree in every reachable state exactly when both hold. */
  lemma AgreementIffOrderly(c: Config)
    ensures AlwaysAgrees(c) <==> Orderly(c)
  {
    NeverWrittenOffIff(c);
    NeverInventedIff(c);
    if Orderly(c) {
      forall s, p | Reachable(c, s) && p in s.payments ensures AgreesWithProvider(s.payments[p]) {
        ReachableInv(c, s);
        assert PaymentOk(c, s.payments[p]);
        if HasRow(s, p) {
          assert NotWrittenOff(RowOf(s, p).state, s.payments[p].charge) && NotInvented(RowOf(s, p).state, s.payments[p].charge);
        }
      }
    } else if c.shortHang {
      var s := ShortHangDisagrees(c);
    } else {
      var s := LateDeliveryDisagrees(c);
    }
  }
}
