/** What a client may conclude from being told that another request is in flight: nothing, unless
    granted sections complete. */
module Refusals {
  import opened Options
  import opened Lifecycle
  import opened Canonical
  import opened Provider
  import opened Protocol
  import opened Invariant
  import opened Safety
  import opened Charging
  import opened Stranded

  /** A refused request is on its way out and has sent nothing. */
  predicate Unsubmitted(v: Payment) {
    v.req.reply.message == InFlight ==> Over(v.req.pc) && v.posts == 0
  }

  ghost predicate AllUnsubmitted(s: State) {
    forall p | p in s.payments :: Unsubmitted(s.payments[p])
  }

  lemma EarlyUnsubmitted(c: Config, s: State, v: Payment, o: Oracle)
    requires PaymentOk(c, v) && Unsubmitted(v) && IsEarly(v.req.pc)
    ensures Unsubmitted(Next(c, s, v, o).pay)
  {
  }

  lemma WritingUnsubmitted(c: Config, s: State, v: Payment, o: Oracle)
    requires Unsubmitted(v) && WritesRow(v.req.pc)
    ensures Unsubmitted(Next(c, s, v, o).pay)
  {
  }

  lemma LateUnsubmitted(c: Config, s: State, v: Payment, o: Oracle)
    requires Unsubmitted(v) && !IsEarly(v.req.pc) && !WritesRow(v.req.pc)
    ensures Unsubmitted(Next(c, s, v, o).pay)
  {
  }

  lemma FailUnsubmitted(c: Config, v: Payment, timedOut: bool)
    requires c.env.completes && PaymentOk(c, v) && Unsubmitted(v) && MayFail(c, v)
    ensures Unsubmitted(v.(req := Failing(v.req, timedOut)))
  {
  }

  lemma ReplacedUnsubmitted(s: State, t: State, p: nat, w: Payment)
    requires AllUnsubmitted(s) && t.payments == s.payments[p := w] && Unsubmitted(w)
    ensures AllUnsubmitted(t)
  {
  }

  lemma AdvanceUnsubmitted(c: Config, s: State, p: nat, o: Oracle)
    requires Inv(c, s) && AllUnsubmitted(s)
    ensures AllUnsubmitted(DoAdvance(c, s, p, o))
  {
    if p in s.payments {
      var v := s.payments[p];
      if IsEarly(v.req.pc) {
        EarlyUnsubmitted(c, s, v, o);
      } else if WritesRow(v.req.pc) {
        WritingUnsubmitted(c, s, v, o);
      } else {
        LateUnsubmitted(c, s, v, o);
      }
      ReplacedUnsubmitted(s, DoAdvance(c, s, p, o), p, Next(c, s, v, o).pay);
    }
  }

  lemma SweepUnsubmitted(c: Config, s: State, step: Step)
    requires AllUnsubmitted(s) && !step.Advance? && !step.Fail? && !step.Deliver? && !step.Arrive?
    ensures AllUnsubmitted(Do(c, s, step))
  {
    var t := Do(c, s, step);
    assert forall p | p in t.payments ::
      p in s.payments && t.payments[p].req == s.payments[p].req && t.payments[p].posts == s.payments[p].posts;
  }

  lemma StepUnsubmitted(c: Config, s: State, step: Step)
    requires c.env.completes && Inv(c, s) && AllUnsubmitted(s)
    ensures AllUnsubmitted(Do(c, s, step))
  {
    var t := Do(c, s, step);
    match step
    case Advance(p, o) => AdvanceUnsubmitted(c, s, p, o);
    case Arrive(p, _, _) => if t != s { ReplacedUnsubmitted(s, t, p, t.payments[p]); }
    case Deliver(p, _, _) => if t != s { ReplacedUnsubmitted(s, t, p, t.payments[p]); }
    case Fail(p, timedOut) =>
      if p in s.payments && MayFail(c, s.payments[p]) {
        FailUnsubmitted(c, s.payments[p], timedOut);
        ReplacedUnsubmitted(s, t, p, s.payments[p].(req := Failing(s.payments[p].req, timedOut)));
      }
    case _ => SweepUnsubmitted(c, s, step);
  }

  lemma {:induction false} RunUnsubmitted(c: Config, s: State, steps: seq<Step>)
    requires c.env.completes && Inv(c, s) && AllUnsubmitted(s)
    ensures AllUnsubmitted(Run(c, s, steps))
    decreases |steps|
  {
    if steps != [] {
      StepInv(c, s, steps[0]);
      StepUnsubmitted(c, s, steps[0]);
      RunUnsubmitted(c, Do(c, s, steps[0]), steps[1..]);
    }
  }

  /** The append of the last event cannot take the audit log's lock in time: the client is told BLOCK,
      another authorization is in flight, and the payment is CONFIRMED and charged. */
  lemma RefusedThoughCharged(c: Config) returns (s: State)
    requires !c.env.completes
    ensures Reachable(c, s) && HasRow(s, 0) && RowOf(s, 0).state == Confirmed && IsPaid(ChargeOf(s, 0))
    ensures var r := s.payments[0].req; Over(r.pc) && !r.failed && r.reply.decision == Block && r.reply.message == InFlight
    ensures s.payments[0].posts == 1
  {
    var s0 := SomeRunConfirms(c);
    ReachableInv(c, s0);
    assert PaymentOk(c, s0.payments[0]);
    s := Do(c, s0, Fail(0, true));
    ReachableStep(c, s0, Fail(0, true));
  }

  ghost predicate RefusedMeansUnsent(c: Config) {
    forall s, p | Reachable(c, s) && p in s.payments && s.payments[p].req.reply.message == InFlight ::
      s.payments[p].posts == 0
  }

  /** No request answered as in flight was ever POSTed, exactly when no exception ends a section that
      has authorized a payment. */
  lemma RefusedMeansUnsentIff(c: Config)
    ensures RefusedMeansUnsent(c) <==> c.env.completes
  {
    if c.env.completes {
      forall s, p | Reachable(c, s) && p in s.payments && s.payments[p].req.reply.message == InFlight
        ensures s.payments[p].posts == 0
      {
        var now, steps :| s == Run(c, Init(now), steps);
        RunUnsubmitted(c, Init(now), steps);
        assert Unsubmitted(s.payments[p]);
      }
    } else {
      var s := RefusedThoughCharged(c);
    }
  }
}
