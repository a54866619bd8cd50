/** What becomes of a payment whose request is over: which rows a sweep can still settle, and
    which stay as they are for good. */
module Stranded {
  import opened Options
  import opened Lifecycle
  import opened Canonical
  import opened Provider
  import opened Protocol
  import opened Invariant
  import opened Safety
  import opened Charging
  import opened Spending

  /** The request will not touch its row again. */
  predicate Over(pc: Pc) {
    pc == LeaveFp || pc == LeaveIdem || pc == Done
  }

  /** The payments a sweep still means to deal with. */
  function Wants(w: Sweep): set<nat> {
    match w
    case Reconciling(ps) => ps
    case Settling(p, _, _, rest) => {p} + rest
    case Expiring(ps) => ps
    case Recording(_, _, _, next) => Wants(next)
    case Stopped => {}
  }

  /** Finished, and on no sweep's list. */
  predicate LeftAlone(s: State, p: nat) {
    HasRow(s, p) && Over(s.payments[p].req.pc) && forall id | id in s.sweeps :: p !in Wants(s.sweeps[id])
  }

  /** A sweep starting now would pick this row: UNKNOWN and recent, or AUTHORIZED and run out. */
  predicate WouldBePicked(c: Config, s: State, p: nat)
    requires HasRow(s, p)
  {
    || (RowOf(s, p).state == Unknown && s.now - c.maxAge <= RowOf(s, p).created)
    || (RowOf(s, p).state == Authorized && RowOf(s, p).expires.Some? && RowOf(s, p).expires.value < s.now)
  }

  /** Nobody deals with this row and no sweep starting now would. */
  predicate Idle(c: Config, s: State, p: nat) {
    LeftAlone(s, p) && !WouldBePicked(c, s, p)
  }

  /** Nor would any sweep starting later. */
  predicate Stuck(c: Config, s: State, p: nat) {
    Idle(c, s, p) && RowOf(s, p).state != Authorized
  }

  predicate SameRow(s: State, t: State, p: nat) {
    HasRow(s, p) && HasRow(t, p) && RowOf(t, p) == RowOf(s, p)
  }

  lemma OwnStepLeavesRow(c: Config, s: State, p: nat, o: Oracle)
    requires HasRow(s, p) && Over(s.payments[p].req.pc)
    ensures var t := DoAdvance(c, s, p, o);
            SameRow(s, t, p) && Over(t.payments[p].req.pc) && t.sweeps == s.sweeps && t.now == s.now
  {
  }

  lemma RequestStepLeavesRow(c: Config, s: State, step: Step, p: nat)
    requires PaymentsOk(c, s) && HasRow(s, p) && Over(s.payments[p].req.pc)
    requires step.Advance? || step.Fail? || step.Deliver? || step.Arrive?
    ensures var t := Do(c, s, step);
            SameRow(s, t, p) && Over(t.payments[p].req.pc) && t.sweeps == s.sweeps && t.now == s.now
  {
    if Subject(s, step) != p {
      OthersUntouched(c, s, step);
      RequestsStay(c, s, step);
    } else if step.Advance? {
      OwnStepLeavesRow(c, s, p, step.oracle);
    } else {
      OwnEventLeavesRow(c, s, step, p);
    }
  }

  lemma OwnEventLeavesRow(c: Config, s: State, step: Step, p: nat)
    requires HasRow(s, p) && Over(s.payments[p].req.pc) && Subject(s, step) == p
    requires step.Fail? || step.Deliver? || step.Arrive?
    ensures var t := Do(c, s, step);
            SameRow(s, t, p) && Over(t.payments[p].req.pc) && t.sweeps == s.sweeps && t.now == s.now
  {
  }

  lemma RequestsStay(c: Config, s: State, step: Step)
    requires step.Advance? || step.Fail? || step.Deliver? || step.Arrive?
    ensures var t := Do(c, s, step);
            s.payments.Keys <= t.payments.Keys && t.sweeps == s.sweeps && t.now == s.now
  {
  }

  lemma SweepStepLeavesRow(c: Config, s: State, step: Step, p: nat)
    requires Idle(c, s, p)
    requires step.Query? || step.Resolve? || step.Expire? || step.SweepAppend? || step.SweepFail?
             || step.StartReconcile? || step.StartExpiry?
    ensures SameRow(s, Do(c, s, step), p) && Idle(c, Do(c, s, step), p)
  {
    var t := Do(c, s, step);
    if t != s {
      assert step.id in s.sweeps ==> p !in Wants(s.sweeps[step.id]);
      assert t.payments[p] == s.payments[p] && t.now == s.now;
      forall id | id in t.sweeps ensures p !in Wants(t.sweeps[id]) {
        if id != step.id {
          assert t.sweeps[id] == s.sweeps[id];
        }
      }
    }
  }

  /** An idle row stays as it is, and idle, as long as no time passes; a stuck one in any case. */
  lemma StepLeavesRow(c: Config, s: State, step: Step, p: nat)
    requires Inv(c, s) && Idle(c, s, p)
    ensures SameRow(s, Do(c, s, step), p)
    ensures !step.Tick? ==> Idle(c, Do(c, s, step), p)
    ensures Stuck(c, s, p) ==> Stuck(c, Do(c, s, step), p)
  {
    match step
    case Tick(_) =>
    case Arrive(_, _, _) => RequestStepLeavesRow(c, s, step, p);
    case Advance(_, _) => RequestStepLeavesRow(c, s, step, p);
    case Fail(_, _) => RequestStepLeavesRow(c, s, step, p);
    case Deliver(_, _, _) => RequestStepLeavesRow(c, s, step, p);
    case _ => SweepStepLeavesRow(c, s, step, p);
  }

  lemma {:induction false} RunLeavesRow(c: Config, s: State, steps: seq<Step>, p: nat)
    requires Inv(c, s) && Idle(c, s, p)
    requires Stuck(c, s, p) || forall i | 0 <= i < |steps| :: !steps[i].Tick?
    ensures SameRow(s, Run(c, s, steps), p) && Idle(c, Run(c, s, steps), p)
    decreases |steps|
  {
    if steps != [] {
      StepLeavesRow(c, s, steps[0], p);
      StepInv(c, s, steps[0]);
      RunLeavesRow(c, Do(c, s, steps[0]), steps[1..], p);
    }
  }

  // ---------------------------------------------------------------- what a sweep can do

  lemma {:induction false} UnusedId(ids: set<nat>) returns (n: nat)
    ensures forall id | id in ids :: id < n
    decreases |ids|
  {
    n := 0;
    if ids != {} {
      var id :| id in ids;
      var m := UnusedId(ids - {id});
      n := if m <= id then id + 1 else m;
      forall other | other in ids ensures other < n {
        assert other == id || other in ids - {id};
      }
    }
  }

  /** A reconciliation that has listed an UNKNOWN row can settle it, however old it is by now. */
  lemma ListedSettles(c: Config, s: State, p: nat, id: nat) returns (steps: seq<Step>)
    requires HasRow(s, p) && RowOf(s, p).state == Unknown
    requires id in s.sweeps && s.sweeps[id].Reconciling? && p in s.sweeps[id].pending
    ensures forall i | 0 <= i < |steps| :: !steps[i].Tick?
    ensures var t := Run(c, s, steps);
            HasRow(t, p) && Terminal(RowOf(t, p).state) && RowOf(t, p).state != RowOf(s, p).state
  {
    RunThen(c, s, [], Query(id, p, true));
    RunThen(c, s, [Query(id, p, true)], Resolve(id));
    steps := [Query(id, p, true)] + [Resolve(id)];
    assert [Query(id, p, true)] == [] + [Query(id, p, true)];
  }

  lemma ReconcileSettles(c: Config, s: State, p: nat, id: nat) returns (steps: seq<Step>)
    requires HasRow(s, p) && p in UnknownRows(c, s) && id !in s.sweeps
    ensures forall i | 0 <= i < |steps| :: !steps[i].Tick?
    ensures var t := Run(c, s, steps);
            HasRow(t, p) && Terminal(RowOf(t, p).state) && RowOf(t, p).state != RowOf(s, p).state
  {
    var more := ListedSettles(c, Do(c, s, StartReconcile(id)), p, id);
    steps := [StartReconcile(id)] + more;
    assert steps[1..] == more;
  }

  lemma ExpirySettles(c: Config, s: State, p: nat, id: nat) returns (steps: seq<Step>)
    requires HasRow(s, p) && p in StaleRows(s) && id !in s.sweeps
    ensures forall i | 0 <= i < |steps| :: !steps[i].Tick?
    ensures var t := Run(c, s, steps);
            HasRow(t, p) && Terminal(RowOf(t, p).state) && RowOf(t, p).state != RowOf(s, p).state
  {
    RunThen(c, s, [], StartExpiry(id));
    RunThen(c, s, [StartExpiry(id)], Expire(id, p));
    steps := [StartExpiry(id)] + [Expire(id, p)];
    assert [StartExpiry(id)] == [] + [StartExpiry(id)];
  }

  lemma SweepSettles(c: Config, s: State, p: nat) returns (steps: seq<Step>)
    requires HasRow(s, p) && WouldBePicked(c, s, p)
    ensures forall i | 0 <= i < |steps| :: !steps[i].Tick?
    ensures var t := Run(c, s, steps);
            HasRow(t, p) && Terminal(RowOf(t, p).state) && RowOf(t, p).state != RowOf(s, p).state
  {
    var id := UnusedId(s.sweeps.Keys);
    if RowOf(s, p).state == Unknown {
      steps := ReconcileSettles(c, s, p, id);
    } else {
      steps := ExpirySettles(c, s, p, id);
    }
  }

  ghost predicate CanMoveNow(c: Config, s: State, p: nat)
    requires HasRow(s, p)
  {
    exists steps: seq<Step> ::
      && (forall i | 0 <= i < |steps| :: !steps[i].Tick?)
      && HasRow(Run(c, s, steps), p) && RowOf(Run(c, s, steps), p).state != RowOf(s, p).state
  }

  /** Of the rows of finished requests that no running sweep has listed, exactly those that a sweep
      starting now would pick can change state without time passing, whoever does what. */
  lemma MovesIffPicked(c: Config, s: State, p: nat)
    requires Reachable(c, s) && LeftAlone(s, p)
    ensures CanMoveNow(c, s, p) <==> WouldBePicked(c, s, p)
  {
    ReachableInv(c, s);
    if WouldBePicked(c, s, p) {
      var steps := SweepSettles(c, s, p);
    } else if CanMoveNow(c, s, p) {
      var steps: seq<Step> :|
        && (forall i | 0 <= i < |steps| :: !steps[i].Tick?)
        && HasRow(Run(c, s, steps), p) && RowOf(Run(c, s, steps), p).state != RowOf(s, p).state;
      RunLeavesRow(c, s, steps, p);
    }
  }

  // ---------------------------------------------------------------- out of reach

  /** Finished, and in a state in which no sweep looks or can do anything. */
  predicate OutOfReach(s: State, p: nat) {
    HasRow(s, p) && Over(s.payments[p].req.pc) && (RowOf(s, p).state == Created || InTransit(RowOf(s, p).state))
  }

  /** No sweep can have listed the row as UNKNOWN. */
  lemma ResolveCannotReach(c: Config, s: State, id: nat, p: nat)
    requires Inv(c, s) && OutOfReach(s, p)
    ensures var t := DoResolve(s, id); p in t.payments && t.payments[p] == s.payments[p]
  {
    if id in s.sweeps && s.sweeps[id].Settling? {
      assert Picked(s, s.sweeps[id].pa);
    }
  }

  /** A sweep that listed it as AUTHORIZED finds the transition illegal by now. */
  lemma ExpireCannotReach(c: Config, s: State, id: nat, q: nat, p: nat)
    requires Inv(c, s) && OutOfReach(s, p)
    ensures var t := DoExpire(s, id, q); p in t.payments && t.payments[p] == s.payments[p]
  {
    if id in s.sweeps && s.sweeps[id].Expiring? && q in s.sweeps[id].pending {
      assert RanOut(s, q);
    }
  }

  lemma StepCannotReach(c: Config, s: State, step: Step, p: nat)
    requires Inv(c, s) && OutOfReach(s, p)
    ensures SameRow(s, Do(c, s, step), p) && OutOfReach(Do(c, s, step), p)
  {
    if step.Arrive? || step.Advance? || step.Fail? || step.Deliver? {
      RequestStepLeavesRow(c, s, step, p);
    } else {
      OtherStepCannotReach(c, s, step, p);
    }
  }

  lemma OtherStepCannotReach(c: Config, s: State, step: Step, p: nat)
    requires Inv(c, s) && OutOfReach(s, p) && !step.Arrive? && !step.Advance? && !step.Fail? && !step.Deliver?
    ensures var t := Do(c, s, step); p in t.payments && t.payments[p] == s.payments[p]
  {
    if step.Resolve? {
      ResolveCannotReach(c, s, step.id, p);
    } else if step.Expire? {
      ExpireCannotReach(c, s, step.id, step.pa, p);
    }
  }

  lemma {:induction false} RunCannotReach(c: Config, s: State, steps: seq<Step>, p: nat)
    requires Inv(c, s) && OutOfReach(s, p)
    ensures SameRow(s, Run(c, s, steps), p)
    decreases |steps|
  {
    if steps != [] {
      StepCannotReach(c, s, steps[0], p);
      StepInv(c, s, steps[0]);
      RunCannotReach(c, Do(c, s, steps[0]), steps[1..], p);
    }
  }

  /** Its amount counts as the user's spend wherever the window reaches back to it. */
  ghost predicate CountsAsSpend(t: State, p: nat)
    requires HasRow(t, p)
  {
    forall since: int :: since <= RowOf(t, p).created ==>
      Counted(t, RowOf(t, p).txn.order.user, since)(p) == RowOf(t, p).txn.order.amount
  }

  /** The row of a finished request in CREATED, SUBMITTED or TIMEOUT is never moved by any later run,
      whatever sweeps are under way; in the latter two it goes on counting as spend. */
  lemma StuckForGood(c: Config, s: State, steps: seq<Step>, p: nat)
    requires Reachable(c, s) && OutOfReach(s, p)
    ensures SameRow(s, Run(c, s, steps), p)
    ensures RowOf(s, p).state != Created ==> CountsAsSpend(Run(c, s, steps), p)
  {
    ReachableInv(c, s);
    RunCannotReach(c, s, steps, p);
  }

  /** Neither is one in UNKNOWN beyond the age reconciliation looks at, unless a sweep listed it
      while it was younger. */
  lemma TooOldForGood(c: Config, s: State, steps: seq<Step>, p: nat)
    requires Reachable(c, s) && LeftAlone(s, p)
    requires RowOf(s, p).state == Unknown && RowOf(s, p).created < s.now - c.maxAge
    ensures SameRow(s, Run(c, s, steps), p) && CountsAsSpend(Run(c, s, steps), p)
  {
    ReachableInv(c, s);
    RunLeavesRow(c, s, steps, p);
  }

  /** It happens, and to money that has left: an exception while the answer is being awaited, or
      in a step after it, leaves a charged payment in SUBMITTED. */
  lemma ChargedAndStranded(c: Config) returns (s: State)
    requires !c.env.completes
    ensures Reachable(c, s) && LeftAlone(s, 0) && RowOf(s, 0).state == Submitted && IsPaid(ChargeOf(s, 0))
  {
    var s0 := ToCharged(c);
    s := Do(c, s0, Fail(0, false));
    ReachableStep(c, s0, Fail(0, false));
  }

  // ---------------------------------------------------------------- when nobody is stranded

  /** On the way from SUBMITTED to an outcome. */
  predicate OnTheWay(pc: Pc) {
    match pc
    case Posting => true
    case Awaiting(_) => true
    case Moving(to, _) => to != Authorized && to != Submitted
    case Auditing(_, to) => to == Submitted || to == Timeout
    case _ => false
  }

  predicate InTransit(s: PaymentState) {
    s == Submitted || s == Timeout
  }

  predicate Followed(v: Payment) {
    v.row.Some? && InTransit(v.row.value.state) ==> OnTheWay(v.req.pc)
  }

  lemma SendingFollowed(c: Config, s: State, v: Payment, o: Oracle)
    requires PaymentOk(c, v) && Followed(v) && (v.req.pc.Posting? || v.req.pc.Awaiting? || v.req.pc.Auditing?)
    ensures Followed(Next(c, s, v, o).pay)
  {
  }

  lemma WritingFollowed(c: Config, s: State, v: Payment, o: Oracle)
    requires PaymentOk(c, v) && Followed(v) && WritesRow(v.req.pc) && !v.req.pc.Moving?
    ensures Followed(Next(c, s, v, o).pay)
  {
  }

  lemma MovingFollowed(c: Config, s: State, v: Payment, o: Oracle)
    requires PaymentOk(c, v) && Followed(v) && v.req.pc.Moving?
    ensures Followed(Next(c, s, v, o).pay)
  {
    if v.row.Some? && CanMove(v.row.value.state, v.req.pc.to) {
      assert Next(c, s, v, o).pay.req.pc == Auditing(v.row.value.state, v.req.pc.to);
    }
  }

  lemma NextFollowed(c: Config, s: State, v: Payment, o: Oracle)
    requires PaymentOk(c, v) && Followed(v)
    ensures Followed(Next(c, s, v, o).pay)
  {
    if v.req.pc.Posting? || v.req.pc.Awaiting? || v.req.pc.Auditing? {
      SendingFollowed(c, s, v, o);
    } else if v.req.pc.Moving? {
      MovingFollowed(c, s, v, o);
    } else if WritesRow(v.req.pc) {
      WritingFollowed(c, s, v, o);
    } else {
      NextKeepsRow(c, s, v, o);
    }
  }

  ghost predicate AllFollowed(s: State) {
    forall p | p in s.payments :: Followed(s.payments[p])
  }

  lemma ReplacedFollowed(s: State, t: State, p: nat, w: Payment)
    requires AllFollowed(s) && t.payments == s.payments[p := w] && Followed(w)
    ensures AllFollowed(t)
  {
  }

  lemma StepFollowed(c: Config, s: State, step: Step)
    requires c.env.completes && Inv(c, s) && AllFollowed(s)
    ensures AllFollowed(Do(c, s, step))
  {
    var t := Do(c, s, step);
    match step
    case Arrive(p, _, _) => if t != s { ReplacedFollowed(s, t, p, t.payments[p]); }
    case Advance(p, o) =>
      if p in s.payments {
        NextFollowed(c, s, s.payments[p], o);
        ReplacedFollowed(s, t, p, Next(c, s, s.payments[p], o).pay);
      }
    case Fail(p, timedOut) => FailFollowed(c, s, p, timedOut);
    case Deliver(p, how, reference) => DeliverFollowed(s, p, how, reference);
    case Resolve(id) => SweepFollowed(c, s, step);
    case Expire(id, p) => SweepFollowed(c, s, step);
    case _ => assert t.payments == s.payments;
  }

  lemma FailFollowed(c: Config, s: State, p: nat, timedOut: bool)
    requires c.env.completes && Inv(c, s) && AllFollowed(s)
    ensures AllFollowed(DoFail(c, s, p, timedOut))
  {
    if p in s.payments && MayFail(c, s.payments[p]) {
      assert PaymentOk(c, s.payments[p]) && Followed(s.payments[p]);
      ReplacedFollowed(s, DoFail(c, s, p, timedOut), p, s.payments[p].(req := Failing(s.payments[p].req, timedOut)));
    }
  }

  lemma DeliverFollowed(s: State, p: nat, how: Behaviour, reference: nat)
    requires AllFollowed(s)
    ensures AllFollowed(DoDeliver(s, p, how, reference))
  {
    var t := DoDeliver(s, p, how, reference);
    if t != s {
      assert Followed(s.payments[p]);
      ReplacedFollowed(s, t, p, t.payments[p]);
    }
  }

  lemma SweepMoveFollowed(s: State, id: nat, p: nat, to: PaymentState, ref: Option<nat>, next: Sweep)
    requires AllFollowed(s) && !InTransit(to)
    ensures AllFollowed(SweepMove(s, id, p, to, ref, next))
  {
    var t := SweepMove(s, id, p, to, ref, next);
    if t.payments != s.payments {
      ReplacedFollowed(s, t, p, t.payments[p]);
    }
  }

  lemma SweepFollowed(c: Config, s: State, step: Step)
    requires AllFollowed(s) && Inv(c, s) && (step.Resolve? || step.Expire?)
    ensures AllFollowed(Do(c, s, step))
  {
    match step
    case Resolve(id) =>
      if id in s.sweeps && s.sweeps[id].Settling? {
        assert SweepOk(c, s, s.sweeps[id]);
        var w := s.sweeps[id];
        SweepMoveFollowed(s, id, w.pa, w.to, w.ref, Reconciling(w.rest));
      }
    case Expire(id, p) =>
      if id in s.sweeps && s.sweeps[id].Expiring? && p in s.sweeps[id].pending {
        SweepMoveFollowed(s, id, p, Expired, None, Expiring(s.sweeps[id].pending - {p}));
      }
    case _ =>
  }

  lemma {:induction false} RunFollowed(c: Config, s: State, steps: seq<Step>)
    requires c.env.completes && Inv(c, s) && AllFollowed(s)
    ensures AllFollowed(Run(c, s, steps))
    decreases |steps|
  {
    if steps != [] {
      StepInv(c, s, steps[0]);
      StepFollowed(c, s, steps[0]);
      RunFollowed(c, Do(c, s, steps[0]), steps[1..]);
    }
  }

  ghost predicate NobodyStranded(c: Config) {
    forall s, p | Reachable(c, s) && HasRow(s, p) && Over(s.payments[p].req.pc) :: !InTransit(RowOf(s, p).state)
  }

  /** No finished request leaves its payment in SUBMITTED or TIMEOUT, where no sweep looks, exactly
      when no exception ends a section that has authorized a payment. */
  lemma NobodyStrandedIff(c: Config)
    ensures NobodyStranded(c) <==> c.env.completes
  {
    if c.env.completes {
      forall s, p | Reachable(c, s) && HasRow(s, p) && Over(s.payments[p].req.pc) ensures !InTransit(RowOf(s, p).state) {
        var now, steps :| s == Run(c, Init(now), steps);
        RunFollowed(c, Init(now), steps);
        assert Followed(s.payments[p]);
      }
    } else {
      var s := ChargedAndStranded(c);
    }
  }
}
