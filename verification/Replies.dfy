/** What the client is told, against the row and the provider's books: every answer a request gives
    is about its own row and true of it, a replay of such an answer, a refusal, or an error. */
module Replies {
  import opened Options
  import opened Lifecycle
  import opened Canonical
  import opened Provider
  import opened Protocol
  import opened Invariant
  import opened Safety
  import opened Charging

  /** The decision is made and acted on; what is left is to write down, remember and leave. */
  predicate Concluded(pc: Pc) {
    pc == LogDecision || pc == Remember || pc == Reserve || pc == LeaveFp || pc == LeaveIdem || pc == Done
  }

  /** Neither an exception nor busy locks took the place of the answer. */
  predicate Standing(r: Request) {
    !r.failed && r.reply.message != InFlight
  }

  /** The answer is true of the row: a state it is or has been in, and if that is CONFIRMED or FAILED
      the one it is in for good; a provider's reference just with CONFIRMED, and the row's own. */
  predicate Vouches(reply: Reply, row: Row, execute: bool) {
    && reply.pa == row.txn.pa && reply.decision == row.decision
    && reply.state in row.history
    && (reply.state == Confirmed || reply.state == Failed ==> row.state == reply.state)
    && (if reply.state == Confirmed then reply.reference.Some? && row.reference == reply.reference else reply.reference.None?)
    && match row.decision
       case Block => reply.state == Failed
       case RequireApproval => reply.state == Created
       case Allow =>
         if execute then reply.state == Confirmed || reply.state == Failed || reply.state == Unknown
         else reply.state == Authorized
  }

  /** The message says which kind of answer it is. */
  predicate Explains(reply: Reply) {
    match reply.decision
    case Block => reply.message == BlockedByPolicy
    case RequireApproval => reply.message == ApprovalRequired
    case Allow =>
      reply.message == (if reply.state == Authorized then AuthorizedNotSubmitted
                        else if reply.state == Unknown then NotASuccess
                        else FromProvider)
  }

  /** No money was taken and none is on its way. */
  predicate Uncharged(v: Payment) {
    v.flying.None? && !IsPaid(v.charge)
  }

  /** On the way to an answer that fits. */
  predicate Preparing(v: Payment, row: Row) {
    var r := v.req;
    match r.pc
    case Blocking => r.reply.reference.None? && row.decision == Block
    case Minting => r.reply.reference.None? && row.decision == Allow
    case Moving(to, ref) =>
      && row.decision == Allow && r.reply.reference == ref && (ref.Some? <==> to == Confirmed)
      && (to != Authorized ==> r.execute)
    case Auditing(_, to) =>
      && row.decision == Allow && (to != Authorized ==> r.execute) && to in row.history
      && (to == Confirmed || to == Failed ==> row.state == to)
      && (if to == Confirmed then r.reply.reference.Some? && row.reference == r.reply.reference else r.reply.reference.None?)
      && (to == Failed ==> Uncharged(v))
    case Consuming => r.reply.reference.None? && row.decision == Allow && r.execute
    case Posting => r.reply.reference.None? && row.decision == Allow && r.execute
    case Awaiting(_) => r.reply.reference.None? && row.decision == Allow && r.execute
    case _ => true
  }

  predicate Telling(v: Payment, row: Row) {
    var r := v.req;
    && !r.reply.replayed && r.reply.pa == row.txn.pa && r.reply.decision == row.decision
    && (if Concluded(r.pc)
        then Vouches(r.reply, row, r.execute) && Explains(r.reply) && (r.reply.state == Failed ==> Uncharged(v))
        else Preparing(v, row))
  }

  predicate ReplyOk(v: Payment) {
    var r := v.req;
    && (r.pc == WaitIdem || r.pc == WaitFp || InSection(r.pc) ==> Standing(r))
    && (r.pc == WaitIdem || r.pc == WaitFp ==> r.reply == Reply(r.txn.pa, Block, Failed, None, Blank, false))
    && (r.reply.message == InFlight ==> r.reply == Reply(r.txn.pa, Block, Failed, None, InFlight, false))
    && (r.pc == Insert ==> r.reply == Reply(r.txn.pa, r.decision, Created, None, Blank, false))
    && (!r.execute ==> v.posts == 0)
    && (v.row.Some? ==> !r.pc.Replay? && (Standing(r) ==> Telling(v, v.row.value)))
    && (v.row.None? && Concluded(r.pc) && Standing(r) ==> r.reply.replayed && r.reply.message == IdempotentReplay)
  }

  // ---------------------------------------------------------------- steps of a request

  lemma WaitingReply(c: Config, s: State, v: Payment, o: Oracle)
    requires PaymentOk(c, v) && ReplyOk(v) && (v.req.pc.WaitIdem? || v.req.pc.WaitFp? || v.req.pc.Replay?)
    ensures ReplyOk(Next(c, s, v, o).pay)
  {
  }

  lemma CheckingReply(c: Config, s: State, v: Payment, o: Oracle)
    requires PaymentOk(c, v) && ReplyOk(v) && (v.req.pc.CheckIdem? || v.req.pc.CheckFp? || v.req.pc.Decide?)
    ensures ReplyOk(Next(c, s, v, o).pay)
  {
  }

  lemma InsertReply(c: Config, s: State, v: Payment, o: Oracle)
    requires PaymentOk(c, v) && ReplyOk(v) && (v.req.pc.Insert?)
    ensures ReplyOk(Next(c, s, v, o).pay)
  {
  }

  lemma BlockingReply(c: Config, s: State, v: Payment, o: Oracle)
    requires PaymentOk(c, v) && ReplyOk(v) && (v.req.pc.Blocking?)
    ensures ReplyOk(Next(c, s, v, o).pay)
  {
  }

  lemma MintingReply(c: Config, s: State, v: Payment, o: Oracle)
    requires v.row.Some? && ReplyOk(v) && (v.req.pc.Minting?)
    ensures ReplyOk(Next(c, s, v, o).pay)
  {
  }

  lemma ConsumingReply(c: Config, s: State, v: Payment, o: Oracle)
    requires PaymentOk(c, v) && ReplyOk(v) && (v.req.pc.Consuming?)
    ensures ReplyOk(Next(c, s, v, o).pay)
  {
  }

  lemma MovingOutReply(c: Config, s: State, v: Payment, o: Oracle)
    requires v.row.Some? && ReplyOk(v) && (v.req.pc.Moving? && (v.req.pc.to == Authorized || v.req.pc.to == Submitted))
    ensures ReplyOk(Next(c, s, v, o).pay)
  {
  }

  lemma MovingAsideReply(c: Config, s: State, v: Payment, o: Oracle)
    requires v.row.Some? && ReplyOk(v) && (v.req.pc.Moving? && (v.req.pc.to == Timeout || v.req.pc.to == Unknown))
    ensures ReplyOk(Next(c, s, v, o).pay)
  {
  }

  lemma MovingHomeReply(c: Config, s: State, v: Payment, o: Oracle)
    requires v.row.Some? && ReplyOk(v) && (v.req.pc.Moving? && (v.req.pc.to == Confirmed || v.req.pc.to == Failed))
    requires v.req.pc.to == Failed ==> Uncharged(v)
    ensures ReplyOk(Next(c, s, v, o).pay)
  {
  }

  lemma AuditingReply(c: Config, s: State, v: Payment, o: Oracle)
    requires v.row.Some? && ReplyOk(v) && v.req.pc.Auditing?
    requires v.req.pc.after == Authorized || v.req.pc.after == Submitted || v.req.pc.after == Timeout
    ensures ReplyOk(Next(c, s, v, o).pay)
  {
  }

  lemma AnsweringReply(c: Config, s: State, v: Payment, o: Oracle)
    requires v.row.Some? && ReplyOk(v) && v.req.pc.Auditing?
    requires v.req.pc.after == Unknown || v.req.pc.after == Confirmed || v.req.pc.after == Failed
    ensures ReplyOk(Next(c, s, v, o).pay)
  {
  }

  lemma PostingReply(c: Config, s: State, v: Payment, o: Oracle)
    requires v.row.Some? && ReplyOk(v) && v.req.pc.Posting?
    ensures ReplyOk(Next(c, s, v, o).pay)
  {
  }

  lemma AwaitingReply(c: Config, s: State, v: Payment, o: Oracle)
    requires v.row.Some? && ReplyOk(v) && v.req.pc.Awaiting?
    ensures ReplyOk(Next(c, s, v, o).pay)
  {
  }

  lemma WritingDownReply(c: Config, s: State, v: Payment, o: Oracle)
    requires v.row.Some? && ReplyOk(v) && (v.req.pc.LogDecision?)
    ensures ReplyOk(Next(c, s, v, o).pay)
  {
  }

  lemma MemoisingReply(c: Config, s: State, v: Payment, o: Oracle)
    requires v.row.Some? && ReplyOk(v) && (v.req.pc.Remember? || v.req.pc.Reserve?)
    ensures ReplyOk(Next(c, s, v, o).pay)
  {
  }

  lemma LeavingReply(c: Config, s: State, v: Payment, o: Oracle)
    requires ReplyOk(v) && (v.req.pc.LeaveFp? || v.req.pc.LeaveIdem?)
    ensures ReplyOk(Next(c, s, v, o).pay)
  {
  }

  lemma DoneReply(c: Config, s: State, v: Payment, o: Oracle)
    requires ReplyOk(v) && (v.req.pc.Done?)
    ensures ReplyOk(Next(c, s, v, o).pay)
  {
  }

  lemma NextReply(c: Config, s: State, v: Payment, o: Oracle)
    requires PaymentOk(c, v) && ReplyOk(v)
    ensures ReplyOk(Next(c, s, v, o).pay)
  {
    match v.req.pc
    case WaitIdem => WaitingReply(c, s, v, o);
    case WaitFp => WaitingReply(c, s, v, o);
    case CheckIdem => CheckingReply(c, s, v, o);
    case CheckFp => CheckingReply(c, s, v, o);
    case Decide => CheckingReply(c, s, v, o);
    case Replay(_) => WaitingReply(c, s, v, o);
    case Insert => InsertReply(c, s, v, o);
    case Blocking => BlockingReply(c, s, v, o);
    case Minting => MintingReply(c, s, v, o);
    case Consuming => ConsumingReply(c, s, v, o);
    case Moving(to, _) =>
      if to == Authorized || to == Submitted {
        MovingOutReply(c, s, v, o);
      } else if to == Timeout || to == Unknown {
        MovingAsideReply(c, s, v, o);
      } else {
        MovingHomeReply(c, s, v, o);
      }
    case Auditing(_, to) =>
      if to == Authorized || to == Submitted || to == Timeout {
        AuditingReply(c, s, v, o);
      } else {
        AnsweringReply(c, s, v, o);
      }
    case Posting => PostingReply(c, s, v, o);
    case Awaiting(_) => AwaitingReply(c, s, v, o);
    case LogDecision => WritingDownReply(c, s, v, o);
    case Remember => MemoisingReply(c, s, v, o);
    case Reserve => MemoisingReply(c, s, v, o);
    case Done => DoneReply(c, s, v, o);
    case _ => LeavingReply(c, s, v, o);
  }

  // ---------------------------------------------------------------- everybody else's steps

  lemma FailingReply(c: Config, v: Payment, timedOut: bool)
    requires PaymentOk(c, v) && ReplyOk(v)
    ensures ReplyOk(v.(req := Failing(v.req, timedOut)))
  {
    if InSection(v.req.pc) {
      FallsSilent(v, Failing(v.req, timedOut));
    } else if v.req.pc != Done {
      FallsSilent(v, Failing(v.req, timedOut));
    }
  }

  /** No answer, so nothing to be true. */
  lemma FallsSilent(v: Payment, r: Request)
    requires ReplyOk(v) && !Standing(r) && (r.pc == LeaveFp || r.pc == LeaveIdem || r.pc == Done) && r.execute == v.req.execute
    requires v.req.pc.Replay? ==> v.row.None?
    requires r.reply == v.req.reply || r.reply == Reply(r.txn.pa, Block, Failed, None, InFlight, false)
    requires r.txn == v.req.txn
    ensures ReplyOk(v.(req := r))
  {
  }

  lemma DeliveredReply(v: Payment, charge: Option<Charge>, answer: Answer)
    requires ReplyOk(v) && v.flying.Some?
    ensures ReplyOk(Delivered(v, charge, answer))
  {
  }

  /** A sweep moves a row only out of AUTHORIZED or UNKNOWN, which no answer takes for final. */
  lemma SweptReply(v: Payment, to: PaymentState, ref: Option<nat>)
    requires ReplyOk(v) && v.row.Some? && HistoryOk(v.row.value) && CanMove(v.row.value.state, to)
    ensures ReplyOk(v.(row := Some(Moved(v.row.value, to, ref))))
  {
    assert forall x | x in v.row.value.history :: x in Moved(v.row.value, to, ref).history;
  }

  ghost predicate AllRepliesOk(s: State) {
    forall p | p in s.payments :: ReplyOk(s.payments[p])
  }

  lemma ReplacedReply(s: State, t: State, p: nat, w: Payment)
    requires AllRepliesOk(s) && t.payments == s.payments[p := w] && ReplyOk(w)
    ensures AllRepliesOk(t)
  {
  }

  lemma SweepMoveReply(c: Config, s: State, id: nat, p: nat, to: PaymentState, ref: Option<nat>, next: Sweep)
    requires PaymentsOk(c, s) && AllRepliesOk(s)
    ensures AllRepliesOk(SweepMove(s, id, p, to, ref, next))
  {
    if HasRow(s, p) && CanMove(RowOf(s, p).state, to) {
      assert PaymentOk(c, s.payments[p]);
      SweptReply(s.payments[p], to, ref);
      ReplacedReply(s, SweepMove(s, id, p, to, ref, next), p, s.payments[p].(row := Some(Moved(RowOf(s, p), to, ref))));
    }
  }

  lemma SweepReply(c: Config, s: State, step: Step)
    requires PaymentsOk(c, s) && AllRepliesOk(s) && (step.Resolve? || step.Expire?)
    ensures AllRepliesOk(Do(c, s, step))
  {
    match step
    case Resolve(id) =>
      if id in s.sweeps && s.sweeps[id].Settling? {
        var w := s.sweeps[id];
        SweepMoveReply(c, s, id, w.pa, w.to, w.ref, Reconciling(w.rest));
      }
    case Expire(id, p) =>
      if id in s.sweeps && s.sweeps[id].Expiring? && p in s.sweeps[id].pending {
        SweepMoveReply(c, s, id, p, Expired, None, Expiring(s.sweeps[id].pending - {p}));
      }
    case _ =>
  }

  lemma DeliverReply(s: State, p: nat, how: Behaviour, reference: nat)
    requires AllRepliesOk(s)
    ensures AllRepliesOk(DoDeliver(s, p, how, reference))
  {
    if p in s.payments && s.payments[p].flying.Some? {
      var v := s.payments[p];
      var (charge, answer) := Assess(s.consumed, v.flying.value.body, Some(v.flying.value.token), how, s.now, reference);
      DeliveredReply(v, charge, answer);
      ReplacedReply(s, DoDeliver(s, p, how, reference), p, Delivered(v, charge, answer));
    }
  }

  lemma AdvanceReply(c: Config, s: State, p: nat, o: Oracle)
    requires PaymentsOk(c, s) && AllRepliesOk(s)
    ensures AllRepliesOk(DoAdvance(c, s, p, o))
  {
    if p in s.payments {
      NextReply(c, s, s.payments[p], o);
      ReplacedReply(s, DoAdvance(c, s, p, o), p, Next(c, s, s.payments[p], o).pay);
    }
  }

  lemma ArriveReply(c: Config, s: State, p: nat, order: Order, execute: bool)
    requires AllRepliesOk(s)
    ensures AllRepliesOk(DoArrive(c, s, p, order, execute))
  {
    var t := DoArrive(c, s, p, order, execute);
    if t != s {
      ReplacedReply(s, t, p, t.payments[p]);
    }
  }

  lemma FailReply(c: Config, s: State, p: nat, timedOut: bool)
    requires PaymentsOk(c, s) && AllRepliesOk(s)
    ensures AllRepliesOk(DoFail(c, s, p, timedOut))
  {
    if p in s.payments && MayFail(c, s.payments[p]) {
      FailingReply(c, s.payments[p], timedOut);
      ReplacedReply(s, DoFail(c, s, p, timedOut), p, s.payments[p].(req := Failing(s.payments[p].req, timedOut)));
    }
  }

  lemma StepReplies(c: Config, s: State, step: Step)
    requires Inv(c, s) && AllRepliesOk(s)
    ensures AllRepliesOk(Do(c, s, step))
  {
    var t := Do(c, s, step);
    match step
    case Arrive(p, order, execute) => ArriveReply(c, s, p, order, execute);
    case Advance(p, o) => AdvanceReply(c, s, p, o);
    case Fail(p, timedOut) => FailReply(c, s, p, timedOut);
    case Deliver(p, how, reference) => DeliverReply(s, p, how, reference);
    case Resolve(_) => SweepReply(c, s, step);
    case Expire(_, _) => SweepReply(c, s, step);
    case _ => assert t.payments == s.payments;
  }

  lemma {:induction false} RunReplies(c: Config, s: State, steps: seq<Step>)
    requires Inv(c, s) && AllRepliesOk(s)
    ensures AllRepliesOk(Run(c, s, steps))
    decreases |steps|
  {
    if steps != [] {
      StepInv(c, s, steps[0]);
      StepReplies(c, s, steps[0]);
      RunReplies(c, Do(c, s, steps[0]), steps[1..]);
    }
  }

  lemma ReachableReplies(c: Config, s: State)
    requires Reachable(c, s)
    ensures Inv(c, s) && AllRepliesOk(s)
  {
    var now, steps :| s == Run(c, Init(now), steps);
    RunInv(c, Init(now), steps);
    RunReplies(c, Init(now), steps);
  }

  // ---------------------------------------------------------------- what an answer means

  /** The request has concluded with an answer about its own payment. */
  predicate OwnAnswer(v: Payment) {
    v.row.Some? && Concluded(v.req.pc) && Standing(v.req)
  }

  /** What a client is told about its payment is so: the decision is the row's, the state one the row is
      or has been in, CONFIRMED and FAILED the one it is in for good, the provider's reference the
      row's, and the message fits. */
  lemma AnswersAreTrue(c: Config, s: State, p: nat)
    requires Reachable(c, s) && p in s.payments && OwnAnswer(s.payments[p])
    ensures var reply, row := s.payments[p].req.reply, RowOf(s, p);
            && reply.pa == p && reply.decision == row.decision && !reply.replayed
            && reply.state in row.history
            && (reply.state == Confirmed || reply.state == Failed ==> row.state == reply.state)
            && (reply.state == Confirmed ==> reply.reference.Some? && row.reference == reply.reference)
            && (reply.state != Confirmed ==> reply.reference == None)
            && (row.decision == Block ==> reply.state == Failed)
            && (row.decision == RequireApproval ==> reply.state == Created)
            && (row.decision == Allow && !s.payments[p].req.execute ==> reply.state == Authorized)
            && (row.decision == Allow && s.payments[p].req.execute ==>
                  reply.state == Confirmed || reply.state == Failed || reply.state == Unknown)
            && (reply.message == BlockedByPolicy <==> row.decision == Block)
            && (reply.message == ApprovalRequired <==> row.decision == RequireApproval)
            && (reply.message == AuthorizedNotSubmitted <==> row.decision == Allow && !s.payments[p].req.execute)
            && (reply.message == NotASuccess <==> reply.state == Unknown)
            && (reply.state == Confirmed ==> reply.message == FromProvider)
  {
    ReachableReplies(c, s);
    assert PaymentOk(c, s.payments[p]) && ReplyOk(s.payments[p]) && s.payments[p].req.txn.pa == p;
  }

  /** There is no other way to conclude: an answer of one's own, a replay, a refusal, which says BLOCK and
      FAILED about this very request, or an error. */
  lemma NobodyLeavesUnanswered(c: Config, s: State, p: nat)
    requires Reachable(c, s) && p in s.payments && Concluded(s.payments[p].req.pc)
    ensures var v := s.payments[p];
            || OwnAnswer(v) || v.req.failed
            || v.req.reply == Reply(p, Block, Failed, None, InFlight, false)
            || (v.req.reply.message == IdempotentReplay && v.req.reply.replayed && v.row.None?)
  {
    ReachableReplies(c, s);
    assert ReplyOk(s.payments[p]) && s.payments[p].req.txn.pa == p;
  }

  /** Who is told FAILED was not charged and never will be, whatever the network and the provider do. */
  lemma ToldFailedNeverCharged(c: Config, s: State, steps: seq<Step>, p: nat)
    requires Reachable(c, s) && p in s.payments && OwnAnswer(s.payments[p]) && s.payments[p].req.reply.state == Failed
    ensures var t := Run(c, s, steps); p in t.payments && !IsPaid(t.payments[p].charge)
  {
    ReachableReplies(c, s);
    assert ReplyOk(s.payments[p]);
    RunStaysUncharged(c, s, steps, p);
  }

  /** Told FAILED, and nothing under way. */
  predicate WrittenOff(s: State, p: nat) {
    && HasRow(s, p) && Uncharged(s.payments[p]) && RowOf(s, p).state == Failed && Concluded(s.payments[p].req.pc)
  }

  lemma StepStaysUncharged(c: Config, s: State, step: Step, p: nat)
    requires Inv(c, s) && WrittenOff(s, p)
    ensures WrittenOff(Do(c, s, step), p)
  {
    if step.Advance? {
      OwnStepStaysUncharged(c, s, step.pa, step.oracle, p);
    } else if step.Fail? {
      FailStaysUncharged(c, s, step.pa, step.timedOut, p);
    } else {
      OtherStepStaysUncharged(c, s, step, p);
    }
  }

  lemma OtherStepStaysUncharged(c: Config, s: State, step: Step, p: nat)
    requires WrittenOff(s, p) && !step.Advance? && !step.Fail?
    ensures WrittenOff(Do(c, s, step), p)
  {
  }

  lemma OwnStepStaysUncharged(c: Config, s: State, p: nat, o: Oracle, q: nat)
    requires Inv(c, s) && WrittenOff(s, q)
    ensures WrittenOff(DoAdvance(c, s, p, o), q)
  {
    if p == q {
      NextKeepsRow(c, s, s.payments[p], o);
      ConcludedStaysSo(c, s, s.payments[p], o);
      ReplacedStaysUncharged(s, DoAdvance(c, s, p, o), p, Next(c, s, s.payments[p], o).pay);
    } else if p in s.payments {
      assert DoAdvance(c, s, p, o).payments[q] == s.payments[q];
    }
  }

  lemma ReplacedStaysUncharged(s: State, t: State, p: nat, w: Payment)
    requires WrittenOff(s, p) && t.payments == s.payments[p := w] && w.row == s.payments[p].row
    requires w.charge == s.payments[p].charge && w.flying.None? && Concluded(w.req.pc)
    ensures WrittenOff(t, p)
  {
  }

  lemma ConcludedStaysSo(c: Config, s: State, v: Payment, o: Oracle)
    requires Concluded(v.req.pc) && v.flying.None?
    ensures var w := Next(c, s, v, o).pay; Concluded(w.req.pc) && w.flying.None?
  {
  }

  lemma FailStaysUncharged(c: Config, s: State, p: nat, timedOut: bool, q: nat)
    requires WrittenOff(s, q)
    ensures WrittenOff(DoFail(c, s, p, timedOut), q)
  {
  }

  lemma {:induction false} RunStaysUncharged(c: Config, s: State, steps: seq<Step>, p: nat)
    requires Inv(c, s) && WrittenOff(s, p)
    ensures WrittenOff(Run(c, s, steps), p)
    decreases |steps|
  {
    if steps != [] {
      StepInv(c, s, steps[0]);
      StepStaysUncharged(c, s, steps[0], p);
      RunStaysUncharged(c, Do(c, s, steps[0]), steps[1..], p);
    }
  }

  ghost predicate ToldConfirmedMeansCharged(c: Config) {
    forall s, p | Reachable(c, s) && p in s.payments && OwnAnswer(s.payments[p]) && s.payments[p].req.reply.state == Confirmed ::
      IsPaid(s.payments[p].charge)
  }

  /** Who is told CONFIRMED was charged, if and only if no hanging provider answers in time. */
  lemma ToldConfirmedMeansChargedIff(c: Config)
    ensures ToldConfirmedMeansCharged(c) <==> !c.shortHang
  {
    if c.shortHang {
      var s := ToldConfirmedUncharged(c);
    } else {
      forall s, p | Reachable(c, s) && p in s.payments && OwnAnswer(s.payments[p]) && s.payments[p].req.reply.state == Confirmed
        ensures IsPaid(s.payments[p].charge)
      {
        AnswersAreTrue(c, s, p);
        ReachableInv(c, s);
        assert PaymentOk(c, s.payments[p]);
      }
    }
  }

  lemma ToldConfirmedUncharged(c: Config) returns (s: State)
    requires c.shortHang
    ensures Reachable(c, s) && 0 in s.payments && OwnAnswer(s.payments[0])
    ensures s.payments[0].req.reply.state == Confirmed && !IsPaid(s.payments[0].charge)
  {
    var s0 := ShortHangDisagrees(c);
    ReachableReplies(c, s0);
    assert ReplyOk(s0.payments[0]);
    s := Do(c, s0, Advance(0, GO));
    ReachableStep(c, s0, Advance(0, GO));
  }
}
