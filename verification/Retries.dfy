/** A completed request leaves its answer behind, and whoever asks the same again gets it. */
module Retries {
  import opened Options
  import opened Lifecycle
  import opened Canonical
  import opened Provider
  import opened TimedStore
  import opened Protocol
  import opened Invariant
  import opened Safety
  import opened Sections
  import opened Charging
  import opened Replies
  import opened Answers

  /** It has an answer of its own that is neither an interim one nor that of a duplicate, and is past
      remembering it. */
  predicate Completed(v: Payment) {
    && OwnAnswer(v) && !v.req.conflict && v.row.value.decision != RequireApproval
    && v.req.pc != LogDecision && v.req.pc != Remember
  }

  /** This step completes p. */
  ghost predicate Completes(c: Config, s: State, step: Step, p: nat) {
    var t := Do(c, s, step);
    Reachable(c, s) && p in s.payments && !Completed(s.payments[p]) && p in t.payments && Completed(t.payments[p])
  }

  lemma OnlyRememberingCompletes(c: Config, s: State, v: Payment, o: Oracle)
    requires PaymentOk(c, v) && ReplyOk(v) && !Completed(v) && Concluded(v.req.pc) && v.req.pc != Remember
    ensures !Completed(Next(c, s, v, o).pay)
  {
  }

  lemma WaitingCompletesNothing(c: Config, s: State, v: Payment, o: Oracle)
    requires PaymentOk(c, v) && ReplyOk(v) && IsEarly(v.req.pc)
    ensures !Completed(Next(c, s, v, o).pay)
  {
  }

  lemma WorkingCompletesNothing(c: Config, s: State, v: Payment, o: Oracle)
    requires PaymentOk(c, v) && ReplyOk(v) && !Concluded(v.req.pc) && !IsEarly(v.req.pc)
    ensures !Completed(Next(c, s, v, o).pay)
  {
  }

  lemma NobodyElseCompletes(c: Config, s: State, step: Step, p: nat)
    requires PaymentsOk(c, s) && p in s.payments && !Completed(s.payments[p]) && !(step.Advance? && step.pa == p)
    ensures p in Do(c, s, step).payments && !Completed(Do(c, s, step).payments[p])
  {
    if step.Fail? && step.pa == p {
      FailingCompletesNothing(s.payments[p], step.timedOut);
    } else if step.Advance? || step.Fail? {
      assert p in Do(c, s, step).payments && Do(c, s, step).payments[p] == s.payments[p];
    } else {
      QuietCompletesNothing(c, s, step, p);
    }
  }

  lemma QuietCompletesNothing(c: Config, s: State, step: Step, p: nat)
    requires p in s.payments && !Completed(s.payments[p]) && !step.Advance? && !step.Fail?
    ensures p in Do(c, s, step).payments && !Completed(Do(c, s, step).payments[p])
  {
  }

  lemma FailingCompletesNothing(v: Payment, timedOut: bool)
    requires !Completed(v)
    ensures !Completed(v.(req := Failing(v.req, timedOut)))
  {
  }

  lemma OnlyOwnStepCompletes(c: Config, s: State, step: Step, p: nat)
    requires Completes(c, s, step, p)
    ensures step.Advance? && step.pa == p && s.payments[p].req.pc == Remember
  {
    ReachableReplies(c, s);
    var v := s.payments[p];
    assert PaymentOk(c, v) && ReplyOk(v);
    if !step.Advance? || step.pa != p {
      NobodyElseCompletes(c, s, step, p);
    } else if IsEarly(v.req.pc) {
      WaitingCompletesNothing(c, s, v, step.oracle);
    } else if !Concluded(v.req.pc) {
      WorkingCompletesNothing(c, s, v, step.oracle);
    } else if v.req.pc != Remember {
      OnlyRememberingCompletes(c, s, v, step.oracle);
    }
  }

  /** Whatever was decided, completing stores exactly the answer the client gets, under the user's key
      and for this payload, to last as long as answers are kept. */
  lemma CompletionIsStored(c: Config, s: State, step: Step, p: nat)
    requires Completes(c, s, step, p)
    ensures var t := Do(c, s, step);
            var r := t.payments[p].req;
            && t.now == s.now
            && t.kv == s.kv[IdemKey(r.txn.order.user, r.txn.order.key) :=
                              Entry(Outcome(r.txn.order.payload, r.reply), if c.idemTtl == 0 then None else Some(s.now + c.idemTtl))]
  {
    OnlyOwnStepCompletes(c, s, step, p);
    ReachableInv(c, s);
  }

  /** Not later than answers are kept. */
  predicate StillKept(c: Config, since: int, now: int) {
    c.idemTtl == 0 || now <= since + c.idemTtl
  }

  /** It stays there for that long. */
  lemma AnswerStaysStored(c: Config, s: State, step: Step, p: nat, steps: seq<Step>)
    requires IdemLockHolds(c) && Completes(c, s, step, p)
    requires StillKept(c, s.now, Run(c, Do(c, s, step), steps).now)
    ensures var t := Do(c, s, step);
            var r := t.payments[p].req;
            Stored(Run(c, t, steps), r.txn.order.user, r.txn.order.key, r.txn.order.payload, r.reply)
  {
    var t := Do(c, s, step);
    CompletionIsStored(c, s, step, p);
    ReachableStep(c, s, step);
    ReachableIdemOk(c, t);
    RunKeepsRecord(c, t, steps, IdemKeyOf(t.payments[p].req.txn));
  }

  /** q came after p was completed, with the same user, key and payload, while answers are kept. */
  ghost predicate TriesAgain(c: Config, s: State, step: Step, p: nat, steps: seq<Step>, q: nat) {
    Completes(c, s, step, p) &&
    var t := Do(c, s, step);
    var u := Run(c, t, steps);
    q !in t.payments && q in u.payments && StillKept(c, s.now, u.now) &&
    var o, x := t.payments[p].req.txn.order, u.payments[q].req.txn.order;
    x.user == o.user && x.key == o.key && x.payload == o.payload
  }

  ghost predicate RetriesGetTheAnswer(c: Config) {
    forall s, step, p, steps, q | TriesAgain(c, s, step, p, steps, q) ::
      Retrying(Run(c, Do(c, s, step), steps).payments[q], Do(c, s, step).payments[p].req.reply)
  }

  /** Whoever repeats a completed request, allowed or denied, is told what its client was told, or is
      refused, and gains no row, POST or charge: exactly when the idempotency lock holds. */
  lemma RetriesGetTheAnswerIff(c: Config)
    ensures RetriesGetTheAnswer(c) <==> IdemLockHolds(c)
  {
    if IdemLockHolds(c) {
      forall s, step, p, steps, q | TriesAgain(c, s, step, p, steps, q)
        ensures Retrying(Run(c, Do(c, s, step), steps).payments[q], Do(c, s, step).payments[p].req.reply)
      {
        RetryGetsTheAnswer(c, s, step, p, steps, q);
      }
    } else {
      RetryMissesTheAnswer(c);
    }
  }

  lemma RetryGetsTheAnswer(c: Config, s: State, step: Step, p: nat, steps: seq<Step>, q: nat)
    requires IdemLockHolds(c) && TriesAgain(c, s, step, p, steps, q)
    ensures Retrying(Run(c, Do(c, s, step), steps).payments[q], Do(c, s, step).payments[p].req.reply)
  {
    var t := Do(c, s, step);
    CompletionIsStored(c, s, step, p);
    ReachableStep(c, s, step);
    RetriesGetStoredAnswerIff(c);
    RunGoesForward(c, t, steps);
    assert AsksAgain(c, t, steps, q, t.payments[p].req.reply);
  }

  lemma DenialCompletes(c: Config, s: State)
    requires Reachable(c, s) && 1 in s.payments && Denied(s.payments[1])
    ensures Completes(c, s, Advance(1, NO), 1)
  {
    ReachableReplies(c, s);
    assert ReplyOk(s.payments[1]) && PaymentOk(c, s.payments[1]);
  }

  lemma RetryMissesTheAnswer(c: Config)
    requires !IdemLockHolds(c)
    ensures !RetriesGetTheAnswer(c)
  {
    var s := ToRecording(c);
    var t := Do(c, s, Advance(1, NO));
    DenialCompletes(c, s);
    var steps, u := RetryConflicts(c, t);
    assert t.payments[1].req.txn.order == OTHER;
    assert TriesAgain(c, s, Advance(1, NO), 1, steps, 2);
    assert !Retrying(u.payments[2], t.payments[1].req.reply);
  }

  /** And it can be told: where the locks are free a retry gets the stored answer and is done. */
  lemma RetryIsAnswered(c: Config, s: State, q: nat, order: Order, stored: Reply) returns (steps: seq<Step>)
    requires Stored(s, order.user, order.key, order.payload, stored) && q !in s.payments && order.rendering == 0
    requires var txn := Txn(q, order, FingerprintOf(order, s.now, c.window), s.now);
             !Alive(s.kv, IdemLockOf(txn), s.now) && !Alive(s.kv, FpLockOf(txn), s.now)
    ensures var t := Run(c, s, steps);
            && q in t.payments && t.payments[q].req.pc == Done && !t.payments[q].req.failed
            && t.payments[q].req.reply == Reply(stored.pa, stored.decision, stored.state, stored.reference, IdempotentReplay, true)
  {
    var t, u;
    steps, t := Enters(c, s, q, order);
    steps, u := Longer(c, s, steps, t, Advance(q, NO));
    FindsAnswer(c, t, q, stored);
    var more := RepeatsIt(c, u, q, stored);
    RunJoins(c, s, steps, more);
    steps := steps + more;
  }

  lemma RepeatsIt(c: Config, s: State, q: nat, stored: Reply) returns (steps: seq<Step>)
    requires q in s.payments && s.payments[q].req.pc == Pc.Replay(stored) && !s.payments[q].req.failed
    ensures var t := Run(c, s, steps);
            && q in t.payments && t.payments[q].req.pc == Done && !t.payments[q].req.failed
            && t.payments[q].req.reply == Reply(stored.pa, stored.decision, stored.state, stored.reference, IdempotentReplay, true)
  {
    var t;
    steps, t := Longer(c, s, [], s, Advance(q, NO));
    var more := GoesAway(c, t, q);
    RunJoins(c, s, steps, more);
    steps := steps + more;
  }

  lemma GoesAway(c: Config, s: State, q: nat) returns (steps: seq<Step>)
    requires q in s.payments && s.payments[q].req.pc == LeaveFp
    ensures var t := Run(c, s, steps); q in t.payments && t.payments[q].req == s.payments[q].req.(pc := Done)
  {
    var t;
    steps, t := Longer(c, s, [], s, Advance(q, NO));
    steps, t := Longer(c, s, steps, t, Advance(q, NO));
  }

  lemma FindsAnswer(c: Config, s: State, q: nat, stored: Reply)
    requires q in s.payments && s.payments[q].req.pc == CheckIdem
    requires var o := s.payments[q].req.txn.order; Stored(s, o.user, o.key, o.payload, stored)
    ensures Do(c, s, Advance(q, NO)).payments == s.payments[q := s.payments[q].(req := s.payments[q].req.(pc := Pc.Replay(stored)))]
  {
  }
}
