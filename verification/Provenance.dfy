/** Where what is found in the store comes from: every stored answer is some request's own and true,
    every slot is a granted payment's, and a conflict always has a cause. */
module Provenance {
  import opened Options
  import opened Lifecycle
  import opened Canonical
  import opened Provider
  import opened TimedStore
  import opened Protocol
  import opened Invariant
  import opened Safety
  import opened Sections
  import opened Charging
  import opened Replies

  /** This answer is payment q's own, given to this key and payload. */
  predicate GivenBy(s: State, q: nat, reply: Reply, user: nat, key: nat, payload: nat) {
    && HasRow(s, q) && s.payments[q].req.txn == RowOf(s, q).txn
    && RowOf(s, q).txn.order.user == user && RowOf(s, q).txn.order.key == key && RowOf(s, q).txn.order.payload == payload
    && Vouches(reply, RowOf(s, q), s.payments[q].req.execute)
  }

  predicate Sourced(s: State, k: Key, value: Value) {
    match k
    case IdemKey(user, key) =>
      && value.Outcome? && !value.reply.replayed && value.reply.decision != RequireApproval
      && GivenBy(s, value.reply.pa, value.reply, user, key, value.payload)
    case SlotKey(fp) => value.Slot? && value.pa in s.payments && Granted(s.payments[value.pa]) && s.payments[value.pa].req.txn.fp == fp
    case IdemLock(user, key) =>
      value.Holder? && value.pa in s.payments && var o := s.payments[value.pa].req.txn.order; o.user == user && o.key == key
    case FpLock(user, fp) =>
      value.Holder? && value.pa in s.payments && var t := s.payments[value.pa].req.txn; t.order.user == user && t.fp == fp
  }

  /** Another payment under the same key with another payload. */
  predicate KeyReused(s: State, v: Payment, q: nat) {
    var o := v.req.txn.order;
    && HasRow(s, q) && q != v.req.txn.pa
    && RowOf(s, q).txn.order.user == o.user && RowOf(s, q).txn.order.key == o.key && RowOf(s, q).txn.order.payload != o.payload
    && RowOf(s, q).decision != RequireApproval
  }

  /** Another payment, allowed, that agrees in everything the fingerprint is made of. */
  predicate SameAgain(c: Config, s: State, v: Payment, q: nat) {
    HasRow(s, q) && q != v.req.txn.pa && RowOf(s, q).decision == Allow &&
    var o, x := v.req.txn, RowOf(s, q).txn;
    && x.order.user == o.order.user && x.order.merchant == o.order.merchant && x.order.cart == o.order.cart
    && x.order.amount == o.order.amount && x.order.rendering == o.order.rendering && x.order.currency == o.order.currency
    && x.arrived / c.window == o.arrived / c.window
  }

  ghost predicate HasCause(c: Config, s: State, v: Payment) {
    exists q :: KeyReused(s, v, q) || SameAgain(c, s, v, q)
  }

  /** What a request says it found, it found. */
  ghost predicate FoundOk(c: Config, s: State, v: Payment) {
    var r := v.req;
    && r.txn.fp == FingerprintOf(r.txn.order, r.txn.arrived, c.window)
    && (Unchecked(r.pc) ==> !r.conflict)
    && (r.conflict ==> HasCause(c, s, v))
    && (r.pc == Remember ==> r.decision != RequireApproval)
    && (r.pc == Reserve ==> r.decision == Allow)
    && (r.pc.Replay? ==>
          && !r.conflict && !r.pc.stored.replayed && r.pc.stored.decision != RequireApproval
          && GivenBy(s, r.pc.stored.pa, r.pc.stored, r.txn.order.user, r.txn.order.key, r.txn.order.payload))
    && (Concluded(r.pc) && Standing(r) && r.reply.replayed ==>
          && r.reply.decision != RequireApproval
          && GivenBy(s, r.reply.pa, r.reply.(replayed := false), r.txn.order.user, r.txn.order.key, r.txn.order.payload))
  }

  ghost predicate RecordsOk(c: Config, s: State) {
    && (forall k | k in s.kv :: Sourced(s, k, s.kv[k].value))
    && forall p | p in s.payments :: FoundOk(c, s, s.payments[p])
  }

  // ---------------------------------------------------------------- what stays true

  lemma VouchedStays(reply: Reply, a: Row, b: Row, execute: bool)
    requires Vouches(reply, a, execute) && RowEvolves(a, b)
    ensures Vouches(reply, b, execute)
  {
  }

  lemma ExecuteStays(c: Config, s: State, step: Step, p: nat)
    requires p in s.payments
    ensures p in Do(c, s, step).payments && Do(c, s, step).payments[p].req.execute == s.payments[p].req.execute
  {
    if step.Advance? && step.pa == p {
      NextKeepsExecute(c, s, s.payments[p], step.oracle);
    }
  }

  lemma EarlyKeepsExecute(c: Config, s: State, v: Payment, o: Oracle)
    requires IsEarly(v.req.pc)
    ensures Next(c, s, v, o).pay.req.execute == v.req.execute
  {
  }

  lemma WritingKeepsExecute(c: Config, s: State, v: Payment, o: Oracle)
    requires WritesRow(v.req.pc)
    ensures Next(c, s, v, o).pay.req.execute == v.req.execute
  {
  }

  lemma NextKeepsExecute(c: Config, s: State, v: Payment, o: Oracle)
    ensures Next(c, s, v, o).pay.req.execute == v.req.execute
  {
    if IsEarly(v.req.pc) {
      EarlyKeepsExecute(c, s, v, o);
    } else if WritesRow(v.req.pc) {
      WritingKeepsExecute(c, s, v, o);
    }
  }

  /** Rows and requests of t go on from those of s. */
  predicate GoesOn(c: Config, s: State, t: State) {
    && Evolved(c, s, t)
    && forall p | p in s.payments :: p in t.payments && t.payments[p].req.execute == s.payments[p].req.execute
  }

  lemma GivenStays(c: Config, s: State, t: State, q: nat, reply: Reply, user: nat, key: nat, payload: nat)
    requires GoesOn(c, s, t) && GivenBy(s, q, reply, user, key, payload)
    ensures GivenBy(t, q, reply, user, key, payload)
  {
    assert Evolves(s.payments[q], t.payments[q]);
    VouchedStays(reply, RowOf(s, q), RowOf(t, q), s.payments[q].req.execute);
  }

  lemma SourcedStays(c: Config, s: State, t: State, k: Key, value: Value)
    requires GoesOn(c, s, t) && Sourced(s, k, value)
    ensures Sourced(t, k, value)
  {
    match k
    case IdemKey(user, key) => GivenStays(c, s, t, value.reply.pa, value.reply, user, key, value.payload);
    case _ => assert Evolves(s.payments[value.pa], t.payments[value.pa]);
  }

  lemma CauseStays(c: Config, s: State, t: State, v: Payment, w: Payment)
    requires GoesOn(c, s, t) && HasCause(c, s, v) && w.req.txn == v.req.txn
    ensures HasCause(c, t, w)
  {
    var q :| KeyReused(s, v, q) || SameAgain(c, s, v, q);
    assert Evolves(s.payments[q], t.payments[q]);
    assert KeyReused(t, w, q) || SameAgain(c, t, w, q);
  }

  /** A request that looks for nothing new and finds nothing new. */
  predicate LooksNoFurther(r: Request, q: Request) {
    && q.txn == r.txn && q.conflict == r.conflict
    && (Unchecked(q.pc) ==> Unchecked(r.pc))
    && (q.pc == Remember ==> q.decision != RequireApproval)
    && (q.pc == Reserve ==> q.decision == Allow)
    && (q.pc.Replay? ==> q.pc == r.pc)
    && (Concluded(q.pc) && Standing(q) && q.reply.replayed ==> Concluded(r.pc) && Standing(r) && q.reply == r.reply)
  }

  lemma FoundStays(c: Config, s: State, t: State, v: Payment, w: Payment)
    requires GoesOn(c, s, t) && FoundOk(c, s, v) && LooksNoFurther(v.req, w.req)
    ensures FoundOk(c, t, w)
  {
    var r, o := w.req, w.req.txn.order;
    if r.conflict {
      CauseStays(c, s, t, v, w);
    }
    if r.pc.Replay? {
      GivenStays(c, s, t, r.pc.stored.pa, r.pc.stored, o.user, o.key, o.payload);
    }
    if Concluded(r.pc) && Standing(r) && r.reply.replayed {
      GivenStays(c, s, t, r.reply.pa, r.reply.(replayed := false), o.user, o.key, o.payload);
    }
  }

  // ---------------------------------------------------------------- a request's own step

  /** Everything in the store is sourced, and this payment is one of those here. */
  ghost predicate Here(c: Config, s: State, v: Payment) {
    && RecordsOk(c, s) && PaymentsOk(c, s)
    && v.req.txn.pa in s.payments && s.payments[v.req.txn.pa] == v
  }

  /** Nothing, the same question, or another one. */
  lemma KeyCheckResults(c: Config, s: State, v: Payment, o: Oracle)
    requires v.req.pc.CheckIdem?
    ensures var k, w := IdemKeyOf(v.req.txn), Next(c, s, v, o).pay;
            && w.row == v.row && w.req.txn == v.req.txn && w.req.decision == v.req.decision && w.req.execute == v.req.execute
            && (if !Alive(s.kv, k, s.now) then w.req == v.req.(pc := CheckFp)
                else if s.kv[k].value.Outcome? && s.kv[k].value.payload == v.req.txn.order.payload
                then w.req == v.req.(pc := Pc.Replay(s.kv[k].value.reply))
                else w.req == v.req.(pc := Pc.Decide, conflict := true))
  {
  }

  lemma KeyCheckFinds(c: Config, s: State, v: Payment, o: Oracle)
    requires Here(c, s, v) && v.req.pc.CheckIdem?
    ensures FoundOk(c, s, Next(c, s, v, o).pay)
  {
    assert PaymentOk(c, v) && FoundOk(c, s, v);
    var k, w := IdemKeyOf(v.req.txn), Next(c, s, v, o).pay;
    KeyCheckResults(c, s, v, o);
    if Alive(s.kv, k, s.now) {
      assert Sourced(s, k, s.kv[k].value);
      if w.req.conflict {
        assert KeyReused(s, w, s.kv[k].value.reply.pa);
        ConflictFinds(c, s, v, w);
      } else {
        ReplayFound(c, s, v, w, s.kv[k].value);
      }
    }
  }

  lemma ConflictFinds(c: Config, s: State, v: Payment, w: Payment)
    requires FoundOk(c, s, v) && v.req.pc.CheckIdem? && HasCause(c, s, w)
    requires w.req == v.req.(pc := Pc.Decide, conflict := true)
    ensures FoundOk(c, s, w)
  {
  }

  lemma ReplayFound(c: Config, s: State, v: Payment, w: Payment, found: Value)
    requires FoundOk(c, s, v) && v.req.pc.CheckIdem? && Sourced(s, IdemKeyOf(v.req.txn), found)
    requires found.payload == v.req.txn.order.payload && w.req == v.req.(pc := Pc.Replay(found.reply))
    ensures FoundOk(c, s, w)
  {
  }

  lemma SlotCheckFinds(c: Config, s: State, v: Payment, o: Oracle)
    requires Here(c, s, v) && v.req.pc.CheckFp?
    ensures FoundOk(c, s, Next(c, s, v, o).pay)
  {
    assert PaymentOk(c, v) && FoundOk(c, s, v);
    var k, w := SlotKeyOf(v.req.txn), Next(c, s, v, o).pay;
    if w.req.conflict {
      assert Sourced(s, k, s.kv[k].value);
      var q := s.kv[k].value.pa;
      assert FoundOk(c, s, s.payments[q]) && PaymentOk(c, s.payments[q]);
      SameFingerprint(c, s, w, q);
    }
  }

  lemma SameFingerprint(c: Config, s: State, v: Payment, q: nat)
    requires FoundFp(c, v) && q in s.payments && FoundFp(c, s.payments[q]) && PaymentOk(c, s.payments[q])
    requires Granted(s.payments[q]) && s.payments[q].req.txn.fp == v.req.txn.fp && q != v.req.txn.pa
    ensures SameAgain(c, s, v, q)
  {
    var x, y := s.payments[q].req.txn, v.req.txn;
    SameFingerprintIff(x.order, x.arrived, y.order, y.arrived, c.window);
  }

  predicate FoundFp(c: Config, v: Payment) {
    v.req.txn.fp == FingerprintOf(v.req.txn.order, v.req.txn.arrived, c.window)
  }

  lemma ReplayFinds(c: Config, s: State, v: Payment, o: Oracle)
    requires FoundOk(c, s, v) && v.req.pc.Replay?
    ensures FoundOk(c, s, Next(c, s, v, o).pay)
  {
  }

  lemma WaitingLooksNoFurther(c: Config, s: State, v: Payment, o: Oracle)
    requires PaymentOk(c, v) && ReplyOk(v) && (v.req.pc.WaitIdem? || v.req.pc.WaitFp?)
    ensures LooksNoFurther(v.req, Next(c, s, v, o).pay.req)
  {
  }

  lemma DecidingLooksNoFurther(c: Config, s: State, v: Payment, o: Oracle)
    requires PaymentOk(c, v) && ReplyOk(v) && (v.req.pc.Decide? || v.req.pc.Insert? || v.req.pc.Blocking?)
    ensures LooksNoFurther(v.req, Next(c, s, v, o).pay.req)
  {
  }

  lemma MintingLooksNoFurther(c: Config, s: State, v: Payment, o: Oracle)
    requires PaymentOk(c, v) && ReplyOk(v) && (v.req.pc.Minting? || v.req.pc.Consuming?)
    ensures LooksNoFurther(v.req, Next(c, s, v, o).pay.req)
  {
  }

  lemma MovingLooksNoFurther(c: Config, s: State, v: Payment, o: Oracle)
    requires PaymentOk(c, v) && ReplyOk(v) && (v.req.pc.Moving?)
    ensures LooksNoFurther(v.req, Next(c, s, v, o).pay.req)
  {
  }

  lemma AuditingLooksNoFurther(c: Config, s: State, v: Payment, o: Oracle)
    requires PaymentOk(c, v) && ReplyOk(v) && (v.req.pc.Auditing?)
    ensures LooksNoFurther(v.req, Next(c, s, v, o).pay.req)
  {
  }

  lemma TalkingLooksNoFurther(c: Config, s: State, v: Payment, o: Oracle)
    requires PaymentOk(c, v) && ReplyOk(v) && (v.req.pc.Posting? || v.req.pc.Awaiting?)
    ensures LooksNoFurther(v.req, Next(c, s, v, o).pay.req)
  {
  }

  lemma ConcludingLooksNoFurther(c: Config, s: State, v: Payment, o: Oracle)
    requires PaymentOk(c, v) && ReplyOk(v) && (v.req.pc.LogDecision? || v.req.pc.Remember? || v.req.pc.Reserve?)
    ensures LooksNoFurther(v.req, Next(c, s, v, o).pay.req)
  {
  }

  lemma LeavingLooksNoFurther(c: Config, s: State, v: Payment, o: Oracle)
    requires PaymentOk(c, v) && ReplyOk(v) && (v.req.pc.LeaveFp? || v.req.pc.LeaveIdem? || v.req.pc.Done?)
    ensures LooksNoFurther(v.req, Next(c, s, v, o).pay.req)
  {
  }

  lemma RestLooksNoFurther(c: Config, s: State, v: Payment, o: Oracle)
    requires PaymentOk(c, v) && ReplyOk(v) && !v.req.pc.CheckIdem? && !v.req.pc.CheckFp? && !v.req.pc.Replay?
    ensures LooksNoFurther(v.req, Next(c, s, v, o).pay.req)
  {
    match v.req.pc
    case WaitIdem => WaitingLooksNoFurther(c, s, v, o);
    case WaitFp => WaitingLooksNoFurther(c, s, v, o);
    case Decide => DecidingLooksNoFurther(c, s, v, o);
    case Insert => DecidingLooksNoFurther(c, s, v, o);
    case Blocking => DecidingLooksNoFurther(c, s, v, o);
    case Minting => MintingLooksNoFurther(c, s, v, o);
    case Consuming => MintingLooksNoFurther(c, s, v, o);
    case Moving(_, _) => MovingLooksNoFurther(c, s, v, o);
    case Auditing(_, _) => AuditingLooksNoFurther(c, s, v, o);
    case Posting => TalkingLooksNoFurther(c, s, v, o);
    case Awaiting(_) => TalkingLooksNoFurther(c, s, v, o);
    case LogDecision => ConcludingLooksNoFurther(c, s, v, o);
    case Remember => ConcludingLooksNoFurther(c, s, v, o);
    case Reserve => ConcludingLooksNoFurther(c, s, v, o);
    case _ => LeavingLooksNoFurther(c, s, v, o);
  }

  lemma AdvanceFinds(c: Config, s: State, p: nat, o: Oracle)
    requires Inv(c, s) && AllRepliesOk(s) && RecordsOk(c, s) && p in s.payments
    requires GoesOn(c, s, DoAdvance(c, s, p, o))
    ensures FoundOk(c, DoAdvance(c, s, p, o), Next(c, s, s.payments[p], o).pay)
  {
    var v, t := s.payments[p], DoAdvance(c, s, p, o);
    var w := Next(c, s, v, o).pay;
    assert PaymentOk(c, v) && ReplyOk(v) && FoundOk(c, s, v) && v.req.txn.pa == p;
    if v.req.pc.CheckIdem? || v.req.pc.CheckFp? || v.req.pc.Replay? {
      if v.req.pc.CheckIdem? {
        KeyCheckFinds(c, s, v, o);
      } else if v.req.pc.CheckFp? {
        SlotCheckFinds(c, s, v, o);
      } else {
        ReplayFinds(c, s, v, o);
      }
      FoundStays(c, s, t, w, w);
    } else {
      RestLooksNoFurther(c, s, v, o);
      FoundStays(c, s, t, v, w);
    }
  }

  /** What a step puts into the store is its own. */
  lemma NextStores(c: Config, s: State, v: Payment, o: Oracle, k: Key)
    requires k in Next(c, s, v, o).kv && !(k in s.kv && Next(c, s, v, o).kv[k] == s.kv[k])
    ensures var e := Next(c, s, v, o).kv[k];
            || (k == IdemLock(v.req.txn.order.user, v.req.txn.order.key) && e.value == Holder(v.req.txn.pa))
            || (k == FpLock(v.req.txn.order.user, v.req.txn.fp) && e.value == Holder(v.req.txn.pa))
            || (v.req.pc == Remember && k == IdemKey(v.req.txn.order.user, v.req.txn.order.key)
                && e.value == Outcome(v.req.txn.order.payload, v.req.reply))
            || (v.req.pc == Reserve && k == SlotKey(v.req.txn.fp) && e.value == Slot(v.req.txn.pa))
  {
  }

  lemma StoredIsSourced(c: Config, s: State, p: nat, o: Oracle, k: Key)
    requires Inv(c, s) && AllRepliesOk(s) && RecordsOk(c, s) && p in s.payments
    requires GoesOn(c, s, DoAdvance(c, s, p, o)) && k in DoAdvance(c, s, p, o).kv
    ensures Sourced(DoAdvance(c, s, p, o), k, DoAdvance(c, s, p, o).kv[k].value)
  {
    var v, t := s.payments[p], DoAdvance(c, s, p, o);
    assert PaymentOk(c, v) && ReplyOk(v) && FoundOk(c, s, v) && v.req.txn.pa == p;
    if k in s.kv && t.kv[k] == s.kv[k] {
      SourcedStays(c, s, t, k, s.kv[k].value);
    } else {
      NextStores(c, s, v, o, k);
      assert Sourced(s, k, t.kv[k].value);
      SourcedStays(c, s, t, k, t.kv[k].value);
    }
  }

  lemma GoesOnStep(c: Config, s: State, step: Step)
    requires Inv(c, s)
    ensures GoesOn(c, s, Do(c, s, step))
  {
    StepPayments(c, s, step);
    forall p | p in s.payments
      ensures p in Do(c, s, step).payments && Do(c, s, step).payments[p].req.execute == s.payments[p].req.execute
    {
      ExecuteStays(c, s, step, p);
    }
  }

  lemma AdvanceRecords(c: Config, s: State, p: nat, o: Oracle)
    requires Inv(c, s) && AllRepliesOk(s) && RecordsOk(c, s) && p in s.payments
    ensures RecordsOk(c, DoAdvance(c, s, p, o))
  {
    var t := DoAdvance(c, s, p, o);
    GoesOnStep(c, s, Advance(p, o));
    forall k | k in t.kv ensures Sourced(t, k, t.kv[k].value) {
      StoredIsSourced(c, s, p, o, k);
    }
    AdvanceFinds(c, s, p, o);
    forall q | q in t.payments ensures FoundOk(c, t, t.payments[q]) {
      if q != p {
        FoundStays(c, s, t, s.payments[q], t.payments[q]);
      }
    }
  }

  // ---------------------------------------------------------------- any step

  lemma FailLooksNoFurther(c: Config, s: State, p: nat, timedOut: bool)
    requires p in s.payments && FoundOk(c, s, s.payments[p])
    ensures LooksNoFurther(s.payments[p].req, Failing(s.payments[p].req, timedOut))
  {
  }

  lemma QuietRequests(c: Config, s: State, step: Step, p: nat)
    requires !step.Advance? && p in s.payments && FoundOk(c, s, s.payments[p])
    ensures p in Do(c, s, step).payments && LooksNoFurther(s.payments[p].req, Do(c, s, step).payments[p].req)
  {
    if step.Fail? {
      FailLooksNoFurther(c, s, p, step.timedOut);
    } else if step.Deliver? {
      DeliverLooksNoFurther(c, s, step.pa, step.how, step.reference, p);
    }
  }

  lemma DeliverLooksNoFurther(c: Config, s: State, p: nat, how: Behaviour, reference: nat, q: nat)
    requires q in s.payments && FoundOk(c, s, s.payments[q])
    ensures var t := DoDeliver(s, p, how, reference); q in t.payments && LooksNoFurther(s.payments[q].req, t.payments[q].req)
  {
  }

  lemma Newcomers(c: Config, s: State, step: Step, p: nat)
    requires p !in s.payments && p in Do(c, s, step).payments
    ensures FoundOk(c, Do(c, s, step), Do(c, s, step).payments[p])
  {
  }

  lemma QuietStore(c: Config, s: State, step: Step)
    requires !step.Advance?
    ensures Do(c, s, step).kv == s.kv
  {
  }

  lemma OtherRecords(c: Config, s: State, step: Step)
    requires Inv(c, s) && RecordsOk(c, s) && !step.Advance?
    ensures RecordsOk(c, Do(c, s, step))
  {
    var t := Do(c, s, step);
    GoesOnStep(c, s, step);
    QuietStore(c, s, step);
    forall k | k in t.kv ensures Sourced(t, k, t.kv[k].value) {
      SourcedStays(c, s, t, k, s.kv[k].value);
    }
    forall p | p in t.payments ensures FoundOk(c, t, t.payments[p]) {
      if p in s.payments {
        QuietRequests(c, s, step, p);
        FoundStays(c, s, t, s.payments[p], t.payments[p]);
      } else {
        Newcomers(c, s, step, p);
      }
    }
  }

  lemma StepRecords(c: Config, s: State, step: Step)
    requires Inv(c, s) && AllRepliesOk(s) && RecordsOk(c, s)
    ensures RecordsOk(c, Do(c, s, step))
  {
    if step.Advance? {
      if step.pa in s.payments {
        AdvanceRecords(c, s, step.pa, step.oracle);
      }
    } else {
      OtherRecords(c, s, step);
    }
  }

  lemma {:induction false} RunRecords(c: Config, s: State, steps: seq<Step>)
    requires Inv(c, s) && AllRepliesOk(s) && RecordsOk(c, s)
    ensures RecordsOk(c, Run(c, s, steps))
    decreases |steps|
  {
    if steps != [] {
      StepInv(c, s, steps[0]);
      StepReplies(c, s, steps[0]);
      StepRecords(c, s, steps[0]);
      RunRecords(c, Do(c, s, steps[0]), steps[1..]);
    }
  }

  lemma ReachableRecords(c: Config, s: State)
    requires Reachable(c, s)
    ensures Inv(c, s) && AllRepliesOk(s) && RecordsOk(c, s)
  {
    var now, steps :| s == Run(c, Init(now), steps);
    ReachableReplies(c, s);
    RunRecords(c, Init(now), steps);
  }

  // ---------------------------------------------------------------- what was asked for

  lemma {:induction false} RunKeepsRequest(c: Config, s: State, steps: seq<Step>, p: nat)
    requires Inv(c, s) && p in s.payments
    ensures var u := Run(c, s, steps);
            p in u.payments && u.payments[p].req.txn == s.payments[p].req.txn && u.payments[p].req.execute == s.payments[p].req.execute
    decreases |steps|
  {
    if steps != [] {
      GoesOnStep(c, s, steps[0]);
      StepInv(c, s, steps[0]);
      RunKeepsRequest(c, Do(c, s, steps[0]), steps[1..], p);
    }
  }

  /** A request stays what it was when it came: its order, when it came, and whether it wants to be
      executed. One that does not is never POSTed or charged, whatever happens. */
  lemma RequestsAreKept(c: Config, s: State, p: nat, order: Order, execute: bool, steps: seq<Step>)
    requires Reachable(c, s) && p !in s.payments && p in Do(c, s, Arrive(p, order, execute)).payments
    ensures var u := Run(c, Do(c, s, Arrive(p, order, execute)), steps);
            && p in u.payments && u.payments[p].req.txn.order == order && u.payments[p].req.txn.arrived == s.now
            && u.payments[p].req.execute == execute
            && (!execute ==> u.payments[p].posts == 0 && !IsPaid(u.payments[p].charge))
  {
    var t := Do(c, s, Arrive(p, order, execute));
    ReachableStep(c, s, Arrive(p, order, execute));
    ReachableReplies(c, t);
    RunKeepsRequest(c, t, steps, p);
    RunInv(c, t, steps);
    RunReplies(c, t, steps);
    assert PaymentOk(c, Run(c, t, steps).payments[p]) && ReplyOk(Run(c, t, steps).payments[p]);
  }

  // ---------------------------------------------------------------- what is found is so

  /** A request is called a duplicate only if it is one: its key was used for another payload, or an
      allowed payment agrees with it in user, merchant, cart, amount as written, currency and window. */
  lemma ConflictHasCause(c: Config, s: State, p: nat)
    requires Reachable(c, s) && p in s.payments && s.payments[p].req.conflict
    ensures var t := s.payments[p].req.txn;
            exists q :: HasRow(s, q) && q != p &&
              var u := RowOf(s, q).txn;
              || (u.order.user == t.order.user && u.order.key == t.order.key && u.order.payload != t.order.payload
                  && RowOf(s, q).decision != RequireApproval)
              || (RowOf(s, q).decision == Allow && u.order.user == t.order.user && u.order.merchant == t.order.merchant
                  && u.order.cart == t.order.cart && u.order.amount == t.order.amount && u.order.rendering == t.order.rendering
                  && u.order.currency == t.order.currency && u.arrived / c.window == t.arrived / c.window)
  {
    ReachableRecords(c, s);
    var v := s.payments[p];
    assert FoundOk(c, s, v) && v.req.txn.pa == p;
    var q :| KeyReused(s, v, q) || SameAgain(c, s, v, q);
    assert HasRow(s, q);
  }

  /** A replayed answer was given to a request of the same user, key and payload, is true of that
      request's payment, and was not an interim one; the replaying request has no payment of its own. */
  lemma ReplaysAreTrue(c: Config, s: State, p: nat)
    requires Reachable(c, s) && p in s.payments && Concluded(s.payments[p].req.pc) && Standing(s.payments[p].req)
    requires s.payments[p].req.reply.replayed
    ensures var v, q := s.payments[p], s.payments[p].req.reply.pa;
            && v.row.None? && v.posts == 0 && HasRow(s, q) && q != p && RowOf(s, q).decision != RequireApproval
            && RowOf(s, q).txn.order.user == v.req.txn.order.user && RowOf(s, q).txn.order.key == v.req.txn.order.key
            && RowOf(s, q).txn.order.payload == v.req.txn.order.payload
            && v.req.reply.decision == RowOf(s, q).decision && v.req.reply.state in RowOf(s, q).history
            && (v.req.reply.state == Confirmed || v.req.reply.state == Failed ==> RowOf(s, q).state == v.req.reply.state)
            && (v.req.reply.state == Confirmed ==> RowOf(s, q).reference == v.req.reply.reference)
  {
    ReachableRecords(c, s);
    var v := s.payments[p];
    assert FoundOk(c, s, v) && ReplyOk(v) && PaymentOk(c, v);
  }

  /** Whoever has to wait for the first lock waits for a request of the same user and key. */
  lemma WaitsForSameKey(c: Config, s: State, p: nat)
    requires Reachable(c, s) && p in s.payments && s.payments[p].req.pc == WaitIdem
    requires Alive(s.kv, IdemLockOf(s.payments[p].req.txn), s.now)
    ensures exists q :: q in s.payments &&
              var a, b := s.payments[p].req.txn.order, s.payments[q].req.txn.order;
              a.user == b.user && a.key == b.key
  {
    ReachableRecords(c, s);
    var k := IdemLockOf(s.payments[p].req.txn);
    assert Sourced(s, k, s.kv[k].value);
    assert s.kv[k].value.pa in s.payments;
  }

  /** And for the second, for one of the same purchase, the amount written alike. */
  lemma WaitsForSamePurchase(c: Config, s: State, p: nat)
    requires Reachable(c, s) && p in s.payments && s.payments[p].req.pc == WaitFp
    requires Alive(s.kv, FpLockOf(s.payments[p].req.txn), s.now)
    ensures exists q :: q in s.payments &&
              var a, b := s.payments[p].req.txn, s.payments[q].req.txn;
              && a.order.user == b.order.user && a.order.merchant == b.order.merchant && a.order.cart == b.order.cart
              && a.order.amount == b.order.amount && a.order.rendering == b.order.rendering && a.order.currency == b.order.currency
              && a.arrived / c.window == b.arrived / c.window
  {
    ReachableRecords(c, s);
    var k := FpLockOf(s.payments[p].req.txn);
    assert Sourced(s, k, s.kv[k].value);
    var q := s.kv[k].value.pa;
    assert FoundOk(c, s, s.payments[p]) && FoundOk(c, s, s.payments[q]);
    var a, b := s.payments[p].req.txn, s.payments[q].req.txn;
    SameFingerprintIff(a.order, a.arrived, b.order, b.arrived, c.window);
  }
}
