/** What every step of the payment protocol keeps, one payment at a time. */
module Invariant {
  import opened Options
  import opened Lifecycle
  import opened Canonical
  import opened Provider
  import opened TimedStore
  import opened Protocol

  predicate Early(pc: Pc) {
    Unchecked(pc) || pc == Decide || pc == Insert
  }

  /** Steps that are only reached after the row was inserted. */
  predicate NeedsRow(pc: Pc) {
    match pc
    case Blocking => true
    case Minting => true
    case Moving(_, _) => true
    case Auditing(_, _) => true
    case Consuming => true
    case Posting => true
    case Awaiting(_) => true
    case LogDecision => true
    case Remember => true
    case Reserve => true
    case _ => false
  }

  /** The environment behaves as agreement with the provider needs. */
  predicate Orderly(c: Config) {
    !c.lateDelivery && !c.shortHang
  }

  /** Money that has left may still be on its way to being known, but is not written off. */
  predicate NotWrittenOff(state: PaymentState, charge: Option<Charge>) {
    IsPaid(charge) ==> state == Submitted || state == Timeout || state == Unknown || state == Confirmed
  }

  /** No success without money. */
  predicate NotInvented(state: PaymentState, charge: Option<Charge>) {
    state == Confirmed ==> IsPaid(charge)
  }

  /** Gateway and provider agree about one payment. */
  predicate Agrees(state: PaymentState, charge: Option<Charge>) {
    NotWrittenOff(state, charge) && NotInvented(state, charge)
  }

  /** States in which no POST has been made. */
  predicate Unsent(s: PaymentState) {
    s == Created || s == Authorized || s == Expired
  }

  predicate HistoryOk(row: Row) {
    IsHistory(row.history) && row.history[|row.history| - 1] == row.state
  }

  /** What a row says about the decision, the POST and the charge. */
  predicate RowOk(c: Config, v: Payment, row: Row) {
    && row.txn == v.req.txn && row.decision == v.req.decision && !Early(v.req.pc) && row.uses <= 1
    && (row.decision == Block ==> row.state == Created || row.state == Failed)
    && (row.decision == RequireApproval ==> row.state == Created)
    && (v.posts == 1 ==> row.decision == Allow && row.uses == 1 && !Unsent(row.state))
    && (row.state == Timeout || row.state == Unknown || row.state == Confirmed ==> v.posts == 1)
    && (row.state == Failed && row.decision == Allow ==> v.posts == 1)
    && (row.decision == Allow && row.state != Created ==> row.expires.Some?)
    && (v.flying.Some? && !c.lateDelivery ==> row.state == Submitted)
    && (!c.lateDelivery ==> NotWrittenOff(row.state, v.charge))
    && (!c.shortHang ==> NotInvented(row.state, v.charge))
  }

  predicate PostOk(v: Payment) {
    && v.posts <= 1
    && (v.posts == 0 ==> v.flying.None? && v.charge.None?)
    && (v.flying.Some? ==>
          v.charge.None? && v.req.token.Some? && v.flying.value == PostOf(v.req.txn, v.req.token.value))
    && (IsPaid(v.charge) ==>
          var order := v.req.txn.order;
          v.charge.value == Charged(v.charge.value.reference, order.amount, order.currency, order.merchant))
  }

  /** The token in hand is the one the row was given, and bound to this order. */
  predicate TokenOk(v: Payment) {
    v.req.token.Some? ==>
      var token, order := v.req.token.value, v.req.txn.order;
      && token.pa == v.req.txn.pa && token.merchant == order.merchant && token.amount == order.amount
      && token.currency == order.currency && token.cart == order.cart
      && v.row.Some? && v.row.value.jti == Some(token.jti) && v.row.value.expires == Some(token.expires)
  }

  predicate AnswerFits(answer: Answer, charge: Option<Charge>) {
    answer.AnsweredConfirmed? <==> IsPaid(charge)
  }

  /** Authorized, nothing sent yet; the token may run out under the request's feet. */
  predicate Holding(v: Payment, row: Row, uses: nat) {
    v.posts == 0 && row.decision == Allow && (row.state == Authorized || row.state == Expired) && row.uses == uses && v.req.token.Some?
  }

  predicate Sent(v: Payment, row: Row, state: PaymentState) {
    v.posts == 1 && row.state == state
  }

  /** What the program counter of a request promises about its row and its POST. */
  predicate PcOk(c: Config, v: Payment, row: Row) {
    match v.req.pc
    case Blocking => row.decision == Block && row.state == Created
    case Minting => v.posts == 0 && row.decision == Allow && row.state == Created && row.uses == 0
    case Moving(to, _) => (
      match to
      case Authorized =>
        && v.posts == 0 && row.decision == Allow && row.state == Created && row.uses == 0
        && v.req.token.Some? && row.expires.Some?
      case Submitted => Holding(v, row, 1)
      case Timeout => Sent(v, row, Submitted) && (c.lateDelivery || v.flying.None?)
      case Unknown => Sent(v, row, Timeout)
      case Confirmed => Sent(v, row, Submitted) && v.flying.None? && (c.shortHang || IsPaid(v.charge))
      case Failed => Sent(v, row, Submitted) && v.flying.None? && !IsPaid(v.charge)
      case _ => false
      )
    case Auditing(_, to) => (
      match to
      case Authorized => Holding(v, row, 0)
      case Submitted => v.posts == 0 && row.state == Submitted && row.uses == 1 && row.decision == Allow && v.req.token.Some?
      case Timeout => Sent(v, row, Timeout)
      case _ => v.posts == 1 && (to == Unknown || to == Confirmed || to == Failed)
      )
    case Consuming => Holding(v, row, 0)
    case Posting => v.posts == 0 && row.state == Submitted && row.uses == 1 && row.decision == Allow && v.req.token.Some?
    case Awaiting(answer) =>
      && Sent(v, row, Submitted)
      && (if answer.None? then v.flying.Some? else v.flying.None? && AnswerFits(answer.value, v.charge))
    case Reserve => row.decision == Allow
    case _ => true
  }

  predicate PaymentOk(c: Config, v: Payment) {
    && PostOk(v) && TokenOk(v)
    && (v.row.Some? ==> HistoryOk(v.row.value) && RowOk(c, v, v.row.value) && PcOk(c, v, v.row.value))
    && (v.row.None? ==> v.posts == 0 && !NeedsRow(v.req.pc))
  }

  // ---------------------------------------------------------------- steps of a request

  lemma MovedHistory(row: Row, to: PaymentState, ref: Option<nat>)
    requires HistoryOk(row) && CanMove(row.state, to)
    ensures HistoryOk(Moved(row, to, ref))
  {
    ExtendHistory(row.history, to);
  }

  lemma WaitingOk(c: Config, s: State, v: Payment, o: Oracle)
    requires PaymentOk(c, v) && (v.req.pc.WaitIdem? || v.req.pc.WaitFp?)
    ensures PaymentOk(c, Next(c, s, v, o).pay)
  {
  }

  lemma CheckingOk(c: Config, s: State, v: Payment, o: Oracle)
    requires PaymentOk(c, v) && (v.req.pc.CheckIdem? || v.req.pc.CheckFp? || v.req.pc.Decide?)
    ensures PaymentOk(c, Next(c, s, v, o).pay)
  {
  }

  lemma InsertOk(c: Config, s: State, v: Payment, o: Oracle)
    requires PaymentOk(c, v) && (v.req.pc.Insert?)
    ensures PaymentOk(c, Next(c, s, v, o).pay)
  {
  }

  lemma BlockingOk(c: Config, s: State, v: Payment, o: Oracle)
    requires PaymentOk(c, v) && (v.req.pc.Blocking?)
    ensures PaymentOk(c, Next(c, s, v, o).pay)
  {
    MovedHistory(v.row.value, Failed, None);
  }

  lemma MintingOk(c: Config, s: State, v: Payment, o: Oracle)
    requires PaymentOk(c, v) && (v.req.pc.Minting?)
    ensures PaymentOk(c, Next(c, s, v, o).pay)
  {
  }

  lemma MovingOutOk(c: Config, s: State, v: Payment, o: Oracle)
    requires PaymentOk(c, v) && (v.req.pc.Moving? && (v.req.pc.to == Authorized || v.req.pc.to == Submitted))
    ensures PaymentOk(c, Next(c, s, v, o).pay)
  {
    if CanMove(v.row.value.state, v.req.pc.to) {
      MovedHistory(v.row.value, v.req.pc.to, v.req.pc.ref);
    }
  }

  lemma MovingAsideOk(c: Config, s: State, v: Payment, o: Oracle)
    requires PaymentOk(c, v) && (v.req.pc.Moving? && (v.req.pc.to == Timeout || v.req.pc.to == Unknown))
    ensures PaymentOk(c, Next(c, s, v, o).pay)
  {
    if CanMove(v.row.value.state, v.req.pc.to) {
      MovedHistory(v.row.value, v.req.pc.to, v.req.pc.ref);
    }
  }

  lemma MovingHomeOk(c: Config, s: State, v: Payment, o: Oracle)
    requires PaymentOk(c, v) && (v.req.pc.Moving? && (v.req.pc.to == Confirmed || v.req.pc.to == Failed))
    ensures PaymentOk(c, Next(c, s, v, o).pay)
  {
    if CanMove(v.row.value.state, v.req.pc.to) {
      MovedHistory(v.row.value, v.req.pc.to, v.req.pc.ref);
    }
  }

  lemma AuditingOutOk(c: Config, s: State, v: Payment, o: Oracle)
    requires PaymentOk(c, v) && (v.req.pc.Auditing? && (v.req.pc.after == Authorized || v.req.pc.after == Submitted))
    ensures PaymentOk(c, Next(c, s, v, o).pay)
  {
  }

  lemma AuditingAsideOk(c: Config, s: State, v: Payment, o: Oracle)
    requires PaymentOk(c, v) && (v.req.pc.Auditing? && (v.req.pc.after == Timeout || v.req.pc.after == Unknown))
    ensures PaymentOk(c, Next(c, s, v, o).pay)
  {
  }

  lemma AuditingHomeOk(c: Config, s: State, v: Payment, o: Oracle)
    requires PaymentOk(c, v) && (v.req.pc.Auditing? && v.req.pc.after != Authorized && v.req.pc.after != Submitted && v.req.pc.after != Timeout && v.req.pc.after != Unknown)
    ensures PaymentOk(c, Next(c, s, v, o).pay)
  {
  }

  lemma ConsumingOk(c: Config, s: State, v: Payment, o: Oracle)
    requires PaymentOk(c, v) && (v.req.pc.Consuming?)
    ensures PaymentOk(c, Next(c, s, v, o).pay)
  {
  }

  lemma PostingOk(c: Config, s: State, v: Payment, o: Oracle)
    requires PaymentOk(c, v) && (v.req.pc.Posting?)
    ensures PaymentOk(c, Next(c, s, v, o).pay)
  {
  }

  lemma TimingOutOk(c: Config, s: State, v: Payment, o: Oracle)
    requires PaymentOk(c, v) && (v.req.pc.Awaiting? && !o.ok)
    ensures PaymentOk(c, Next(c, s, v, o).pay)
  {
  }

  lemma ReceivingOk(c: Config, s: State, v: Payment, o: Oracle)
    requires PaymentOk(c, v) && (v.req.pc.Awaiting? && o.ok)
    ensures PaymentOk(c, Next(c, s, v, o).pay)
  {
  }

  lemma LoggingOk(c: Config, s: State, v: Payment, o: Oracle)
    requires PaymentOk(c, v) && v.req.pc.LogDecision?
    ensures PaymentOk(c, Next(c, s, v, o).pay)
  {
  }

  lemma MemoisingOk(c: Config, s: State, v: Payment, o: Oracle)
    requires PaymentOk(c, v) && (v.req.pc.Remember? || v.req.pc.Reserve?)
    ensures PaymentOk(c, Next(c, s, v, o).pay)
  {
  }

  lemma ReplayingOk(c: Config, s: State, v: Payment, o: Oracle)
    requires PaymentOk(c, v) && (v.req.pc.Replay? || v.req.pc.Done?)
    ensures PaymentOk(c, Next(c, s, v, o).pay)
  {
  }

  lemma LeavingOk(c: Config, s: State, v: Payment, o: Oracle)
    requires PaymentOk(c, v) && (v.req.pc.LeaveFp? || v.req.pc.LeaveIdem?)
    ensures PaymentOk(c, Next(c, s, v, o).pay)
  {
  }

  lemma NextOk(c: Config, s: State, v: Payment, o: Oracle)
    requires PaymentOk(c, v)
    ensures PaymentOk(c, Next(c, s, v, o).pay)
  {
    match v.req.pc
    case WaitIdem => WaitingOk(c, s, v, o);
    case WaitFp => WaitingOk(c, s, v, o);
    case CheckIdem => CheckingOk(c, s, v, o);
    case CheckFp => CheckingOk(c, s, v, o);
    case Decide => CheckingOk(c, s, v, o);
    case Insert => InsertOk(c, s, v, o);
    case Blocking => BlockingOk(c, s, v, o);
    case Minting => MintingOk(c, s, v, o);
    case Moving(to, _) =>
      if to == Authorized || to == Submitted {
        MovingOutOk(c, s, v, o);
      } else if to == Timeout || to == Unknown {
        MovingAsideOk(c, s, v, o);
      } else {
        MovingHomeOk(c, s, v, o);
      }
    case Auditing(_, to) =>
      if to == Authorized || to == Submitted {
        AuditingOutOk(c, s, v, o);
      } else if to == Timeout || to == Unknown {
        AuditingAsideOk(c, s, v, o);
      } else {
        AuditingHomeOk(c, s, v, o);
      }
    case Consuming => ConsumingOk(c, s, v, o);
    case Posting => PostingOk(c, s, v, o);
    case Awaiting(_) =>
      if o.ok {
        ReceivingOk(c, s, v, o);
      } else {
        TimingOutOk(c, s, v, o);
      }
    case LogDecision => LoggingOk(c, s, v, o);
    case Remember => MemoisingOk(c, s, v, o);
    case Reserve => MemoisingOk(c, s, v, o);
    case LeaveFp => LeavingOk(c, s, v, o);
    case LeaveIdem => LeavingOk(c, s, v, o);
    case _ => ReplayingOk(c, s, v, o);
  }

  lemma FailingOk(c: Config, v: Payment, timedOut: bool)
    requires PaymentOk(c, v)
    ensures PaymentOk(c, v.(req := Failing(v.req, timedOut)))
  {
    if InSection(v.req.pc) {
      LeavingEarlyOk(c, v, Failing(v.req, timedOut));
    }
  }

  lemma LeavingEarlyOk(c: Config, v: Payment, r: Request)
    requires PaymentOk(c, v) && InSection(v.req.pc)
    requires r == Raise(v.req) || r == Refuse(v.req)
    ensures PaymentOk(c, v.(req := r))
  {
  }

  lemma DeliveredOk(c: Config, v: Payment, consumed: set<nat>, how: Behaviour, now: int, reference: nat)
    requires PaymentOk(c, v) && v.flying.Some?
    ensures var (charge, answer) := Assess(consumed, v.flying.value.body, Some(v.flying.value.token), how, now, reference);
            PaymentOk(c, Delivered(v, charge, answer))
  {
  }

  // ---------------------------------------------------------------- how a payment evolves

  /** A row is inserted in CREATED, never removed, never re-decided, and its state changes
      only along the transition table; a recorded charge is never taken back. */
  predicate Evolves(v: Payment, w: Payment) {
    && w.req.txn == v.req.txn
    && (v.row.None? && w.row.Some? ==> w.row.value.history == [Created] && w.row.value.state == Created)
    && (v.row.Some? ==> w.row.Some? && RowEvolves(v.row.value, w.row.value))
    && (IsPaid(v.charge) ==> w.charge == v.charge)
    && v.posts <= w.posts
  }

  predicate RowEvolves(a: Row, b: Row) {
    && b.txn == a.txn && b.decision == a.decision && b.created == a.created
    && (a.state != Created ==> b.expires == a.expires)
    && (a.state == Confirmed ==> b.reference == a.reference)
    && (if b.state == a.state then b.history == a.history
        else CanMove(a.state, b.state) && b.history == a.history + [b.state])
  }

  /** The steps that write the transaction row. */
  predicate WritesRow(pc: Pc) {
    pc == Insert || pc == Blocking || pc == Minting || pc.Moving? || pc == Consuming
  }

  predicate IsEarly(pc: Pc) {
    pc == WaitIdem || pc == WaitFp || pc == CheckIdem || pc == CheckFp || pc == Decide || pc.Replay?
  }

  lemma EarlyKeepsRow(c: Config, s: State, v: Payment, o: Oracle)
    requires IsEarly(v.req.pc)
    ensures var w := Next(c, s, v, o).pay;
            w.req.txn == v.req.txn && w.row == v.row && w.charge == v.charge && v.posts <= w.posts
  {
  }

  lemma LateKeepsRow(c: Config, s: State, v: Payment, o: Oracle)
    requires !IsEarly(v.req.pc) && !WritesRow(v.req.pc)
    ensures var w := Next(c, s, v, o).pay;
            w.req.txn == v.req.txn && w.row == v.row && w.charge == v.charge && v.posts <= w.posts
  {
  }

  lemma NextKeepsRow(c: Config, s: State, v: Payment, o: Oracle)
    requires !WritesRow(v.req.pc)
    ensures var w := Next(c, s, v, o).pay;
            w.req.txn == v.req.txn && w.row == v.row && w.charge == v.charge && v.posts <= w.posts
  {
    if IsEarly(v.req.pc) {
      EarlyKeepsRow(c, s, v, o);
    } else {
      LateKeepsRow(c, s, v, o);
    }
  }

  lemma InsertingEvolves(c: Config, s: State, v: Payment, o: Oracle)
    requires PaymentOk(c, v) && (v.req.pc.Insert? || v.req.pc.Blocking?)
    ensures var w := Next(c, s, v, o).pay; Evolves(v, w) && w.charge == v.charge
  {
  }

  lemma UpdatingEvolves(c: Config, s: State, v: Payment, o: Oracle)
    requires PaymentOk(c, v) && (v.req.pc.Minting? || v.req.pc.Moving? || v.req.pc.Consuming?)
    ensures var w := Next(c, s, v, o).pay; Evolves(v, w) && w.charge == v.charge
  {
  }

  lemma NextWritesRow(c: Config, s: State, v: Payment, o: Oracle)
    requires PaymentOk(c, v) && WritesRow(v.req.pc)
    ensures var w := Next(c, s, v, o).pay; Evolves(v, w) && w.charge == v.charge
  {
    if v.req.pc.Insert? || v.req.pc.Blocking? {
      InsertingEvolves(c, s, v, o);
    } else {
      UpdatingEvolves(c, s, v, o);
    }
  }

  lemma NextInserts(c: Config, s: State, v: Payment, o: Oracle)
    requires v.row.None? && Next(c, s, v, o).pay.row.Some?
    requires PaymentOk(c, v)
    ensures var row := Next(c, s, v, o).pay.row.value;
            row.txn == v.req.txn && row.created == s.now && row.uses == 0 && (row.decision != Block ==> !KeyTaken(s, v.req.txn))
  {
    if !WritesRow(v.req.pc) {
      NextKeepsRow(c, s, v, o);
    }
  }
}
