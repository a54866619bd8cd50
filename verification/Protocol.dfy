/** The payment protocol as a state machine: any number of requests, reconciliation sweeps
    and expiry sweeps interleave over one transaction table, one shared store and one
    provider. Each database session and each store call is one atomic step; a request's `pc`
    says which one comes next. A step that is not enabled leaves the state as it is, so a run
    is simply a sequence of steps and every such sequence is a run. */
module Protocol {
  import opened Options
  import opened Lifecycle
  import opened Canonical
  import opened Provider
  import opened TimedStore

  datatype Decision = Allow | RequireApproval | Block

  /** Facts about the environment, each of which may or may not hold.
      idemLeaseLasts: nobody is still waiting for the fingerprint lock, or inside the section,
        when the lease of its idempotency lock ends.
      fpLeaseLasts: nobody is still inside the section when the lease of its fingerprint lock ends.
      checkedInWindow: the duplicate checks come within one window of arrival.
      completes: no exception ends a section that has authorized a payment.
      plainAmounts: clients write each amount in one way only.
      lateDelivery: a POST may still reach the provider after the client gave up on it.
      shortHang: a hanging provider may answer before the client gives up. */
  datatype Environment = Environment(
    idemLeaseLasts: bool, fpLeaseLasts: bool, checkedInWindow: bool, completes: bool, plainAmounts: bool,
    lateDelivery: bool, shortHang: bool)

  datatype Settings = Settings(
    window: nat, idemTtl: nat, lockTtl: nat, fpLockTtl: nat, tokenTtl: nat, maxAge: nat, env: Environment)
  {
    const lateDelivery := env.lateDelivery
    const shortHang := env.shortHang
  }

  type Config = c: Settings | 0 < c.window && 0 < c.lockTtl && 0 < c.fpLockTtl && 0 < c.tokenTtl
    witness Settings(300, 86400, 10, 15, 300, 3600, Environment(true, true, true, true, true, false, false))

  /** The shipped settings. */
  function Shipped(env: Environment): Config {
    Settings(300, 86400, 10, 15, 300, 3600, env)
  }

  datatype Message =
    | Blank | BlockedByPolicy | ApprovalRequired | AuthorizedNotSubmitted
    | FromProvider | NotASuccess | IdempotentReplay | InFlight

  datatype Reply = Reply(
    pa: nat, decision: Decision, state: PaymentState, reference: Option<nat>,
    message: Message, replayed: bool)

  datatype Key =
    | IdemKey(user: nat, key: nat)
    | SlotKey(fp: Fingerprint)
    | IdemLock(user: nat, key: nat)
    | FpLock(user: nat, fp: Fingerprint)

  datatype Value = Outcome(payload: nat, reply: Reply) | Slot(pa: nat) | Holder(pa: nat)

  /** One transaction row. `history` is auxiliary: the states the row has been through. */
  datatype Row = Row(
    txn: Txn, decision: Decision, state: PaymentState, history: seq<PaymentState>,
    jti: Option<nat>, expires: Option<int>, uses: nat, reference: Option<nat>, created: int)

  datatype Pc =
    | WaitIdem | WaitFp
    | CheckIdem | CheckFp
    | Decide | Insert | Blocking | Minting
    | Moving(to: PaymentState, ref: Option<nat>)      // about to commit set_state(to)
    | Auditing(before: PaymentState, after: PaymentState)  // committed, audit append pending
    | Consuming | Posting | Awaiting(answer: Option<Answer>)
    | LogDecision | Remember | Reserve
    | Replay(stored: Reply)
    | LeaveFp | LeaveIdem | Done

  datatype Request = Request(
    txn: Txn, execute: bool, pc: Pc,
    conflict: bool, decision: Decision, token: Option<Token>,
    reply: Reply, failed: bool,            // failed: some exception but a timeout escaped, the client saw a 500
    idemLease: int, fpLease: int)          // when the leases this request took run out

  datatype Post = Post(body: Body, token: Token)

  datatype LogEntry =
    | Edge(pa: nat, before: PaymentState, after: PaymentState)
    | Decided(pa: nat)
    | Replayed(pa: nat)

  datatype Sweep =
    | Reconciling(pending: set<nat>)
    | Settling(pa: nat, to: PaymentState, ref: Option<nat>, rest: set<nat>)
    | Expiring(pending: set<nat>)
    | Recording(pa: nat, before: PaymentState, after: PaymentState, next: Sweep)
    | Stopped

  /** Everything that exists about one payment authorization id: the request working on it,
      its transaction row, how often it was POSTed, the POST still under way, and the charge
      the provider recorded. The tables of the source are keyed by this id. */
  datatype Payment = Payment(
    req: Request, row: Option<Row>, posts: nat, flying: Option<Post>, charge: Option<Charge>)

  datatype State = State(
    now: int,
    kv: map<Key, Entry<Value>>,
    payments: map<nat, Payment>,
    consumed: set<nat>,        // token ids the provider has spent
    sweeps: map<nat, Sweep>,
    log: seq<LogEntry>,
    lost: set<LogEntry>)       // audit appends that raised instead of being written

  function Init(now: int): State {
    State(now, map[], map[], {}, map[], [], {})
  }

  /** What the environment decides when a request takes a step. */
  datatype Oracle = Oracle(ok: bool, verdict: Decision, jti: nat)

  datatype Step =
    | Tick(dt: nat)
    | Arrive(pa: nat, order: Order, execute: bool)
    | Advance(pa: nat, oracle: Oracle)
    | Fail(pa: nat, timedOut: bool)
    | Deliver(pa: nat, how: Behaviour, reference: nat)
    | StartReconcile(id: nat)
    | StartExpiry(id: nat)
    | Query(id: nat, pa: nat, heard: bool)
    | Resolve(id: nat)
    | Expire(id: nat, pa: nat)
    | SweepAppend(id: nat)
    | SweepFail(id: nat)

  // ---------------------------------------------------------------- critical sections

  /** Between taking the fingerprint lock and releasing it. */
  predicate InSection(pc: Pc) {
    match pc
    case WaitIdem => false
    case WaitFp => false
    case LeaveFp => false
    case LeaveIdem => false
    case Done => false
    case _ => true
  }

  predicate Unchecked(pc: Pc) {
    pc == WaitIdem || pc == WaitFp || pc == CheckIdem || pc == CheckFp
  }

  /** The request is on time at this moment, as far as the environment promises it. */
  predicate OnTime(c: Config, r: Request, later: int) {
    && (c.env.idemLeaseLasts && (r.pc == WaitFp || InSection(r.pc)) ==> later <= r.idemLease)
    && (c.env.fpLeaseLasts && InSection(r.pc) ==> later <= r.fpLease)
    && (c.env.checkedInWindow && Unchecked(r.pc) ==> later < r.txn.arrived + c.window)
  }

  predicate TickAllowed(c: Config, s: State, later: int) {
    forall p | p in s.payments :: OnTime(c, s.payments[p].req, later)
  }

  // ---------------------------------------------------------------- rows

  predicate HasRow(s: State, p: nat) {
    p in s.payments && s.payments[p].row.Some?
  }

  function RowOf(s: State, p: nat): Row
    requires HasRow(s, p)
  {
    s.payments[p].row.value
  }

  predicate SameKey(a: Txn, b: Txn) {
    a.order.user == b.order.user && a.order.key == b.order.key
  }

  /** A row that the unique index counts. */
  predicate Claims(s: State, p: nat) {
    HasRow(s, p) && RowOf(s, p).decision != Block
  }

  /** The unique index: one row per user and idempotency key, blocked attempts exempt. */
  predicate KeyTaken(s: State, t: Txn) {
    exists q :: q in s.payments && Claims(s, q) && SameKey(RowOf(s, q).txn, t)
  }

  function Moved(row: Row, to: PaymentState, ref: Option<nat>): Row {
    row.(state := to, history := row.history + [to],
         reference := if ref.Some? then ref else row.reference)
  }

  // ---------------------------------------------------------------- request steps

  function IdemKeyOf(t: Txn): Key { IdemKey(t.order.user, t.order.key) }
  function IdemLockOf(t: Txn): Key { IdemLock(t.order.user, t.order.key) }
  function SlotKeyOf(t: Txn): Key { SlotKey(t.fp) }
  function FpLockOf(t: Txn): Key { FpLock(t.order.user, t.fp) }

  /** What one step of a request does: its own payment, the shared store, the audit log. */
  datatype Effect = Effect(pay: Payment, kv: map<Key, Entry<Value>>, out: seq<LogEntry>)

  function Only(s: State, v: Payment, r: Request): Effect {
    Effect(v.(req := r), s.kv, [])
  }

  function Raise(r: Request): Request {
    r.(failed := true, pc := LeaveFp)  // an exception leaves both `async with` blocks
  }

  function NewRequest(c: Config, pa: nat, order: Order, execute: bool, now: int): Request {
    Request(Txn(pa, order, FingerprintOf(order, now, c.window), now), execute, WaitIdem,
            false, Block, None, Reply(pa, Block, Failed, None, Blank, false), false, now, now)
  }

  function AtWaitIdem(c: Config, s: State, v: Payment, o: Oracle): Effect {
    var r, lock := v.req, IdemLockOf(v.req.txn);
    if !o.ok then Only(s, v, r.(pc := Done, reply := r.reply.(message := InFlight)))
    else if Alive(s.kv, lock, s.now) then Only(s, v, r)
    else Effect(v.(req := r.(pc := WaitFp, idemLease := s.now + c.lockTtl)),
                PutIfAbsent(s.kv, lock, Holder(r.txn.pa), c.lockTtl, s.now), [])
  }

  function AtWaitFp(c: Config, s: State, v: Payment, o: Oracle): Effect {
    var r, lock := v.req, FpLockOf(v.req.txn);
    if !o.ok then Only(s, v, r.(pc := LeaveIdem, reply := r.reply.(message := InFlight)))
    else if Alive(s.kv, lock, s.now) then Only(s, v, r)
    else Effect(v.(req := r.(pc := CheckIdem, fpLease := s.now + c.fpLockTtl)),
                PutIfAbsent(s.kv, lock, Holder(r.txn.pa), c.fpLockTtl, s.now), [])
  }

  function AtCheckIdem(s: State, v: Payment): Effect {
    var r := v.req;
    match Peek(s.kv, IdemKeyOf(r.txn), s.now)
    case None => Only(s, v, r.(pc := CheckFp))
    case Some(found) =>
      if found.Outcome? && found.payload == r.txn.order.payload
      then Only(s, v, r.(pc := Replay(found.reply)))
      else Only(s, v, r.(pc := Decide, conflict := true))
  }

  function AtCheckFp(s: State, v: Payment): Effect {
    var seen := Peek(s.kv, SlotKeyOf(v.req.txn), s.now);
    Only(s, v, v.req.(pc := Decide, conflict := seen.Some? && seen.value != Slot(v.req.txn.pa)))
  }

  /** The policy engine is an oracle with one known rule: a conflict is denied. */
  function AtDecide(s: State, v: Payment, o: Oracle): Effect {
    var r := v.req;
    if r.conflict && o.verdict != Block then Only(s, v, r)
    else Only(s, v, r.(pc := Insert, decision := o.verdict,
                       reply := Reply(r.txn.pa, o.verdict, Created, None, Blank, false)))
  }

  function AtInsert(s: State, v: Payment): Effect {
    var r := v.req;
    if v.row.Some? || (r.decision != Block && KeyTaken(s, r.txn)) then Only(s, v, Raise(r))
    else
      var row := Row(r.txn, r.decision, Created, [Created], None, None, 0, None, s.now);
      var next := match r.decision
                  case Block => r.(pc := Blocking)
                  case RequireApproval => r.(pc := LogDecision, reply := r.reply.(message := ApprovalRequired))
                  case Allow => r.(pc := Minting);
      Only(s, v.(row := Some(row)), next)
  }

  /** A blocked payment goes straight to FAILED, without its own audit event. */
  function AtBlocking(s: State, v: Payment): Effect {
    var r := v.req;
    if v.row.None? || !CanMove(v.row.value.state, Failed) then Only(s, v, Raise(r))
    else Only(s, v.(row := Some(Moved(v.row.value, Failed, None))),
              r.(pc := LogDecision, reply := r.reply.(state := Failed, message := BlockedByPolicy)))
  }

  function AtMinting(c: Config, s: State, v: Payment, o: Oracle): Effect {
    var r, order := v.req, v.req.txn.order;
    var token := Token(o.jti, r.txn.pa, order.merchant, order.amount, order.currency, order.cart, s.now + c.tokenTtl);
    var row := if v.row.None? then None
               else Some(v.row.value.(jti := Some(o.jti), expires := Some(token.expires)));
    Only(s, v.(row := row), r.(pc := Moving(Authorized, None), token := Some(token)))
  }

  /** set_state: one session checks the transition and commits it. */
  function AtMoving(s: State, v: Payment, to: PaymentState, ref: Option<nat>): Effect {
    if v.row.None? || !CanMove(v.row.value.state, to) then Only(s, v, Raise(v.req))
    else Only(s, v.(row := Some(Moved(v.row.value, to, ref))),
              v.req.(pc := Auditing(v.row.value.state, to)))
  }

  /** What the request does once set_state has returned. */
  function AfterMove(r: Request, to: PaymentState): Request {
    match to
    case Authorized =>
      if r.execute then r.(pc := Consuming, reply := r.reply.(state := Authorized))
      else r.(pc := LogDecision, reply := r.reply.(state := Authorized, message := AuthorizedNotSubmitted))
    case Submitted => r.(pc := Posting)
    case Timeout => r.(pc := Moving(Unknown, None))
    case Unknown => r.(pc := LogDecision, reply := r.reply.(state := Unknown, message := NotASuccess))
    case _ => r.(pc := LogDecision, reply := r.reply.(state := to, message := FromProvider))
  }

  function AtAuditing(s: State, v: Payment, before: PaymentState, to: PaymentState): Effect {
    Effect(v.(req := AfterMove(v.req, to)), s.kv, [Edge(v.req.txn.pa, before, to)])
  }

  /** Consumption is recorded before the call, so a token cannot be replayed. */
  function AtConsuming(s: State, v: Payment): Effect {
    var r := v.req;
    if v.row.None? then Only(s, v, Raise(r))
    else if v.row.value.uses >= 1
    then Only(s, v, r.(pc := LogDecision, reply := r.reply.(state := Failed, message := FromProvider)))
    else Only(s, v.(row := Some(v.row.value.(uses := v.row.value.uses + 1))),
              r.(pc := Moving(Submitted, None)))
  }

  function PostOf(t: Txn, token: Token): Post {
    var order := t.order;
    Post(Body(t.pa, order.key, order.merchant, order.amount, order.currency, order.cart), token)
  }

  function AtPosting(s: State, v: Payment): Effect {
    var r := v.req;
    if r.token.None? then Only(s, v, Raise(r))
    else Only(s, v.(flying := Some(PostOf(r.txn, r.token.value)), posts := v.posts + 1),
              r.(pc := Awaiting(None)))
  }

  /** Where the provider's answer sends the payment, if it reaches the client at all. */
  function Heard(c: Config, answer: Option<Answer>): Option<(PaymentState, Option<nat>)> {
    match answer
    case None => None
    case Some(AnsweredConfirmed(ref)) => Some((Confirmed, Some(ref)))
    case Some(ConfirmedAfterHang(ref)) => if c.shortHang then Some((Confirmed, Some(ref))) else None
    case Some(_) => Some((Failed, None))
  }

  function AtAwaiting(c: Config, s: State, v: Payment, answer: Option<Answer>, o: Oracle): Effect {
    var r, heard := v.req, Heard(c, answer);
    if !o.ok  // no answer in time: whatever was not delivered by now is lost
    then Only(s, v.(flying := if c.lateDelivery then v.flying else None), r.(pc := Moving(Timeout, None)))
    else if heard.None? then Only(s, v, r)
    else Only(s, v, r.(pc := Moving(heard.value.0, heard.value.1), reply := r.reply.(reference := heard.value.1)))
  }

  /** The decision event never raises; it may go unwritten. Conflicts and interim answers
      are not memoised. */
  function AtLogDecision(s: State, v: Payment, o: Oracle): Effect {
    var r := v.req;
    Effect(v.(req := r.(pc := if !r.conflict && r.decision != RequireApproval then Remember else LeaveFp)),
           s.kv, if o.ok then [Decided(r.txn.pa)] else [])
  }

  function AtRemember(c: Config, s: State, v: Payment): Effect {
    var r := v.req;
    Effect(v.(req := r.(pc := if r.decision == Allow then Reserve else LeaveFp)),
           s.kv[IdemKeyOf(r.txn) := Stamp(Outcome(r.txn.order.payload, r.reply), c.idemTtl, s.now)], [])
  }

  function AtReserve(c: Config, s: State, v: Payment): Effect {
    Effect(v.(req := v.req.(pc := LeaveFp)),
           s.kv[SlotKeyOf(v.req.txn) := Stamp(Slot(v.req.txn.pa), 2 * c.window, s.now)], [])
  }

  function ReplayOf(stored: Reply): Reply {
    stored.(replayed := true, message := IdempotentReplay)
  }

  function AtReplay(s: State, v: Payment, stored: Reply, o: Oracle): Effect {
    Effect(v.(req := v.req.(pc := LeaveFp, reply := ReplayOf(stored))), s.kv,
           if o.ok then [Replayed(stored.pa)] else [])
  }

  function Release(s: State, v: Payment, lock: Key, next: Pc): Effect {
    Effect(v.(req := v.req.(pc := next)), DropIfValue(s.kv, lock, Holder(v.req.txn.pa), s.now), [])
  }

  /** The pipeline of one request, in the order the source runs it. */
  function Next(c: Config, s: State, v: Payment, o: Oracle): Effect {
    match v.req.pc
    case WaitIdem => AtWaitIdem(c, s, v, o)
    case WaitFp => AtWaitFp(c, s, v, o)
    case CheckIdem => AtCheckIdem(s, v)
    case CheckFp => AtCheckFp(s, v)
    case Decide => AtDecide(s, v, o)
    case Insert => AtInsert(s, v)
    case Blocking => AtBlocking(s, v)
    case Minting => AtMinting(c, s, v, o)
    case Moving(to, ref) => AtMoving(s, v, to, ref)
    case Auditing(before, to) => AtAuditing(s, v, before, to)
    case Consuming => AtConsuming(s, v)
    case Posting => AtPosting(s, v)
    case Awaiting(answer) => AtAwaiting(c, s, v, answer, o)
    case LogDecision => AtLogDecision(s, v, o)
    case Remember => AtRemember(c, s, v)
    case Reserve => AtReserve(c, s, v)
    case Replay(stored) => AtReplay(s, v, stored, o)
    case LeaveFp => Release(s, v, FpLockOf(v.req.txn), LeaveIdem)
    case LeaveIdem => Release(s, v, IdemLockOf(v.req.txn), Done)
    case Done => Only(s, v, v.req)
  }

  function DoAdvance(c: Config, s: State, p: nat, o: Oracle): State {
    if p !in s.payments then s
    else
      var e := Next(c, s, s.payments[p], o);
      s.(payments := s.payments[p := e.pay], kv := e.kv, log := s.log + e.out)
  }

  /** Where sections complete, nothing ends one once the row of its authorized payment exists. */
  predicate MayFail(c: Config, v: Payment) {
    c.env.completes && InSection(v.req.pc) ==> !(v.row.Some? && v.row.value.decision == Allow)
  }

  /** A TimeoutError inside the section, an audit append that cannot get its own lock for one, is
      caught where the one from the request's locks is, and gets the same answer. */
  function Refuse(r: Request): Request {
    r.(pc := LeaveFp, reply := Reply(r.txn.pa, Block, Failed, None, InFlight, false))
  }

  /** An exception at any await: the store, the database or the audit append raised. */
  function Failing(r: Request, timedOut: bool): Request {
    match r.pc
    case WaitIdem => r.(pc := Done, failed := true)
    case WaitFp => r.(pc := LeaveIdem, failed := true)
    case LeaveFp => r.(pc := LeaveIdem, failed := true)
    case LeaveIdem => r.(pc := Done, failed := true)
    case Done => r
    case _ => if timedOut then Refuse(r) else Raise(r)
  }

  function DoFail(c: Config, s: State, p: nat, timedOut: bool): State {
    if p !in s.payments || !MayFail(c, s.payments[p]) then s
    else
      var v := s.payments[p];
      var pc := v.req.pc;
      s.(payments := s.payments[p := v.(req := Failing(v.req, timedOut))],
         lost := if pc.Auditing? then s.lost + {Edge(p, pc.before, pc.after)} else s.lost)
  }

  /** The provider handles a POST; its answer reaches the client if the client still waits. */
  function Delivered(v: Payment, charge: Option<Charge>, answer: Answer): Payment {
    var w := v.(flying := None, charge := if charge.Some? then charge else v.charge);
    if v.req.pc == Awaiting(None) then w.(req := v.req.(pc := Awaiting(Some(answer)))) else w
  }

  function DoDeliver(s: State, p: nat, how: Behaviour, reference: nat): State {
    if p !in s.payments || s.payments[p].flying.None? then s
    else
      var v := s.payments[p];
      var post := v.flying.value;
      var (charge, answer) := Assess(s.consumed, post.body, Some(post.token), how, s.now, reference);
      s.(payments := s.payments[p := Delivered(v, charge, answer)],
         consumed := if charge.Some? then s.consumed + {post.token.jti} else s.consumed)
  }

  // ---------------------------------------------------------------- sweeps

  /** Nobody knows what became of it, and it is not too old to ask. */
  predicate Unresolved(row: Row, cutoff: int) {
    row.state == Unknown && row.created >= cutoff
  }

  /** Its token ran out unused. */
  predicate Stale(row: Row, now: int) {
    row.state == Authorized && row.expires.Some? && row.expires.value < now
  }

  function UnknownRows(c: Config, s: State): set<nat> {
    set p | p in s.payments && HasRow(s, p) && Unresolved(RowOf(s, p), s.now - c.maxAge)
  }

  function StaleRows(s: State): set<nat> {
    set p | p in s.payments && HasRow(s, p) && Stale(RowOf(s, p), s.now)
  }

  function ChargeOf(s: State, p: nat): Option<Charge> {
    if p in s.payments then s.payments[p].charge else None
  }

  /** Reconciliation asks the provider what happened; it never re-submits. */
  function Asked(charge: Option<Charge>, p: nat, rest: set<nat>): Sweep {
    match charge
    case None => Settling(p, Failed, None, rest)
    case Some(Declined) => Settling(p, Failed, None, rest)
    case Some(Charged(ref, _, _, _)) => Settling(p, Confirmed, Some(ref), rest)
  }

  function DoQuery(s: State, id: nat, p: nat, heard: bool): State {
    if id in s.sweeps && s.sweeps[id].Reconciling? && p in s.sweeps[id].pending
    then
      var rest := s.sweeps[id].pending - {p};
      s.(sweeps := s.sweeps[id := if heard then Asked(ChargeOf(s, p), p, rest) else Reconciling(rest)])
    else s
  }

  /** set_state from a sweep: an illegal transition raises and ends the sweep. */
  function SweepMove(s: State, id: nat, p: nat, to: PaymentState, ref: Option<nat>, next: Sweep): State {
    if !HasRow(s, p) || !CanMove(RowOf(s, p).state, to) then s.(sweeps := s.sweeps[id := Stopped])
    else
      s.(payments := s.payments[p := s.payments[p].(row := Some(Moved(RowOf(s, p), to, ref)))],
         sweeps := s.sweeps[id := Recording(p, RowOf(s, p).state, to, next)])
  }

  function DoResolve(s: State, id: nat): State {
    if id in s.sweeps && s.sweeps[id].Settling?
    then var w := s.sweeps[id]; SweepMove(s, id, w.pa, w.to, w.ref, Reconciling(w.rest))
    else s
  }

  function DoExpire(s: State, id: nat, p: nat): State {
    if id in s.sweeps && s.sweeps[id].Expiring? && p in s.sweeps[id].pending
    then SweepMove(s, id, p, Expired, None, Expiring(s.sweeps[id].pending - {p}))
    else s
  }

  function DoSweepAppend(s: State, id: nat): State {
    if id in s.sweeps && s.sweeps[id].Recording?
    then
      var w := s.sweeps[id];
      s.(log := s.log + [Edge(w.pa, w.before, w.after)], sweeps := s.sweeps[id := w.next])
    else s
  }

  function DoSweepFail(s: State, id: nat): State {
    if id !in s.sweeps then s
    else
      var w := s.sweeps[id];
      s.(lost := if w.Recording? then s.lost + {Edge(w.pa, w.before, w.after)} else s.lost,
         sweeps := s.sweeps[id := Stopped])
  }

  // ---------------------------------------------------------------- runs

  function DoArrive(c: Config, s: State, p: nat, order: Order, execute: bool): State {
    if p in s.payments || (c.env.plainAmounts && order.rendering != 0) then s
    else s.(payments := s.payments[p := Payment(NewRequest(c, p, order, execute, s.now), None, 0, None, None)])
  }

  function Do(c: Config, s: State, step: Step): State {
    match step
    case Tick(dt) => if TickAllowed(c, s, s.now + dt) then s.(now := s.now + dt) else s
    case Arrive(p, order, execute) => DoArrive(c, s, p, order, execute)
    case Advance(p, o) => DoAdvance(c, s, p, o)
    case Fail(p, timedOut) => DoFail(c, s, p, timedOut)
    case Deliver(p, how, reference) => DoDeliver(s, p, how, reference)
    case StartReconcile(id) =>
      if id in s.sweeps then s else s.(sweeps := s.sweeps[id := Reconciling(UnknownRows(c, s))])
    case StartExpiry(id) =>
      if id in s.sweeps then s else s.(sweeps := s.sweeps[id := Expiring(StaleRows(s))])
    case Query(id, p, heard) => DoQuery(s, id, p, heard)
    case Resolve(id) => DoResolve(s, id)
    case Expire(id, p) => DoExpire(s, id, p)
    case SweepAppend(id) => DoSweepAppend(s, id)
    case SweepFail(id) => DoSweepFail(s, id)
  }

  function Run(c: Config, s: State, steps: seq<Step>): State
    decreases |steps|
  {
    if steps == [] then s else Run(c, Do(c, s, steps[0]), steps[1..])
  }
}
