/** The payment service as the object the source has: a transaction table and an audit trail
    that its methods update in place. Protocol splits the same work into atomic steps and lets
    everything interleave; here each method runs on its own, loops included, and is proved
    against the same rows, the same transition table and the same provider. */
module Payments {
  import opened Options
  import opened Lifecycle
  import opened Canonical
  import opened Provider
  import opened Protocol
  import opened Invariant

  /** AuditRaised: the transition is committed, its event is not, and the caller sees an exception. */
  datatype Outcome = Ok | NoSuchPayment | InvalidTransition | AuditRaised

  /** What the network did to a POST: an answer implies delivery, not the other way round. */
  datatype Network = LostOnTheWay | NoAnswerInTime | Answered

  /** What the row says fits what the provider did. */
  predicate Truthful(rows: map<nat, Row>, charges: map<nat, Charge>) {
    forall p | p in rows :: Agrees(rows[p].state, Lookup(charges, p))
  }

  function UnknownSince(rows: map<nat, Row>, cutoff: int): set<nat> {
    set p | p in rows && Unresolved(rows[p], cutoff)
  }

  function StaleAt(rows: map<nat, Row>, now: int): set<nat> {
    set p | p in rows && Stale(rows[p], now)
  }

  function ChargedAmong(ps: set<nat>, charges: map<nat, Charge>): set<nat> {
    set p | p in ps && IsPaid(Lookup(charges, p))
  }

  /** The row after asking the provider: its answer, and only its answer, decides. */
  function Settle(row: Row, charge: Option<Charge>): Row {
    match charge
    case Some(Charged(reference, _, _, _)) => Moved(row, Confirmed, Some(reference))
    case _ => Moved(row, Failed, None)
  }

  /** Handing the payment over: the single use is spent first. */
  function HandOver(row: Row): Row {
    Moved(row.(uses := row.uses + 1), Submitted, None)
  }

  /** Writing down what came back, if anything did. */
  function Conclude(row: Row, heard: Option<Answer>): Row {
    match heard
    case None => Moved(Moved(row, Timeout, None), Unknown, None)
    case Some(AnsweredConfirmed(reference)) => Moved(row, Confirmed, Some(reference))
    case Some(ConfirmedAfterHang(reference)) => Moved(row, Confirmed, Some(reference))
    case Some(_) => Moved(row, Failed, None)
  }

  function Conclusion(pa: nat, heard: Option<Answer>): seq<LogEntry> {
    match heard
    case None => [Edge(pa, Submitted, Timeout), Edge(pa, Timeout, Unknown)]
    case Some(AnsweredConfirmed(_)) => [Edge(pa, Submitted, Confirmed)]
    case Some(ConfirmedAfterHang(_)) => [Edge(pa, Submitted, Confirmed)]
    case Some(_) => [Edge(pa, Submitted, Failed)]
  }

  function AtProvider(p: Psp, post: Post, network: Network, how: Behaviour, now: int, reference: nat)
    : (Psp, Option<Answer>)
  {
    if network == LostOnTheWay then (p, None)
    else
      var (q, answer) := Handle(p, post.body, Some(post.token), how, now, reference);
      (q, if network == Answered then Some(answer) else None)
  }

  /** The provider takes this token for this charge. */
  predicate Accepted(consumed: set<nat>, post: Post, now: int) {
    now < post.token.expires && post.token.jti !in consumed && Matches(post.token, post.body)
  }

  /** Whatever the network and the provider do, the row never claims more than the provider
      did, and never denies what it did: Confirmed exactly when a charge was heard of, Failed
      only when there is none, Unknown when nothing was heard. The one exception, and exactly
      that one, is a provider that hangs, records nothing, and still answers in time. */
  lemma SubmitIsTruthful(rows: map<nat, Row>, p: Psp, txn: Txn, token: Token, network: Network,
                         how: Behaviour, now: int, reference: nat)
    requires txn.pa in rows && rows[txn.pa].state == Authorized && token.pa == txn.pa
    requires Truthful(rows, p.charges)
    ensures var (q, heard) := AtProvider(p, PostOf(txn, token), network, how, now, reference);
            var row := Conclude(HandOver(rows[txn.pa]), heard);
            var soothed := network == Answered && how == Hang && Accepted(p.consumed, PostOf(txn, token), now);
            && (Truthful(rows[txn.pa := row], q.charges) <==> !soothed)
            && (row.state == Unknown <==> network != Answered)
            && (network == Answered && !soothed ==> (row.state == Confirmed <==> IsPaid(Lookup(q.charges, txn.pa))))
            && (row.state == Confirmed && !soothed ==> row.reference == Some(q.charges[txn.pa].reference))
  {
    assert Agrees(rows[txn.pa].state, Lookup(p.charges, txn.pa));
    var (q, heard) := AtProvider(p, PostOf(txn, token), network, how, now, reference);
    var row := Conclude(HandOver(rows[txn.pa]), heard);
    var after := rows[txn.pa := row];
    OthersStillFit(rows, p.charges, q.charges, txn.pa, row);
    assert Truthful(after, q.charges) <==> Agrees(row.state, Lookup(q.charges, txn.pa)) by {
      assert after[txn.pa] == row;
    }
  }

  lemma OthersStillFit(rows: map<nat, Row>, before: map<nat, Charge>, charges: map<nat, Charge>, pa: nat, row: Row)
    requires Truthful(rows, before) && forall r | r != pa :: IsPaid(Lookup(charges, r)) == IsPaid(Lookup(before, r))
    ensures var after := rows[pa := row]; forall r | r in after && r != pa :: Agrees(after[r].state, Lookup(charges, r))
  {
    forall r | r in rows ensures Agrees(rows[r].state, Lookup(before, r)) {
    }
  }

  /** The table once these payments have been settled. */
  function Reconciled(rows: map<nat, Row>, asked: set<nat>, charges: map<nat, Charge>): map<nat, Row> {
    map p | p in rows :: if p in asked then Settle(rows[p], Lookup(charges, p)) else rows[p]
  }

  datatype Tally = Tally(confirmed: nat, failed: nat, stillUnknown: nat)

  function Count(tally: Tally, reached: bool, isConfirmed: bool): Tally {
    if !reached then tally.(stillUnknown := tally.stillUnknown + 1)
    else if isConfirmed then tally.(confirmed := tally.confirmed + 1)
    else tally.(failed := tally.failed + 1)
  }

  /** The counters say how many of these payments fell into each class. */
  predicate Counts(tally: Tally, ps: set<nat>, reached: set<nat>, charges: map<nat, Charge>) {
    && tally.stillUnknown == |ps - reached|
    && tally.confirmed == |ChargedAmong(ps * reached, charges)|
    && tally.confirmed + tally.failed == |ps * reached|
  }

  lemma CountOneMore(tally: Tally, ps: set<nat>, reached: set<nat>, p: nat, charges: map<nat, Charge>)
    requires p !in ps && Counts(tally, ps, reached, charges)
    ensures Counts(Count(tally, p in reached, IsPaid(Lookup(charges, p))), ps + {p}, reached, charges)
  {
    if p in reached {
      assert (ps + {p}) - reached == ps - reached;
      assert (ps + {p}) * reached == ps * reached + {p};
      OneMoreCharged(ps * reached, p, charges);
    } else {
      assert (ps + {p}) - reached == ps - reached + {p};
      assert (ps + {p}) * reached == ps * reached;
    }
  }

  lemma OneMoreCharged(ps: set<nat>, p: nat, charges: map<nat, Charge>)
    requires p !in ps
    ensures |ChargedAmong(ps + {p}, charges)| == |ChargedAmong(ps, charges)| + if IsPaid(Lookup(charges, p)) then 1 else 0
  {
    assert ChargedAmong(ps + {p}, charges)
        == if IsPaid(Lookup(charges, p)) then ChargedAmong(ps, charges) + {p} else ChargedAmong(ps, charges);
  }

  lemma ReconciledOneMore(rows: map<nat, Row>, ps: set<nat>, reached: set<nat>, p: nat, charges: map<nat, Charge>)
    requires p in rows && p !in ps
    ensures Reconciled(rows, (ps + {p}) * reached, charges)
         == if p in reached then Reconciled(rows, ps * reached, charges)[p := Settle(rows[p], Lookup(charges, p))]
            else Reconciled(rows, ps * reached, charges)
    ensures Reconciled(rows, ps * reached, charges)[p] == rows[p]
  {
  }

  /** The payments of a list, and that none is listed twice. */
  function Elements(ids: seq<nat>): set<nat> {
    if ids == [] then {} else Elements(ids[..|ids| - 1]) + {ids[|ids| - 1]}
  }

  predicate Distinct(ids: seq<nat>) {
    ids == [] || (Distinct(ids[..|ids| - 1]) && ids[|ids| - 1] !in Elements(ids[..|ids| - 1]))
  }

  /** These are listed, those are still to be. */
  predicate PartlyListed(ids: seq<nat>, todo: set<nat>, all: set<nat>) {
    Distinct(ids) && Elements(ids) == all - todo && todo <= all
  }

  lemma ListOneMore(ids: seq<nat>, todo: set<nat>, all: set<nat>, p: nat)
    requires PartlyListed(ids, todo, all) && p in todo
    ensures PartlyListed(ids + [p], todo - {p}, all)
  {
    assert (ids + [p])[..|ids|] == ids;
    assert all - todo + {p} == all - (todo - {p});
  }

  /** Asking about one payment: the row after, and the count after. */
  function AskedRows(rows: map<nat, Row>, p: nat, reached: set<nat>, charges: map<nat, Charge>): map<nat, Row> {
    if p in rows && p in reached then rows[p := Settle(rows[p], Lookup(charges, p))] else rows
  }

  /** Asking about a list of payments, one after the other. */
  function AskedInTurn(rows: map<nat, Row>, ids: seq<nat>, reached: set<nat>, charges: map<nat, Charge>)
    : (map<nat, Row>, Tally)
  {
    if ids == [] then (rows, Tally(0, 0, 0))
    else
      var p, (before, tally) := ids[|ids| - 1], AskedInTurn(rows, ids[..|ids| - 1], reached, charges);
      (AskedRows(before, p, reached, charges), Count(tally, p in reached, IsPaid(Lookup(charges, p))))
  }

  /** The audit event of asking about a payment, or about a list of them in that order. */
  function AskedEvent(p: nat, reached: bool, charge: Option<Charge>): seq<LogEntry> {
    if !reached then [] else [Edge(p, Unknown, if IsPaid(charge) then Confirmed else Failed)]
  }

  function AskedTrail(ids: seq<nat>, reached: set<nat>, charges: map<nat, Charge>): seq<LogEntry> {
    if ids == [] then []
    else
      var p := ids[|ids| - 1];
      AskedTrail(ids[..|ids| - 1], reached, charges) + AskedEvent(p, p in reached, Lookup(charges, p))
  }

  /** The table once these authorizations have expired, and the audit events of that. */
  function Lapsed(rows: map<nat, Row>, ps: set<nat>): map<nat, Row> {
    map p | p in rows :: if p in ps then Moved(rows[p], Expired, None) else rows[p]
  }

  function ExpiryTrail(ids: seq<nat>): seq<LogEntry> {
    if ids == [] then [] else ExpiryTrail(ids[..|ids| - 1]) + [Edge(ids[|ids| - 1], Authorized, Expired)]
  }

  lemma AskedTrailGrows(ids: seq<nat>, n: nat, reached: set<nat>, charges: map<nat, Charge>, log: seq<LogEntry>)
    requires n < |ids|
    ensures log + AskedTrail(ids[..n + 1], reached, charges)
         == log + AskedTrail(ids[..n], reached, charges) + AskedEvent(ids[n], ids[n] in reached, Lookup(charges, ids[n]))
  {
    assert ids[..n + 1][..n] == ids[..n];
  }

  lemma LapsedOneMore(rows: map<nat, Row>, ps: set<nat>, p: nat)
    requires p in rows && p !in ps
    ensures Lapsed(rows, ps + {p}) == Lapsed(rows, ps)[p := Moved(rows[p], Expired, None)]
    ensures Lapsed(rows, ps)[p] == rows[p]
  {
  }

  /** In turn or all at once comes to the same. */
  lemma {:induction false} InTurnIsAtOnce(rows: map<nat, Row>, ids: seq<nat>, reached: set<nat>, charges: map<nat, Charge>)
    requires Distinct(ids) && Elements(ids) <= rows.Keys
    ensures var (after, tally) := AskedInTurn(rows, ids, reached, charges);
            after == Reconciled(rows, Elements(ids) * reached, charges) && Counts(tally, Elements(ids), reached, charges)
  {
    if ids == [] {
      assert {} * reached == {} && {} - reached == {};
      assert Reconciled(rows, {}, charges) == rows;
    } else {
      var front, p := ids[..|ids| - 1], ids[|ids| - 1];
      InTurnIsAtOnce(rows, front, reached, charges);
      ReconciledOneMore(rows, Elements(front), reached, p, charges);
      CountOneMore(AskedInTurn(rows, front, reached, charges).1, Elements(front), reached, p, charges);
    }
  }

  /** A payment not asked about yet is as it was. */
  lemma {:induction false} NotYetAsked(rows: map<nat, Row>, ids: seq<nat>, reached: set<nat>, charges: map<nat, Charge>, p: nat)
    requires p in rows && p !in Elements(ids)
    ensures p in AskedInTurn(rows, ids, reached, charges).0 && AskedInTurn(rows, ids, reached, charges).0[p] == rows[p]
  {
    if ids != [] {
      NotYetAsked(rows, ids[..|ids| - 1], reached, charges, p);
    }
  }

  lemma {:induction false} ListedAreDistinct(ids: seq<nat>, n: nat)
    requires Distinct(ids) && n < |ids|
    ensures ids[n] in Elements(ids) && ids[n] !in Elements(ids[..n])
    decreases |ids|
  {
    if n < |ids| - 1 {
      ListedAreDistinct(ids[..|ids| - 1], n);
      assert ids[..|ids| - 1][..n] == ids[..n];
    }
  }

  /** Reconciliation ends the uncertainty and never the agreement: every payment it reaches
      ends Confirmed if the provider charged it and Failed if not. */
  lemma ReconcileIsExact(rows: map<nat, Row>, asked: set<nat>, charges: map<nat, Charge>)
    requires Truthful(rows, charges)
    requires forall p | p in asked :: p in rows && rows[p].state == Unknown
    ensures Truthful(Reconciled(rows, asked, charges), charges)
    ensures forall p | p in asked ::
              Reconciled(rows, asked, charges)[p].state == if IsPaid(Lookup(charges, p)) then Confirmed else Failed
  {
    var after := Reconciled(rows, asked, charges);
    forall p | p in after ensures Agrees(after[p].state, Lookup(charges, p)) {
      assert Agrees(rows[p].state, Lookup(charges, p));
    }
  }

  class PaymentService {
    var rows: map<nat, Row>
    var log: seq<LogEntry>

    constructor ()
      ensures rows == map[] && log == []
    {
      rows, log := map[], [];
    }

    /** Only a legal transition changes anything. It is committed first; its audit event, where one
        is wanted, follows and may fail on its own. */
    method SetState(pa: nat, target: PaymentState, reference: Option<nat>, audit: bool, appends: bool)
      returns (outcome: Outcome)
      modifies this
      ensures outcome == if pa !in old(rows) then NoSuchPayment
                         else if !CanMove(old(rows)[pa].state, target) then InvalidTransition
                         else if audit && !appends then AuditRaised else Ok
      ensures rows == if outcome.Ok? || outcome.AuditRaised?
                      then old(rows)[pa := Moved(old(rows)[pa], target, reference)] else old(rows)
      ensures log == old(log) + if outcome.Ok? && audit then [Edge(pa, old(rows)[pa].state, target)] else []
    {
      if pa !in rows {
        return NoSuchPayment;
      }
      var row := rows[pa];
      if !CanMove(row.state, target) {
        return InvalidTransition;
      }
      rows := rows[pa := Moved(row, target, reference)];
      if audit {
        if !appends {
          return AuditRaised;
        }
        log := log + [Edge(pa, row.state, target)];
      }
      outcome := Ok;
    }

    /** The bookkeeping after a POST. */
    method WriteDown(pa: nat, heard: Option<Answer>) returns (state: PaymentState)
      requires pa in rows && rows[pa].state == Submitted
      modifies this
      ensures rows == old(rows)[pa := Conclude(old(rows)[pa], heard)] && state == rows[pa].state
      ensures log == old(log) + Conclusion(pa, heard)
    {
      var moved;
      match heard {
        case None =>
          moved := SetState(pa, Timeout, None, true, true);
          moved := SetState(pa, Unknown, None, true, true);
          state := Unknown;
        case Some(AnsweredConfirmed(reference)) =>
          moved := SetState(pa, Confirmed, Some(reference), true, true);
          state := Confirmed;
        case Some(ConfirmedAfterHang(reference)) =>
          moved := SetState(pa, Confirmed, Some(reference), true, true);
          state := Confirmed;
        case Some(_) =>
          moved := SetState(pa, Failed, None, true, true);
          state := Failed;
      }
    }

    /** Spend the single use, POST, write down what was heard. None stands for a raised
        exception: the payment is missing, or is no longer AUTHORIZED. */
    method Submit(txn: Txn, token: Token, provider: MockProvider, network: Network,
                  how: Behaviour, now: int, reference: nat)
      returns (state: Option<PaymentState>)
      modifies this, provider
      ensures txn.pa !in old(rows) ==> state == None && rows == old(rows)
      ensures txn.pa in old(rows) && old(rows)[txn.pa].uses >= 1 ==> state == Some(Failed) && rows == old(rows)
      ensures txn.pa in old(rows) && old(rows)[txn.pa].uses == 0 && old(rows)[txn.pa].state != Authorized ==>
                && state == None
                && rows == old(rows)[txn.pa := old(rows)[txn.pa].(uses := 1)]
      ensures !(txn.pa in old(rows) && old(rows)[txn.pa].uses == 0 && old(rows)[txn.pa].state == Authorized) ==>
                log == old(log) && provider.View() == old(provider.View())
      ensures txn.pa in old(rows) && old(rows)[txn.pa].uses == 0 && old(rows)[txn.pa].state == Authorized ==>
                var (q, heard) := AtProvider(old(provider.View()), PostOf(txn, token), network, how, now, reference);
                && provider.View() == q
                && rows == old(rows)[txn.pa := Conclude(HandOver(old(rows)[txn.pa]), heard)]
                && state == Some(rows[txn.pa].state)
                && log == old(log) + [Edge(txn.pa, Authorized, Submitted)] + Conclusion(txn.pa, heard)
    {
      var pa := txn.pa;
      if pa !in rows {
        return None;
      }
      if rows[pa].uses >= 1 {
        return Some(Failed);
      }
      rows := rows[pa := rows[pa].(uses := rows[pa].uses + 1)];
      var moved := SetState(pa, Submitted, None, true, true);
      if moved != Ok {
        return None;
      }
      var heard := None;
      if network != LostOnTheWay {
        var answer := provider.CreateCharge(PostOf(txn, token).body, Some(token), how, now, reference);
        heard := if network == Answered then Some(answer) else None;
      }
      var concluded := WriteDown(pa, heard);
      state := Some(concluded);
    }

    /** Ask about one UNKNOWN payment; no answer leaves it for the next sweep. */
    method AskAbout(pa: nat, provider: MockProvider, reached: bool, tally: Tally) returns (counted: Tally)
      requires pa in rows && rows[pa].state == Unknown
      modifies this
      ensures counted == Count(tally, reached, IsPaid(Lookup(provider.charges, pa)))
      ensures rows == if reached then old(rows)[pa := Settle(old(rows)[pa], Lookup(provider.charges, pa))] else old(rows)
      ensures log == old(log) + AskedEvent(pa, reached, Lookup(provider.charges, pa))
    {
      if !reached {
        return tally.(stillUnknown := tally.stillUnknown + 1);
      }
      var charge := provider.GetCharge(pa);
      var moved;
      match charge {
        case Some(Charged(reference, _, _, _)) =>
          moved := SetState(pa, Confirmed, Some(reference), true, true);
          counted := tally.(confirmed := tally.confirmed + 1);
        case _ =>
          moved := SetState(pa, Failed, None, true, true);
          counted := tally.(failed := tally.failed + 1);
      }
    }

    /** The first session of the sweep: which payments to ask about. */
    method ListUnknown(cutoff: int) returns (ids: seq<nat>)
      ensures Distinct(ids) && Elements(ids) == UnknownSince(rows, cutoff)
    {
      ids := InSomeOrder(UnknownSince(rows, cutoff));
    }

    /** Ask the provider about every recent UNKNOWN payment, in some order. Those whose query got
        through are settled the way the provider says; nothing else moves, and the provider is only read. */
    method ReconcileUnknown(provider: MockProvider, reached: set<nat>, cutoff: int)
      returns (resolved: Tally, ghost asked: seq<nat>)
      modifies this
      ensures Distinct(asked) && Elements(asked) == UnknownSince(old(rows), cutoff)
      ensures rows == Reconciled(old(rows), UnknownSince(old(rows), cutoff) * reached, provider.charges)
      ensures Counts(resolved, UnknownSince(old(rows), cutoff), reached, provider.charges)
      ensures log == old(log) + AskedTrail(asked, reached, provider.charges)
    {
      var pending := ListUnknown(cutoff);
      ghost var before, charges := rows, provider.charges;
      resolved, asked := Tally(0, 0, 0), pending;
      for n := 0 to |pending|
        invariant (rows, resolved) == AskedInTurn(before, pending[..n], reached, charges)
        invariant log == old(log) + AskedTrail(pending[..n], reached, charges)
      {
        assert pending[..n + 1][..n] == pending[..n];
        ListedAreDistinct(pending, n);
        NotYetAsked(before, pending[..n], reached, charges, pending[n]);
        AskedTrailGrows(pending, n, reached, charges, old(log));
        resolved := AskAbout(pending[n], provider, pending[n] in reached, resolved);
      }
      assert pending[..|pending|] == pending;
      InTurnIsAtOnce(before, pending, reached, charges);
    }

    /** Outstanding authorizations past their deadline expire; nothing else does. */
    method ExpireStale(now: int) returns (count: nat, ghost expired: seq<nat>)
      modifies this
      ensures Distinct(expired) && Elements(expired) == StaleAt(old(rows), now)
      ensures rows == Lapsed(old(rows), StaleAt(old(rows), now)) && StaleAt(rows, now) == {}
      ensures count == |StaleAt(old(rows), now)|
      ensures log == old(log) + ExpiryTrail(expired)
    {
      var stale := InSomeOrder(StaleAt(rows, now));
      ghost var before := rows;
      expired := stale;
      assert Lapsed(before, {}) == before;
      for n := 0 to |stale|
        invariant rows == Lapsed(before, Elements(stale[..n]))
        invariant log == old(log) + ExpiryTrail(stale[..n])
      {
        assert stale[..n + 1][..n] == stale[..n];
        ListedAreDistinct(stale, n);
        LapsedOneMore(before, Elements(stale[..n]), stale[n]);
        var moved := SetState(stale[n], Expired, None, true, true);
      }
      assert stale[..|stale|] == stale;
      CountOfList(stale);
      count := |stale|;
    }
  }

  /** The database returns the rows of a query in some order. */
  method InSomeOrder(ps: set<nat>) returns (ids: seq<nat>)
    ensures Distinct(ids) && Elements(ids) == ps
  {
    ids := [];
    var todo := ps;
    while todo != {}
      invariant PartlyListed(ids, todo, ps)
      decreases |todo|
    {
      var p :| p in todo;
      ListOneMore(ids, todo, ps, p);
      ids, todo := ids + [p], todo - {p};
    }
  }

  lemma {:induction false} CountOfList(ids: seq<nat>)
    requires Distinct(ids)
    ensures |Elements(ids)| == |ids|
  {
    if ids != [] {
      CountOfList(ids[..|ids| - 1]);
    }
  }
}
