/** The sweeps of the service object are runs of the protocol in which nobody else happens to act:
    what every run keeps, every call of reconciliation or expiry keeps. */
module SweepRuns {
  import opened Options
  import opened Lifecycle
  import opened Canonical
  import opened Provider
  import opened Protocol
  import opened Charging
  import opened Payments

  /** The table and the provider's books, read off the protocol's state. */
  function TableOf(s: State): map<nat, Row> {
    map p | p in s.payments && s.payments[p].row.Some? :: s.payments[p].row.value
  }

  function BooksOf(s: State): map<nat, Charge> {
    map p | p in s.payments && s.payments[p].charge.Some? :: s.payments[p].charge.value
  }

  function WithTable(payments: map<nat, Payment>, rows: map<nat, Row>): map<nat, Payment> {
    map p | p in payments :: payments[p].(row := Lookup(rows, p))
  }

  /** The state with this table and these further events, and sweep id standing there; all else as it was. */
  function Swept(s: State, rows: map<nat, Row>, out: seq<LogEntry>, id: nat, w: Sweep): State {
    s.(payments := WithTable(s.payments, rows), log := s.log + out, sweeps := s.sweeps[id := w])
  }

  lemma SweptTable(s: State, rows: map<nat, Row>, out: seq<LogEntry>, id: nat, w: Sweep)
    requires rows.Keys <= s.payments.Keys
    ensures TableOf(Swept(s, rows, out, id, w)) == rows && BooksOf(Swept(s, rows, out, id, w)) == BooksOf(s)
  {
  }

  lemma NothingSwept(s: State, id: nat, w: Sweep)
    ensures Swept(s, TableOf(s), [], id, w) == s.(sweeps := s.sweeps[id := w])
  {
    assert WithTable(s.payments, TableOf(s)) == s.payments;
    assert s.log + [] == s.log;
  }

  // ---------------------------------------------------------------- single steps

  lemma Settles(c: Config, s: State, rows: map<nat, Row>, out: seq<LogEntry>, id: nat, p: nat, to: PaymentState, ref: Option<nat>, rest: set<nat>)
    requires p in s.payments && p in rows && CanMove(rows[p].state, to)
    ensures Do(c, Swept(s, rows, out, id, Settling(p, to, ref, rest)), Resolve(id))
         == Swept(s, rows[p := Moved(rows[p], to, ref)], out, id, Recording(p, rows[p].state, to, Reconciling(rest)))
  {
    var t := Do(c, Swept(s, rows, out, id, Settling(p, to, ref, rest)), Resolve(id));
    assert t.payments == WithTable(s.payments, rows[p := Moved(rows[p], to, ref)]);
  }

  lemma Lapses(c: Config, s: State, rows: map<nat, Row>, out: seq<LogEntry>, id: nat, p: nat, pending: set<nat>)
    requires p in s.payments && p in rows && p in pending && rows[p].state == Authorized
    ensures Do(c, Swept(s, rows, out, id, Expiring(pending)), Expire(id, p))
         == Swept(s, rows[p := Moved(rows[p], Expired, None)], out, id, Recording(p, Authorized, Expired, Expiring(pending - {p})))
  {
    var t := Do(c, Swept(s, rows, out, id, Expiring(pending)), Expire(id, p));
    assert t.payments == WithTable(s.payments, rows[p := Moved(rows[p], Expired, None)]);
  }

  lemma Appends(c: Config, s: State, rows: map<nat, Row>, out: seq<LogEntry>, id: nat, p: nat, a: PaymentState, b: PaymentState, next: Sweep)
    ensures Do(c, Swept(s, rows, out, id, Recording(p, a, b, next)), SweepAppend(id))
         == Swept(s, rows, out + [Edge(p, a, b)], id, next)
  {
    assert s.log + out + [Edge(p, a, b)] == s.log + (out + [Edge(p, a, b)]);
  }

  lemma Asks(c: Config, s: State, rows: map<nat, Row>, out: seq<LogEntry>, id: nat, p: nat, pending: set<nat>, heard: bool)
    requires p in s.payments && p in pending
    ensures Do(c, Swept(s, rows, out, id, Reconciling(pending)), Query(id, p, heard))
         == Swept(s, rows, out, id, if heard then Asked(s.payments[p].charge, p, pending - {p}) else Reconciling(pending - {p}))
  {
  }

  lemma TwoSteps(c: Config, s: State, a: Step, b: Step)
    ensures Run(c, s, [a, b]) == Do(c, Do(c, s, a), b)
  {
    RunThen(c, s, [a], b);
    assert [a] + [b] == [a, b] && [a][1..] == [];
  }

  // ---------------------------------------------------------------- reconciliation

  /** Query, commit, append; or query and move on. */
  lemma AsksOne(c: Config, s: State, rows: map<nat, Row>, out: seq<LogEntry>, id: nat, p: nat, pending: set<nat>, reached: set<nat>)
    returns (steps: seq<Step>)
    requires p in s.payments && p in rows && p in pending && rows[p].state == Unknown
    ensures Run(c, Swept(s, rows, out, id, Reconciling(pending)), steps)
         == Swept(s, AskedRows(rows, p, reached, BooksOf(s)), out + AskedEvent(p, p in reached, Lookup(BooksOf(s), p)), id, Reconciling(pending - {p}))
  {
    var u, rest, charge := Swept(s, rows, out, id, Reconciling(pending)), pending - {p}, s.payments[p].charge;
    assert Lookup(BooksOf(s), p) == charge;
    Asks(c, s, rows, out, id, p, pending, p in reached);
    if p in reached {
      var w := Asked(charge, p, rest);
      Settles(c, s, rows, out, id, p, w.to, w.ref, rest);
      Appends(c, s, rows[p := Moved(rows[p], w.to, w.ref)], out, id, p, Unknown, w.to, Reconciling(rest));
      TwoSteps(c, Do(c, u, Query(id, p, true)), Resolve(id), SweepAppend(id));
      steps := [Query(id, p, true)] + [Resolve(id), SweepAppend(id)];
      assert steps[1..] == [Resolve(id), SweepAppend(id)];
    } else {
      steps := [Query(id, p, false)];
      assert out + [] == out;
    }
  }

  lemma {:induction false} AsksInTurn(c: Config, s: State, id: nat, ids: seq<nat>, pending: set<nat>, reached: set<nat>)
    returns (steps: seq<Step>)
    requires Distinct(ids) && Elements(ids) <= pending
    requires forall p | p in pending :: p in TableOf(s) && TableOf(s)[p].state == Unknown
    ensures Run(c, Swept(s, TableOf(s), [], id, Reconciling(pending)), steps)
         == Swept(s, AskedInTurn(TableOf(s), ids, reached, BooksOf(s)).0, AskedTrail(ids, reached, BooksOf(s)), id, Reconciling(pending - Elements(ids)))
    decreases |ids|
  {
    steps := [];
    if ids == [] {
      assert pending - {} == pending;
    } else {
      var front, p := ids[..|ids| - 1], ids[|ids| - 1];
      steps := AsksInTurn(c, s, id, front, pending, reached);
      NotYetAsked(TableOf(s), front, reached, BooksOf(s), p);
      var more := AsksOne(c, s, AskedInTurn(TableOf(s), front, reached, BooksOf(s)).0, AskedTrail(front, reached, BooksOf(s)),
                          id, p, pending - Elements(front), reached);
      RunJoins(c, Swept(s, TableOf(s), [], id, Reconciling(pending)), steps, more);
      steps := steps + more;
      assert pending - Elements(front) - {p} == pending - Elements(ids);
    }
  }

  lemma SameUnknown(c: Config, s: State)
    ensures UnknownRows(c, s) == UnknownSince(TableOf(s), s.now - c.maxAge)
  {
  }

  /** `ReconcileUnknown`, asking in this order and reaching these, is a run of the protocol: table and
      trail end up the way the call leaves them, and nothing else changes. */
  lemma ReconcileIsARun(c: Config, s: State, id: nat, asked: seq<nat>, reached: set<nat>) returns (steps: seq<Step>)
    requires id !in s.sweeps
    requires Distinct(asked) && Elements(asked) == UnknownSince(TableOf(s), s.now - c.maxAge)
    ensures var rows := Reconciled(TableOf(s), UnknownSince(TableOf(s), s.now - c.maxAge) * reached, BooksOf(s));
            var t := Run(c, s, steps);
            t == Swept(s, rows, AskedTrail(asked, reached, BooksOf(s)), id, Reconciling({})) && TableOf(t) == rows
  {
    var all := UnknownRows(c, s);
    SameUnknown(c, s);
    var u := Do(c, s, StartReconcile(id));
    NothingSwept(s, id, Reconciling(all));
    var more := AsksInTurn(c, s, id, asked, all, reached);
    InTurnIsAtOnce(TableOf(s), asked, reached, BooksOf(s));
    assert all - Elements(asked) == {};
    steps := [StartReconcile(id)] + more;
    assert steps[1..] == more;
    var rows := Reconciled(TableOf(s), all * reached, BooksOf(s));
    SweptTable(s, rows, AskedTrail(asked, reached, BooksOf(s)), id, Reconciling({}));
  }

  // ---------------------------------------------------------------- expiry

  lemma {:induction false} LapsesInTurn(c: Config, s: State, id: nat, ids: seq<nat>, pending: set<nat>) returns (steps: seq<Step>)
    requires Distinct(ids) && Elements(ids) <= pending
    requires forall p | p in pending :: p in TableOf(s) && TableOf(s)[p].state == Authorized
    ensures Run(c, Swept(s, TableOf(s), [], id, Expiring(pending)), steps)
         == Swept(s, Lapsed(TableOf(s), Elements(ids)), ExpiryTrail(ids), id, Expiring(pending - Elements(ids)))
    decreases |ids|
  {
    steps := [];
    if ids == [] {
      assert pending - {} == pending && Lapsed(TableOf(s), {}) == TableOf(s);
    } else {
      var front, p, rows := ids[..|ids| - 1], ids[|ids| - 1], TableOf(s);
      var rest := pending - Elements(front);
      steps := LapsesInTurn(c, s, id, front, pending);
      LapsedOneMore(rows, Elements(front), p);
      Lapses(c, s, Lapsed(rows, Elements(front)), ExpiryTrail(front), id, p, rest);
      Appends(c, s, Lapsed(rows, Elements(ids)), ExpiryTrail(front), id, p, Authorized, Expired, Expiring(rest - {p}));
      TwoSteps(c, Swept(s, Lapsed(rows, Elements(front)), ExpiryTrail(front), id, Expiring(rest)), Expire(id, p), SweepAppend(id));
      RunJoins(c, Swept(s, rows, [], id, Expiring(pending)), steps, [Expire(id, p), SweepAppend(id)]);
      steps := steps + [Expire(id, p), SweepAppend(id)];
      assert rest - {p} == pending - Elements(ids);
    }
  }

  lemma SameStale(s: State)
    ensures StaleRows(s) == StaleAt(TableOf(s), s.now)
  {
  }

  /** `ExpireStale` likewise. */
  lemma ExpiryIsARun(c: Config, s: State, id: nat, expired: seq<nat>) returns (steps: seq<Step>)
    requires id !in s.sweeps
    requires Distinct(expired) && Elements(expired) == StaleAt(TableOf(s), s.now)
    ensures var rows := Lapsed(TableOf(s), StaleAt(TableOf(s), s.now));
            var t := Run(c, s, steps);
            t == Swept(s, rows, ExpiryTrail(expired), id, Expiring({})) && TableOf(t) == rows
  {
    var all := StaleRows(s);
    SameStale(s);
    NothingSwept(s, id, Expiring(all));
    var more := LapsesInTurn(c, s, id, expired, all);
    assert all - Elements(expired) == {};
    steps := [StartExpiry(id)] + more;
    assert steps[1..] == more;
    SweptTable(s, Lapsed(TableOf(s), all), ExpiryTrail(expired), id, Expiring({}));
  }
}
