/** The audit log as a record of state changes. A transition is committed in one step and its
    event appended in a later one, other requests and sweeps acting in between; the append may
    also be lost to an exception. */
module AuditTrail {
  import opened Options
  import opened Lifecycle
  import opened Canonical
  import opened Provider
  import opened Protocol
  import opened Invariant
  import opened Safety
  import opened Charging
  import opened Spending

  /** Some writer has committed the transition and not yet appended its event. */
  ghost predicate Held(s: State, e: LogEntry) {
    e.Edge? &&
    (|| (e.pa in s.payments && s.payments[e.pa].req.pc == Auditing(e.before, e.after))
     || (exists id :: id in s.sweeps && Writes(s.sweeps[id], e)))
  }

  predicate Writes(w: Sweep, e: LogEntry) {
    w.Recording? && e == Edge(w.pa, w.before, w.after)
  }

  ghost predicate Recorded(s: State, e: LogEntry) {
    e in s.log || e in s.lost || Held(s, e)
  }

  /** The transition really happened. */
  predicate Happened(s: State, e: LogEntry) {
    e.Edge? && HasRow(s, e.pa) && HasEdge(RowOf(s, e.pa).history, e.before, e.after)
  }

  ghost predicate TrailInv(s: State) {
    && (forall e: LogEntry | e.Edge? && e in s.log :: Happened(s, e))
    && (forall e: LogEntry | Held(s, e) :: Happened(s, e))
    && (forall e: LogEntry | Happened(s, e) && RowOf(s, e.pa).decision == Allow :: Recorded(s, e))
    && Flat(s)
  }

  /** What one step does to the record of one transition. */
  ghost predicate EdgeStep(s: State, t: State, e: LogEntry) {
    && (Happened(s, e) ==> Happened(t, e))
    && (Happened(t, e) && !Happened(s, e) && RowOf(t, e.pa).decision == Allow ==> Held(t, e))
    && (Recorded(s, e) ==> Recorded(t, e))
    && (e in t.log && e !in s.log ==> Held(s, e))
    && (Held(t, e) && !Held(s, e) ==> Happened(t, e))
  }

  /** The row went from e.before to e.after. */
  predicate Went(s: State, t: State, e: LogEntry) {
    && e.Edge? && HasRow(s, e.pa) && HasRow(t, e.pa)
    && RowOf(s, e.pa).state == e.before && RowOf(t, e.pa).state == e.after && e.before != e.after
  }

  lemma HappenedStays(s: State, t: State, e: LogEntry)
    requires e.Edge? && e.pa in s.payments && e.pa in t.payments && Evolves(s.payments[e.pa], t.payments[e.pa])
    requires HasRow(s, e.pa) ==> HistoryOk(RowOf(s, e.pa))
    ensures Happened(t, e) <==> Happened(s, e) || Went(s, t, e)
  {
    if HasRow(s, e.pa) && RowOf(t, e.pa).state != RowOf(s, e.pa).state {
      ExtendHistory(RowOf(s, e.pa).history, RowOf(t, e.pa).state);
    }
  }

  /** A step of a request appends just the event it holds, and commits a transition of an
      authorized payment just when it comes to hold the next one. */
  predicate WritesItsEdge(v: Payment, w: Payment, out: seq<LogEntry>) {
    var pc := v.req.pc;
    && (forall e | e in out && e.Edge? :: pc.Auditing? && e == Edge(v.req.txn.pa, pc.before, pc.after))
    && (pc.Auditing? ==> Edge(v.req.txn.pa, pc.before, pc.after) in out && !w.req.pc.Auditing?)
    && (w.req.pc.Auditing? ==>
          && v.row.Some? && w.row.Some? && v.row.value.state != w.row.value.state
          && w.req.pc == Auditing(v.row.value.state, w.row.value.state))
    && (v.row.Some? && w.row.Some? && v.row.value.state != w.row.value.state && v.row.value.decision == Allow ==>
          w.req.pc.Auditing?)
  }

  lemma NextWritesItsEdge(c: Config, s: State, v: Payment, o: Oracle)
    requires PaymentOk(c, v)
    ensures var e := Next(c, s, v, o); WritesItsEdge(v, e.pay, e.out)
  {
    if !WritesRow(v.req.pc) {
      NextKeepsRow(c, s, v, o);
      KeepsRowWritesItsEdge(c, s, v, o);
    } else if v.req.pc.Insert? || v.req.pc.Blocking? {
      InsertWritesItsEdge(c, s, v, o);
    } else {
      UpdateWritesItsEdge(c, s, v, o);
    }
  }

  lemma InsertWritesItsEdge(c: Config, s: State, v: Payment, o: Oracle)
    requires PaymentOk(c, v) && (v.req.pc.Insert? || v.req.pc.Blocking?)
    ensures var e := Next(c, s, v, o); WritesItsEdge(v, e.pay, e.out)
  {
  }

  lemma UpdateWritesItsEdge(c: Config, s: State, v: Payment, o: Oracle)
    requires PaymentOk(c, v) && (v.req.pc.Minting? || v.req.pc.Moving? || v.req.pc.Consuming?)
    ensures var e := Next(c, s, v, o); WritesItsEdge(v, e.pay, e.out)
  {
  }

  lemma KeepsRowWritesItsEdge(c: Config, s: State, v: Payment, o: Oracle)
    requires !WritesRow(v.req.pc)
    ensures var e := Next(c, s, v, o);
            && (forall x | x in e.out && x.Edge? :: v.req.pc.Auditing? && x == Edge(v.req.txn.pa, v.req.pc.before, v.req.pc.after))
            && (v.req.pc.Auditing? ==> Edge(v.req.txn.pa, v.req.pc.before, v.req.pc.after) in e.out)
            && !e.pay.req.pc.Auditing?
  {
  }

  /** Steps that leave rows alone and do not take an event from whoever holds it. */
  lemma QuietEdge(s: State, t: State, e: LogEntry)
    requires e.Edge?
    requires HasRow(t, e.pa) <==> HasRow(s, e.pa)
    requires HasRow(s, e.pa) ==> RowOf(t, e.pa) == RowOf(s, e.pa)
    requires Recorded(s, e) ==> Recorded(t, e)
    requires e in t.log ==> e in s.log
    requires Held(t, e) ==> Held(s, e)
    ensures EdgeStep(s, t, e)
  {
  }

  lemma AdvanceEdge(c: Config, s: State, p: nat, o: Oracle, e: LogEntry)
    requires PaymentsOk(c, s) && p in s.payments && e.Edge?
    ensures EdgeStep(s, DoAdvance(c, s, p, o), e)
  {
    var t := DoAdvance(c, s, p, o);
    NextWritesItsEdge(c, s, s.payments[p], o);
    if e.pa == p {
      AdvanceStep(c, s, p, o);
      OwnEdge(c, s, t, Next(c, s, s.payments[p], o), e);
    } else {
      QuietEdge(s, t, e);
    }
  }

  lemma OwnEdge(c: Config, s: State, t: State, f: Effect, e: LogEntry)
    requires PaymentsOk(c, s) && e.Edge? && e.pa in s.payments
    requires t.payments == s.payments[e.pa := f.pay] && t.log == s.log + f.out && t.lost == s.lost && t.sweeps == s.sweeps
    requires Evolves(s.payments[e.pa], f.pay) && WritesItsEdge(s.payments[e.pa], f.pay, f.out)
    ensures EdgeStep(s, t, e)
  {
    assert PaymentOk(c, s.payments[e.pa]);
    HappenedStays(s, t, e);
  }

  /** Whoever held an event still does, or it is lost. */
  lemma FailLosesOwn(c: Config, s: State, p: nat, timedOut: bool, e: LogEntry)
    requires e.Edge?
    ensures var t := DoFail(c, s, p, timedOut); (Held(t, e) ==> Held(s, e)) && (Held(s, e) ==> Held(t, e) || e in t.lost)
  {
    var t := DoFail(c, s, p, timedOut);
    if t != s {
      assert !t.payments[p].req.pc.Auditing?;
      assert t.sweeps == s.sweeps;
    }
  }

  lemma FailEdge(c: Config, s: State, p: nat, timedOut: bool, e: LogEntry)
    requires e.Edge?
    ensures EdgeStep(s, DoFail(c, s, p, timedOut), e)
  {
    FailLosesOwn(c, s, p, timedOut, e);
    QuietEdge(s, DoFail(c, s, p, timedOut), e);
  }

  lemma DeliverEdge(c: Config, s: State, p: nat, how: Behaviour, reference: nat, e: LogEntry)
    requires PaymentsOk(c, s) && e.Edge?
    ensures EdgeStep(s, DoDeliver(s, p, how, reference), e)
  {
    QuietEdge(s, DoDeliver(s, p, how, reference), e);
  }

  lemma SweepMoveEdge(s: State, id: nat, p: nat, to: PaymentState, ref: Option<nat>, next: Sweep, e: LogEntry)
    requires HasRow(s, p) ==> HistoryOk(RowOf(s, p))
    requires id in s.sweeps && !s.sweeps[id].Recording? && e.Edge?
    ensures EdgeStep(s, SweepMove(s, id, p, to, ref, next), e)
  {
    var t := SweepMove(s, id, p, to, ref, next);
    if HasRow(s, p) && CanMove(RowOf(s, p).state, to) && e.pa == p {
      HappenedStays(s, t, e);
      assert Writes(t.sweeps[id], Edge(p, RowOf(s, p).state, to));
    }
    forall other | other in s.sweeps && Writes(s.sweeps[other], e) ensures Writes(t.sweeps[other], e) {
      assert other != id;
    }
  }

  /** A sweep appends its event, drops it, or goes on without holding one. */
  lemma SweepEdge(s: State, t: State, id: nat, w: Sweep, e: LogEntry)
    requires e.Edge? && t.payments == s.payments && t.sweeps == s.sweeps[id := w] && !w.Recording?
    requires e in s.log ==> e in t.log
    requires e in s.lost ==> e in t.lost
    requires e in t.log && e !in s.log ==> id in s.sweeps && Writes(s.sweeps[id], e)
    requires id in s.sweeps && Writes(s.sweeps[id], e) ==> e in t.log || e in t.lost
    ensures EdgeStep(s, t, e)
  {
    forall other | other in s.sweeps && other != id && Writes(s.sweeps[other], e)
      ensures other in t.sweeps && Writes(t.sweeps[other], e) {
    }
  }

  lemma RequestEdge(c: Config, s: State, step: Step, e: LogEntry)
    requires Inv(c, s) && e.Edge?
    requires step.Advance? || step.Fail? || step.Deliver? || step.Arrive? || step.Tick?
    ensures EdgeStep(s, Do(c, s, step), e)
  {
    match step
    case Advance(p, o) => if p in s.payments { AdvanceEdge(c, s, p, o, e); }
    case Fail(p, timedOut) => FailEdge(c, s, p, timedOut, e);
    case Deliver(p, how, reference) => DeliverEdge(c, s, p, how, reference, e);
    case _ => QuietEdge(s, Do(c, s, step), e);
  }

  lemma SweepMovesEdge(c: Config, s: State, step: Step, e: LogEntry)
    requires Inv(c, s) && e.Edge? && (step.Resolve? || step.Expire?)
    ensures EdgeStep(s, Do(c, s, step), e)
  {
    match step
    case Resolve(id) =>
      if id in s.sweeps && s.sweeps[id].Settling? {
        var w := s.sweeps[id];
        assert HasRow(s, w.pa) ==> PaymentOk(c, s.payments[w.pa]);
        SweepMoveEdge(s, id, w.pa, w.to, w.ref, Reconciling(w.rest), e);
      }
    case Expire(id, p) =>
      if id in s.sweeps && s.sweeps[id].Expiring? && p in s.sweeps[id].pending {
        assert HasRow(s, p) ==> PaymentOk(c, s.payments[p]);
        SweepMoveEdge(s, id, p, Expired, None, Expiring(s.sweeps[id].pending - {p}), e);
      }
    case _ =>
  }

  lemma StepEdge(c: Config, s: State, step: Step, e: LogEntry)
    requires Inv(c, s) && TrailInv(s) && e.Edge?
    ensures EdgeStep(s, Do(c, s, step), e)
  {
    var t := Do(c, s, step);
    match step
    case Resolve(_) => SweepMovesEdge(c, s, step, e);
    case Expire(_, _) => SweepMovesEdge(c, s, step, e);
    case StartReconcile(id) => StartEdge(s, t, id, e);
    case StartExpiry(id) => StartEdge(s, t, id, e);
    case Query(_, _, _) => SweepOwnEdge(c, s, step, e);
    case SweepAppend(_) => SweepOwnEdge(c, s, step, e);
    case SweepFail(_) => SweepOwnEdge(c, s, step, e);
    case _ => RequestEdge(c, s, step, e);
  }

  lemma SweepOwnEdge(c: Config, s: State, step: Step, e: LogEntry)
    requires TrailInv(s) && e.Edge? && (step.Query? || step.SweepAppend? || step.SweepFail?)
    ensures EdgeStep(s, Do(c, s, step), e)
  {
    var t := Do(c, s, step);
    if t != s {
      SweepEdge(s, t, step.id, t.sweeps[step.id], e);
    }
  }

  lemma StartEdge(s: State, t: State, id: nat, e: LogEntry)
    requires e.Edge? && t.payments == s.payments && t.log == s.log && t.lost == s.lost
    requires t == s || (id !in s.sweeps && id in t.sweeps && !t.sweeps[id].Recording? && t.sweeps == s.sweeps[id := t.sweeps[id]])
    ensures EdgeStep(s, t, e)
  {
    if t != s {
      SweepEdge(s, t, id, t.sweeps[id], e);
    }
  }

  predicate Flat(s: State) {
    forall id | id in s.sweeps && s.sweeps[id].Recording? :: !s.sweeps[id].next.Recording?
  }

  lemma StepFlat(c: Config, s: State, step: Step)
    requires Flat(s)
    ensures Flat(Do(c, s, step))
  {
  }

  lemma TrailFromEdges(s: State, t: State)
    requires TrailInv(s) && Flat(t)
    requires forall e: LogEntry | e.Edge? :: EdgeStep(s, t, e)
    requires forall p | HasRow(s, p) :: HasRow(t, p) && RowOf(t, p).decision == RowOf(s, p).decision
    ensures TrailInv(t)
  {
  }

  lemma StepTrail(c: Config, s: State, step: Step)
    requires Inv(c, s) && TrailInv(s)
    ensures TrailInv(Do(c, s, step))
  {
    var t := Do(c, s, step);
    forall e: LogEntry | e.Edge? ensures EdgeStep(s, t, e) {
      StepEdge(c, s, step, e);
    }
    StepFlat(c, s, step);
    StepPayments(c, s, step);
    TrailFromEdges(s, t);
  }

  lemma {:induction false} RunTrail(c: Config, s: State, steps: seq<Step>)
    requires Inv(c, s) && TrailInv(s)
    ensures TrailInv(Run(c, s, steps))
    decreases |steps|
  {
    if steps != [] {
      StepInv(c, s, steps[0]);
      StepTrail(c, s, steps[0]);
      RunTrail(c, Do(c, s, steps[0]), steps[1..]);
    }
  }

  /** With no append lost and none pending, the audited edges of an authorized payment are, as a
      set, one simple path from CREATED to its present state: at most five transitions, no state
      twice. The log alone tells the story: only one history fits it. */
  lemma AuditTellsTheStory(c: Config, s: State, p: nat)
    requires Reachable(c, s) && HasRow(s, p) && RowOf(s, p).decision == Allow
    requires forall e: LogEntry | e.Edge? && e.pa == p :: e !in s.lost && !Held(s, e)
    ensures forall a, b :: Edge(p, a, b) in s.log <==> HasEdge(RowOf(s, p).history, a, b)
    ensures var h := RowOf(s, p).history;
            && IsHistory(h) && h[|h| - 1] == RowOf(s, p).state
            && |h| <= 6 && (forall i, j | 0 <= i < j < |h| :: h[i] != h[j])
    ensures forall g :: IsHistory(g) && (forall a, b :: Edge(p, a, b) in s.log <==> HasEdge(g, a, b))
              ==> g == RowOf(s, p).history
  {
    ReachableInv(c, s);
    assert PaymentOk(c, s.payments[p]);
    var now, steps :| s == Run(c, Init(now), steps);
    RunTrail(c, Init(now), steps);
    HistoryIsSimple(RowOf(s, p).history);
    forall a, b ensures Edge(p, a, b) in s.log <==> HasEdge(RowOf(s, p).history, a, b) {
      var e := Edge(p, a, b);
      assert e in s.log ==> Happened(s, e);
      assert Happened(s, e) ==> Recorded(s, e);
    }
    forall g | IsHistory(g) && (forall a, b :: Edge(p, a, b) in s.log <==> HasEdge(g, a, b))
      ensures g == RowOf(s, p).history
    {
      EdgesDetermineHistory(g, RowOf(s, p).history);
    }
  }
}
