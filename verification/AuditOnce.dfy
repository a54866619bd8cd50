/** Every transition of an authorized payment is in exactly one place: logged, lost, or with the one
    writer that committed it and has yet to append its event. */
module AuditOnce {
  import opened Options
  import opened Lifecycle
  import opened Canonical
  import opened Provider
  import opened Protocol
  import opened Invariant
  import opened Safety
  import opened Charging
  import opened AuditTrail

  /** Who holds the event: the payment's own request (None), or a sweep. */
  predicate HeldBy(s: State, e: LogEntry, who: Option<nat>) {
    e.Edge? &&
    match who
    case None => e.pa in s.payments && s.payments[e.pa].req.pc == Auditing(e.before, e.after)
    case Some(id) => id in s.sweeps && Writes(s.sweeps[id], e)
  }

  lemma HeldBySomeone(s: State, e: LogEntry)
    ensures Held(s, e) <==> exists who :: HeldBy(s, e, who)
  {
    if e.Edge? && e.pa in s.payments && s.payments[e.pa].req.pc == Auditing(e.before, e.after) {
      assert HeldBy(s, e, None);
    } else if Held(s, e) {
      var id :| id in s.sweeps && Writes(s.sweeps[id], e);
      assert HeldBy(s, e, Some(id));
    }
  }

  ghost predicate OnePlace(s: State, e: LogEntry) {
    && (e in s.log ==> e !in s.lost)
    && (forall who | HeldBy(s, e, who) :: e !in s.log && e !in s.lost)
    && (forall who, other | HeldBy(s, e, who) && HeldBy(s, e, other) :: who == other)
  }

  /** Nobody takes the event on, and where it turns up somebody gave it up. */
  ghost predicate Passed(s: State, t: State, e: LogEntry) {
    && (forall who | HeldBy(t, e, who) :: HeldBy(s, e, who))
    && (e in s.log ==> e in t.log) && (e in s.lost ==> e in t.lost)
    && (e in t.log && e in t.lost ==> e in s.log || e in s.lost)
    && ((e in t.log && e !in s.log) || (e in t.lost && e !in s.lost) ==>
          exists who :: HeldBy(s, e, who) && !HeldBy(t, e, who))
  }

  /** The transition is committed, and this writer takes its event on. */
  ghost predicate TakenOn(s: State, t: State, e: LogEntry, taker: Option<nat>) {
    && Went(s, t, e) && (e in t.log <==> e in s.log) && (e in t.lost <==> e in s.lost)
    && (forall who | HeldBy(t, e, who) :: who == taker || HeldBy(s, e, who))
  }

  lemma PassedOnePlace(s: State, t: State, e: LogEntry)
    requires OnePlace(s, e) && Passed(s, t, e)
    ensures OnePlace(t, e)
  {
  }

  /** What is recorded has happened, and nothing happens twice. */
  lemma TakenOnOnePlace(s: State, t: State, e: LogEntry, taker: Option<nat>)
    requires TrailInv(s) && LostHappened(s) && TakenOn(s, t, e, taker) && HistoryOk(RowOf(s, e.pa))
    requires RowOf(t, e.pa).history == RowOf(s, e.pa).history + [e.after] && HistoryOk(RowOf(t, e.pa))
    ensures OnePlace(t, e)
  {
    HistoryIsSimple(RowOf(t, e.pa).history);
    assert !Happened(s, e) by {
      var g, h := RowOf(s, e.pa).history, RowOf(t, e.pa).history;
      assert h[|g|] == e.after && forall i | 0 <= i < |g| :: g[i] == h[i] != e.after;
    }
    HeldBySomeone(s, e);
    assert !Held(s, e);
  }

  ghost predicate LostHappened(s: State) {
    forall e: LogEntry | e in s.lost :: Happened(s, e)
  }

  predicate LoggedOnce(s: State) {
    forall i: nat, j: nat | i < j < |s.log| && s.log[i].Edge? :: s.log[i] != s.log[j]
  }

  ghost predicate Placed(s: State) {
    LostHappened(s) && LoggedOnce(s) && forall e: LogEntry | e.Edge? :: OnePlace(s, e)
  }

  // ---------------------------------------------------------------- requests

  lemma AdvancePlaces(c: Config, s: State, p: nat, o: Oracle, e: LogEntry)
    requires Inv(c, s) && TrailInv(s) && Placed(s) && e.Edge? && p in s.payments
    ensures OnePlace(DoAdvance(c, s, p, o), e)
  {
    var t, v, f := DoAdvance(c, s, p, o), s.payments[p], Next(c, s, s.payments[p], o);
    AdvanceStep(c, s, p, o);
    NextWritesItsEdge(c, s, v, o);
    if e.pa == p && f.pay.req.pc == Auditing(e.before, e.after) {
      assert PaymentOk(c, v) && PaymentOk(c, t.payments[p]);
      OwnHeld(s, t, e);
      TakenOnOnePlace(s, t, e, None);
    } else {
      AdvancePasses(s, t, p, f, e);
      PassedOnePlace(s, t, e);
    }
  }

  /** Sweeps are as they were. */
  lemma OwnHeld(s: State, t: State, e: LogEntry)
    requires t.sweeps == s.sweeps
    ensures forall who: Option<nat> | who.Some? :: HeldBy(t, e, who) <==> HeldBy(s, e, who)
  {
  }

  lemma AdvancePasses(s: State, t: State, p: nat, f: Effect, e: LogEntry)
    requires p in s.payments && s.payments[p].req.txn.pa == p && e.Edge?
    requires t.payments == s.payments[p := f.pay] && t.log == s.log + f.out && t.lost == s.lost && t.sweeps == s.sweeps
    requires WritesItsEdge(s.payments[p], f.pay, f.out)
    requires !(e.pa == p && f.pay.req.pc == Auditing(e.before, e.after))
    ensures Passed(s, t, e)
  {
    OwnHeld(s, t, e);
    if e in f.out {
      assert HeldBy(s, e, None) && !HeldBy(t, e, None);
    }
  }

  lemma FailPlaces(c: Config, s: State, p: nat, timedOut: bool, e: LogEntry)
    requires Placed(s) && e.Edge?
    ensures OnePlace(DoFail(c, s, p, timedOut), e)
  {
    var t := DoFail(c, s, p, timedOut);
    if t != s {
      OwnHeld(s, t, e);
      assert t.payments[p].req.pc == Failing(s.payments[p].req, timedOut).pc;
      if e in t.lost && e !in s.lost {
        assert HeldBy(s, e, None) && !HeldBy(t, e, None);
      }
      PassedOnePlace(s, t, e);
    }
  }

  /** Nobody commits, appends or drops anything. */
  lemma QuietPlaces(s: State, t: State, e: LogEntry)
    requires Placed(s) && e.Edge? && t.log == s.log && t.lost == s.lost && t.sweeps == s.sweeps
    requires forall p | p in t.payments ::
               t.payments[p].req.pc.Auditing? ==> p in s.payments && s.payments[p].req.pc == t.payments[p].req.pc
    ensures OnePlace(t, e)
  {
    OwnHeld(s, t, e);
    assert HeldBy(t, e, None) ==> HeldBy(s, e, None);
    PassedOnePlace(s, t, e);
  }

  lemma QuietStepPlaces(c: Config, s: State, step: Step, e: LogEntry)
    requires Placed(s) && e.Edge? && (step.Tick? || step.Arrive? || step.Deliver?)
    ensures OnePlace(Do(c, s, step), e)
  {
    QuietPlaces(s, Do(c, s, step), e);
  }

  // ---------------------------------------------------------------- sweeps

  lemma SweepMovePlaces(c: Config, s: State, id: nat, p: nat, to: PaymentState, ref: Option<nat>, next: Sweep, e: LogEntry)
    requires Inv(c, s) && TrailInv(s) && Placed(s) && e.Edge?
    requires id in s.sweeps && !s.sweeps[id].Recording?
    ensures OnePlace(SweepMove(s, id, p, to, ref, next), e)
  {
    var t := SweepMove(s, id, p, to, ref, next);
    SweepMoveHeld(s, id, p, to, ref, next, e);
    if HasRow(s, p) && CanMove(RowOf(s, p).state, to) && e == Edge(p, RowOf(s, p).state, to) {
      assert PaymentOk(c, s.payments[p]);
      MovedHistory(RowOf(s, p), to, ref);
      TakenOnOnePlace(s, t, e, Some(id));
    } else {
      PassedOnePlace(s, t, e);
    }
  }

  lemma SweepMoveHeld(s: State, id: nat, p: nat, to: PaymentState, ref: Option<nat>, next: Sweep, e: LogEntry)
    requires id in s.sweeps && !s.sweeps[id].Recording? && e.Edge?
    ensures forall who | HeldBy(SweepMove(s, id, p, to, ref, next), e, who) ::
              HeldBy(s, e, who) || (who == Some(id) && HasRow(s, p) && CanMove(RowOf(s, p).state, to) && e == Edge(p, RowOf(s, p).state, to))
  {
  }

  /** A sweep appends its event, drops it, or goes on without holding one. */
  lemma SweepPlaces(s: State, t: State, id: nat, w: Sweep, e: LogEntry)
    requires Placed(s) && e.Edge? && t.payments == s.payments && t.sweeps == s.sweeps[id := w] && !w.Recording?
    requires e in s.log ==> e in t.log
    requires e in s.lost ==> e in t.lost
    requires t.log == s.log || t.lost == s.lost
    requires (e in t.log && e !in s.log) || (e in t.lost && e !in s.lost) ==> HeldBy(s, e, Some(id))
    ensures OnePlace(t, e)
  {
    assert forall who | HeldBy(t, e, who) :: HeldBy(s, e, who) && who != Some(id);
    assert !HeldBy(t, e, Some(id));
    PassedOnePlace(s, t, e);
  }

  lemma SweepStepPlaces(c: Config, s: State, step: Step, e: LogEntry)
    requires Flat(s) && Placed(s) && e.Edge?
    requires step.StartReconcile? || step.StartExpiry? || step.Query? || step.SweepAppend? || step.SweepFail?
    ensures OnePlace(Do(c, s, step), e)
  {
    var t := Do(c, s, step);
    if t != s {
      SweepPlaces(s, t, step.id, t.sweeps[step.id], e);
    }
  }

  lemma SweepCommitPlaces(c: Config, s: State, step: Step, e: LogEntry)
    requires Inv(c, s) && TrailInv(s) && Placed(s) && e.Edge? && (step.Resolve? || step.Expire?)
    ensures OnePlace(Do(c, s, step), e)
  {
    match step
    case Resolve(id) =>
      if id in s.sweeps && s.sweeps[id].Settling? {
        var w := s.sweeps[id];
        SweepMovePlaces(c, s, id, w.pa, w.to, w.ref, Reconciling(w.rest), e);
      }
    case Expire(id, p) =>
      if id in s.sweeps && s.sweeps[id].Expiring? && p in s.sweeps[id].pending {
        SweepMovePlaces(c, s, id, p, Expired, None, Expiring(s.sweeps[id].pending - {p}), e);
      }
    case _ =>
  }

  // ---------------------------------------------------------------- every step

  lemma StepPlaces(c: Config, s: State, step: Step, e: LogEntry)
    requires Inv(c, s) && TrailInv(s) && Placed(s) && e.Edge?
    ensures OnePlace(Do(c, s, step), e)
  {
    match step
    case Advance(p, o) => if p in s.payments { AdvancePlaces(c, s, p, o, e); }
    case Fail(p, timedOut) => FailPlaces(c, s, p, timedOut, e);
    case Tick(_) => QuietStepPlaces(c, s, step, e);
    case Arrive(_, _, _) => QuietStepPlaces(c, s, step, e);
    case Deliver(_, _, _) => QuietStepPlaces(c, s, step, e);
    case Resolve(_) => SweepCommitPlaces(c, s, step, e);
    case Expire(_, _) => SweepCommitPlaces(c, s, step, e);
    case _ => SweepStepPlaces(c, s, step, e);
  }

  /** A request gets past its decision event only by writing it, or by an append that failed, which is
      swallowed; and past its replay event likewise. */
  lemma DecisionIsLogged(c: Config, s: State, step: Step, p: nat)
    requires Inv(c, s) && p in s.payments && (s.payments[p].req.pc == LogDecision || s.payments[p].req.pc.Replay?)
    requires var r := Do(c, s, step).payments[p].req; r.pc != s.payments[p].req.pc && !r.failed && r.reply.message != InFlight
    ensures step.Advance? && step.pa == p
    ensures var event := if s.payments[p].req.pc == LogDecision then Decided(p) else Replayed(s.payments[p].req.pc.stored.pa);
            Do(c, s, step).log == if step.oracle.ok then s.log + [event] else s.log
  {
    assert s.payments[p].req.txn.pa == p;
    assert s.log + [] == s.log;
    if !step.Advance? || step.pa != p {
      OthersKeepPc(c, s, step, p);
    }
  }

  lemma OthersKeepPc(c: Config, s: State, step: Step, p: nat)
    requires PaymentsOk(c, s) && p in s.payments && (s.payments[p].req.pc == LogDecision || s.payments[p].req.pc.Replay?)
    requires !(step.Advance? && step.pa == p)
    ensures p in Do(c, s, step).payments
    ensures var r := Do(c, s, step).payments[p].req; r.pc == s.payments[p].req.pc || r.failed || r.reply.message == InFlight
  {
    if step.Fail? && step.pa == p {
      FailingIsNoticed(s.payments[p].req, step.timedOut);
    } else if step.Fail? || step.Advance? {
      assert Do(c, s, step).payments[p] == s.payments[p];
    } else {
      QuietKeepsPc(c, s, step, p);
    }
  }

  lemma FailingIsNoticed(r: Request, timedOut: bool)
    requires InSection(r.pc)
    ensures var q := Failing(r, timedOut); q.failed || q.reply.message == InFlight
  {
  }

  lemma QuietKeepsPc(c: Config, s: State, step: Step, p: nat)
    requires p in s.payments && (s.payments[p].req.pc == LogDecision || s.payments[p].req.pc.Replay?)
    requires !step.Advance? && !step.Fail?
    ensures p in Do(c, s, step).payments && Do(c, s, step).payments[p].req.pc == s.payments[p].req.pc
  {
  }

  /** At most one event is appended, and one that somebody held. */
  lemma StepAppends(c: Config, s: State, step: Step)
    requires Inv(c, s) && TrailInv(s)
    ensures var t := Do(c, s, step);
            t.log == s.log || exists x :: t.log == s.log + [x] && (x.Edge? ==> Held(s, x))
  {
    var t := Do(c, s, step);
    if step.Advance? && step.pa in s.payments {
      NextWritesItsEdge(c, s, s.payments[step.pa], step.oracle);
      NextAppendsOne(c, s, s.payments[step.pa], step.oracle);
    } else if step.SweepAppend? && t != s {
      var w := s.sweeps[step.id];
      assert Writes(w, Edge(w.pa, w.before, w.after));
      assert t.log == s.log + [Edge(w.pa, w.before, w.after)];
    }
  }

  lemma NextAppendsOne(c: Config, s: State, v: Payment, o: Oracle)
    ensures Next(c, s, v, o).out == [] || exists x :: Next(c, s, v, o).out == [x]
  {
  }

  lemma StepLogsOnce(c: Config, s: State, step: Step)
    requires Inv(c, s) && TrailInv(s) && Placed(s)
    ensures LoggedOnce(Do(c, s, step))
  {
    var t := Do(c, s, step);
    StepAppends(c, s, step);
    if t.log != s.log {
      var x :| t.log == s.log + [x] && (x.Edge? ==> Held(s, x));
      if x.Edge? {
        HeldBySomeone(s, x);
        assert OnePlace(s, x);
        assert x !in s.log;
      }
    }
  }

  lemma StepLoses(c: Config, s: State, step: Step)
    requires Inv(c, s) && TrailInv(s) && LostHappened(s)
    ensures LostHappened(Do(c, s, step))
  {
    var t := Do(c, s, step);
    forall e: LogEntry | e in t.lost ensures Happened(t, e) {
      if e !in s.lost {
        assert Held(s, e) by {
          NewlyLostWasHeld(c, s, step, e);
        }
      }
      StepEdge(c, s, step, e);
    }
  }

  lemma NewlyLostWasHeld(c: Config, s: State, step: Step, e: LogEntry)
    requires PaymentsOk(c, s) && e in Do(c, s, step).lost && e !in s.lost
    ensures Held(s, e)
  {
    if step.SweepFail? {
      assert Writes(s.sweeps[step.id], e);
    }
  }

  lemma StepPlaced(c: Config, s: State, step: Step)
    requires Inv(c, s) && TrailInv(s) && Placed(s)
    ensures Placed(Do(c, s, step))
  {
    StepLoses(c, s, step);
    StepLogsOnce(c, s, step);
    forall e: LogEntry | e.Edge? ensures OnePlace(Do(c, s, step), e) {
      StepPlaces(c, s, step, e);
    }
  }

  lemma {:induction false} RunPlaced(c: Config, s: State, steps: seq<Step>)
    requires Inv(c, s) && TrailInv(s) && Placed(s)
    ensures Placed(Run(c, s, steps)) && TrailInv(Run(c, s, steps))
    decreases |steps|
  {
    if steps != [] {
      StepInv(c, s, steps[0]);
      StepTrail(c, s, steps[0]);
      StepPlaced(c, s, steps[0]);
      RunPlaced(c, Do(c, s, steps[0]), steps[1..]);
    }
  }

  // ---------------------------------------------------------------- the log against the row

  /** No transition is ever logged twice, or logged and also lost or yet to be appended. */
  lemma LoggedAtMostOnce(c: Config, s: State)
    requires Reachable(c, s)
    ensures LoggedOnce(s)
    ensures forall e: LogEntry | e.Edge? && e in s.log :: e !in s.lost && !Held(s, e)
  {
    var now, steps :| s == Run(c, Init(now), steps);
    RunPlaced(c, Init(now), steps);
    forall e: LogEntry | e.Edge? && e in s.log ensures e !in s.lost && !Held(s, e) {
      assert OnePlace(s, e);
      HeldBySomeone(s, e);
    }
  }

  ghost predicate LogIsHistory(s: State, p: nat)
    requires HasRow(s, p)
  {
    forall a, b :: Edge(p, a, b) in s.log <==> HasEdge(RowOf(s, p).history, a, b)
  }

  /** The log holds exactly the transitions an authorized payment went through, if and only if none of
      them was lost and none is waiting to be appended. */
  lemma LogIsHistoryIff(c: Config, s: State, p: nat)
    requires Reachable(c, s) && HasRow(s, p) && RowOf(s, p).decision == Allow
    ensures LogIsHistory(s, p) <==> forall e: LogEntry | e.Edge? && e.pa == p :: e !in s.lost && !Held(s, e)
  {
    var now, steps :| s == Run(c, Init(now), steps);
    RunPlaced(c, Init(now), steps);
    LoggedAtMostOnce(c, s);
    if LogIsHistory(s, p) {
      forall e: LogEntry | e.Edge? && e.pa == p ensures e !in s.lost && !Held(s, e) {
        assert e == Edge(p, e.before, e.after);
        assert e in s.lost || Held(s, e) ==> Happened(s, e);
      }
    } else if forall e: LogEntry | e.Edge? && e.pa == p :: e !in s.lost && !Held(s, e) {
      AuditTellsTheStory(c, s, p);
    }
  }
}
