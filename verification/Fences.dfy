/** The lock around the section of a fingerprint: whom it keeps out, and exactly when. */
module Fences {
  import opened Options
  import opened Lifecycle
  import opened Canonical
  import opened Provider
  import opened TimedStore
  import opened Protocol
  import opened Invariant
  import opened Safety
  import opened Sections
  import opened Charging

  /** Until then some request of this fingerprint may still be checked for duplicates, in an
      environment where that happens within one window of arrival. */
  function Deadline(c: Config, fp: Fingerprint): int {
    (fp.bucket + 2) * c.window - 1
  }

  lemma DeadlineBounds(c: Config, o: Order, at: int)
    ensures var d := Deadline(c, FingerprintOf(o, at, c.window)); at + c.window <= d < at + 2 * c.window
  {
    var bucket := at / c.window;
    assert bucket * c.window <= at < bucket * c.window + c.window;
    assert (bucket + 2) * c.window == bucket * c.window + 2 * c.window;
  }

  /** The fingerprint lock holds while it matters: its own lease lasts, or the idempotency lock's
      lease lasts and is no longer, or the lease outlives every check of the fingerprint. */
  predicate FpLockHolds(c: Config) {
    || c.env.fpLeaseLasts
    || (c.env.idemLeaseLasts && c.lockTtl <= c.fpLockTtl)
    || 2 * c.window <= c.fpLockTtl + 2
  }

  lemma LeaseOutlasts(c: Config, now: int, r: Request)
    requires FpLockHolds(c) && LeasesOk(c, now, r) && InSection(r.pc)
    requires now < Deadline(c, r.txn.fp) < r.txn.arrived + 2 * c.window
    ensures now <= r.fpLease
  {
  }

  /** While the fingerprint can still be checked, whoever is inside its section owns its lock. */
  predicate FenceOk(c: Config, now: int, kv: Kv, v: Payment) {
    var r, d := v.req, Deadline(c, v.req.txn.fp);
    && LeasesOk(c, now, r)
    && r.txn.arrived + c.window <= d < r.txn.arrived + 2 * c.window
    && r.txn.fp.user == r.txn.order.user
    && (now < d && InSection(r.pc) ==> Owns(kv, now, FpLockOf(r.txn), r.txn.pa, r.fpLease))
  }

  /** Inside the section the own lock is not touched. */
  lemma NextKeepsFence(c: Config, s: State, v: Payment, o: Oracle)
    requires InSection(v.req.pc)
    ensures var kv, k := Next(c, s, v, o).kv, FpLockOf(v.req.txn);
            (k in kv <==> k in s.kv) && (k in kv ==> kv[k] == s.kv[k])
  {
  }

  lemma WaitingFence(c: Config, s: State, v: Payment, o: Oracle)
    requires FenceOk(c, s.now, s.kv, v) && (v.req.pc.WaitIdem? || v.req.pc.WaitFp?)
    ensures var e := Next(c, s, v, o); FenceOk(c, s.now, e.kv, e.pay)
  {
    WaitingLeases(c, s, v, o);
  }

  lemma OwnFence(c: Config, s: State, v: Payment, o: Oracle)
    requires FenceOk(c, s.now, s.kv, v)
    ensures var e := Next(c, s, v, o); FenceOk(c, s.now, e.kv, e.pay)
  {
    if v.req.pc.WaitIdem? || v.req.pc.WaitFp? {
      WaitingFence(c, s, v, o);
    } else {
      NextLeases(c, s, v, o);
      NextOnwards(c, s, v, o);
      if InSection(v.req.pc) {
        NextKeepsFence(c, s, v, o);
      }
    }
  }

  lemma OtherFence(c: Config, s: State, v: Payment, kv: Kv, w: Payment)
    requires FenceOk(c, s.now, s.kv, w) && v.req.txn.pa != w.req.txn.pa && WritesOwn(s, v, kv)
    ensures FenceOk(c, s.now, kv, w)
  {
  }

  /** While the fingerprint is open, two requests inside its section are one and the same. */
  lemma LocksExclude(c: Config, s: State, v: Payment, w: Payment)
    requires FenceOk(c, s.now, s.kv, v) && FenceOk(c, s.now, s.kv, w)
    requires InSection(v.req.pc) && InSection(w.req.pc) && v.req.txn.fp == w.req.txn.fp
    requires s.now < Deadline(c, v.req.txn.fp)
    ensures v.req.txn.pa == w.req.txn.pa
  {
    assert FpLockOf(v.req.txn) == FpLockOf(w.req.txn);
  }

  ghost predicate AllFenced(c: Config, s: State) {
    forall p | p in s.payments :: FenceOk(c, s.now, s.kv, s.payments[p])
  }

  lemma AdvanceFenced(c: Config, s: State, p: nat, o: Oracle)
    requires PaymentsOk(c, s) && AllFenced(c, s) && p in s.payments
    ensures AllFenced(c, DoAdvance(c, s, p, o))
  {
    var v, t := s.payments[p], DoAdvance(c, s, p, o);
    assert v.req.txn.pa == p;
    OwnFence(c, s, v, o);
    NextWritesOwn(c, s, v, o);
    forall q | q in t.payments ensures FenceOk(c, t.now, t.kv, t.payments[q]) {
      if q != p {
        assert s.payments[q].req.txn.pa == q;
        OtherFence(c, s, v, t.kv, s.payments[q]);
      }
    }
  }

  lemma QuietFenced(c: Config, s: State, t: State)
    requires AllFenced(c, s) && AllLeasesOk(c, t) && Quiet(s, t)
    ensures AllFenced(c, t)
  {
    forall p | p in t.payments ensures FenceOk(c, t.now, t.kv, t.payments[p]) {
      assert FenceOk(c, s.now, s.kv, s.payments[p]);
    }
  }

  lemma TickFenced(c: Config, s: State, dt: nat)
    requires FpLockHolds(c) && AllFenced(c, s)
    ensures AllFenced(c, Do(c, s, Tick(dt)))
  {
    var t := Do(c, s, Tick(dt));
    forall p | p in t.payments ensures FenceOk(c, t.now, t.kv, t.payments[p]) {
      var r := s.payments[p].req;
      assert FenceOk(c, s.now, s.kv, s.payments[p]);
      if InSection(r.pc) && t.now < Deadline(c, r.txn.fp) {
        LeaseOutlasts(c, t.now, r);
      }
    }
  }

  lemma ArriveFenced(c: Config, s: State, p: nat, order: Order, execute: bool)
    requires AllFenced(c, s)
    ensures AllFenced(c, DoArrive(c, s, p, order, execute))
  {
    var t := DoArrive(c, s, p, order, execute);
    if t != s {
      DeadlineBounds(c, order, s.now);
      assert FenceOk(c, s.now, s.kv, t.payments[p]);
      forall q | q in t.payments ensures FenceOk(c, t.now, t.kv, t.payments[q]) {
        assert q != p ==> t.payments[q] == s.payments[q];
      }
    }
  }

  /** The store stays as it is, no request arrives and none enters a section. */
  predicate Quiet(s: State, t: State) {
    && t.kv == s.kv && t.now == s.now
    && forall p | p in t.payments :: p in s.payments && StaysOut(s.payments[p].req, t.payments[p].req)
  }

  predicate StaysOut(r: Request, q: Request) {
    q.txn == r.txn && q.fpLease == r.fpLease && (InSection(q.pc) ==> InSection(r.pc))
  }

  lemma FailQuiet(c: Config, s: State, p: nat, timedOut: bool)
    ensures Quiet(s, DoFail(c, s, p, timedOut))
  {
    if p in s.payments {
      assert StaysOut(s.payments[p].req, Failing(s.payments[p].req, timedOut));
    }
  }

  lemma DeliverQuiet(s: State, p: nat, how: Behaviour, reference: nat)
    ensures Quiet(s, DoDeliver(s, p, how, reference))
  {
  }

  lemma SweepQuiet(c: Config, s: State, step: Step)
    requires !step.Tick? && !step.Arrive? && !step.Advance? && !step.Fail? && !step.Deliver?
    ensures Quiet(s, Do(c, s, step))
  {
    assert forall p | p in s.payments :: StaysOut(s.payments[p].req, s.payments[p].req);
  }

  lemma OtherStepQuiet(c: Config, s: State, step: Step)
    requires !step.Tick? && !step.Arrive? && !step.Advance?
    ensures Quiet(s, Do(c, s, step))
  {
    match step
    case Fail(p, timedOut) => FailQuiet(c, s, p, timedOut);
    case Deliver(p, how, reference) => DeliverQuiet(s, p, how, reference);
    case _ => SweepQuiet(c, s, step);
  }

  lemma StepFenced(c: Config, s: State, step: Step)
    requires FpLockHolds(c) && PaymentsOk(c, s) && AllFenced(c, s)
    ensures AllFenced(c, Do(c, s, step))
  {
    match step
    case Tick(dt) => TickFenced(c, s, dt);
    case Arrive(p, order, execute) => ArriveFenced(c, s, p, order, execute);
    case Advance(p, o) => if p in s.payments { AdvanceFenced(c, s, p, o); }
    case _ =>
      QuietLeases(c, s, step);
      OtherStepQuiet(c, s, step);
      QuietFenced(c, s, Do(c, s, step));
  }

  lemma {:induction false} RunFenced(c: Config, s: State, steps: seq<Step>)
    requires FpLockHolds(c) && Inv(c, s) && AllFenced(c, s)
    ensures AllFenced(c, Run(c, s, steps))
    decreases |steps|
  {
    if steps != [] {
      StepInv(c, s, steps[0]);
      StepFenced(c, s, steps[0]);
      RunFenced(c, Do(c, s, steps[0]), steps[1..]);
    }
  }

  /** While its fingerprint can still be checked, at most one request is inside its section. */
  lemma OneSectionPerFingerprint(c: Config, s: State, p: nat, q: nat)
    requires FpLockHolds(c) && Reachable(c, s) && p in s.payments && q in s.payments
    requires InSection(s.payments[p].req.pc) && InSection(s.payments[q].req.pc)
    requires s.payments[p].req.txn.fp == s.payments[q].req.txn.fp
    requires s.now < Deadline(c, s.payments[p].req.txn.fp)
    ensures p == q
  {
    var now, steps :| s == Run(c, Init(now), steps);
    RunInv(c, Init(now), steps);
    RunFenced(c, Init(now), steps);
    LocksExclude(c, s, s.payments[p], s.payments[q]);
  }
}
