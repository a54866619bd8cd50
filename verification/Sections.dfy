/** What a step of a request does to the shared store, and what it means to own a lock there. */
module Sections {
  import opened Options
  import opened Lifecycle
  import opened Canonical
  import opened Provider
  import opened TimedStore
  import opened Protocol
  import opened Invariant
  import opened Safety

  type Kv = map<Key, Entry<Value>>

  /** The lock entry is the one this request put there, and its lease has not run out. */
  predicate Owns(kv: Kv, now: int, lock: Key, pa: nat, lease: int) {
    lock in kv && kv[lock] == Entry(Holder(pa), Some(lease)) && now <= lease
  }

  predicate Granted(v: Payment) {
    v.row.Some? && v.row.value.decision == Allow
  }

  predicate IsLock(k: Key) {
    k.IdemLock? || k.FpLock?
  }

  /** A request takes only free locks and drops only its own; records and slots are written by
      the two steps meant for it. */
  ghost predicate WritesOwn(s: State, v: Payment, kv: Kv) {
    && (forall k | k in s.kv && IsLock(k) && Live(s.kv[k], s.now) && s.kv[k].value != Holder(v.req.txn.pa)
          :: k in kv && kv[k] == s.kv[k])
    && (forall k: Key | !IsLock(k) && !(v.req.pc == Remember && k == IdemKeyOf(v.req.txn))
                        && !(v.req.pc == Reserve && k == SlotKeyOf(v.req.txn))
          :: (k in kv <==> k in s.kv) && (k in kv ==> kv[k] == s.kv[k]))
  }

  lemma NextWritesOwn(c: Config, s: State, v: Payment, o: Oracle)
    ensures WritesOwn(s, v, Next(c, s, v, o).kv)
  {
  }

  /** What the leases of a request still promise at this moment. */
  predicate LeasesOk(c: Config, now: int, r: Request) {
    && r.txn.arrived <= now
    && (r.pc == WaitFp ==> r.txn.arrived + c.lockTtl <= r.idemLease <= now + c.lockTtl)
    && (InSection(r.pc) ==>
          && r.txn.arrived + c.lockTtl <= r.idemLease <= r.fpLease - c.fpLockTtl + c.lockTtl
          && r.txn.arrived + c.fpLockTtl <= r.fpLease <= now + c.fpLockTtl
          && (c.env.checkedInWindow ==> r.fpLease < r.txn.arrived + c.window + c.fpLockTtl))
    && OnTime(c, r, now)
  }

  /** Past taking its locks a request only ever gets closer to leaving. */
  predicate Onwards(r: Request, q: Request) {
    && q.txn == r.txn && q.idemLease == r.idemLease && q.fpLease == r.fpLease && q.pc != WaitFp
    && (InSection(q.pc) ==> InSection(r.pc)) && (Unchecked(q.pc) ==> Unchecked(r.pc))
  }

  lemma EarlyOnwards(c: Config, s: State, v: Payment, o: Oracle)
    requires IsEarly(v.req.pc) && !v.req.pc.WaitIdem? && !v.req.pc.WaitFp?
    ensures Onwards(v.req, Next(c, s, v, o).pay.req)
  {
  }

  lemma LateOnwards(c: Config, s: State, v: Payment, o: Oracle)
    requires !IsEarly(v.req.pc) && !WritesRow(v.req.pc) && !v.req.pc.Auditing? && !v.req.pc.Awaiting?
    ensures Onwards(v.req, Next(c, s, v, o).pay.req)
  {
  }

  lemma TalkingOnwards(c: Config, s: State, v: Payment, o: Oracle)
    requires v.req.pc.Auditing? || v.req.pc.Awaiting?
    ensures Onwards(v.req, Next(c, s, v, o).pay.req)
  {
  }

  lemma InsertingOnwards(c: Config, s: State, v: Payment, o: Oracle)
    requires v.req.pc.Insert? || v.req.pc.Blocking?
    ensures Onwards(v.req, Next(c, s, v, o).pay.req)
  {
  }

  lemma WritingOnwards(c: Config, s: State, v: Payment, o: Oracle)
    requires v.req.pc.Minting? || v.req.pc.Moving? || v.req.pc.Consuming?
    ensures Onwards(v.req, Next(c, s, v, o).pay.req)
  {
  }

  lemma NextOnwards(c: Config, s: State, v: Payment, o: Oracle)
    requires !v.req.pc.WaitIdem? && !v.req.pc.WaitFp?
    ensures Onwards(v.req, Next(c, s, v, o).pay.req)
  {
    if IsEarly(v.req.pc) {
      EarlyOnwards(c, s, v, o);
    } else if v.req.pc.Insert? || v.req.pc.Blocking? {
      InsertingOnwards(c, s, v, o);
    } else if WritesRow(v.req.pc) {
      WritingOnwards(c, s, v, o);
    } else if v.req.pc.Auditing? || v.req.pc.Awaiting? {
      TalkingOnwards(c, s, v, o);
    } else {
      LateOnwards(c, s, v, o);
    }
  }

  lemma NextLeases(c: Config, s: State, v: Payment, o: Oracle)
    requires LeasesOk(c, s.now, v.req)
    ensures LeasesOk(c, s.now, Next(c, s, v, o).pay.req)
  {
    if v.req.pc.WaitIdem? || v.req.pc.WaitFp? {
      WaitingLeases(c, s, v, o);
    } else {
      NextOnwards(c, s, v, o);
    }
  }

  lemma WaitingLeases(c: Config, s: State, v: Payment, o: Oracle)
    requires LeasesOk(c, s.now, v.req) && (v.req.pc.WaitIdem? || v.req.pc.WaitFp?)
    ensures LeasesOk(c, s.now, Next(c, s, v, o).pay.req)
  {
  }

  lemma FailingLeases(c: Config, now: int, r: Request, timedOut: bool)
    requires LeasesOk(c, now, r)
    ensures LeasesOk(c, now, Failing(r, timedOut))
  {
  }

  // ---------------------------------------------------------------- giving locks back

  predicate HasFpLock(pc: Pc) {
    InSection(pc) || pc == LeaveFp
  }

  predicate HasIdemLock(pc: Pc) {
    pc == WaitFp || HasFpLock(pc) || pc == LeaveIdem
  }

  /** No live entry of this payment is left under the lock. */
  predicate GivenBack(kv: Kv, now: int, lock: Key, p: nat) {
    Alive(kv, lock, now) ==> kv[lock].value != Holder(p)
  }

  /** What leaving does: it is the release, and the release gives the lock back. */
  predicate LeavesProperly(r: Request, q: Request, kv: Kv, now: int) {
    && (HasFpLock(r.pc) && !HasFpLock(q.pc) ==> r.pc == LeaveFp && GivenBack(kv, now, FpLockOf(r.txn), r.txn.pa))
    && (HasIdemLock(r.pc) && !HasIdemLock(q.pc) ==> r.pc == LeaveIdem && GivenBack(kv, now, IdemLockOf(r.txn), r.txn.pa))
  }

  lemma EarlyLeavesProperly(c: Config, s: State, v: Payment, o: Oracle)
    requires IsEarly(v.req.pc)
    ensures var e := Next(c, s, v, o); LeavesProperly(v.req, e.pay.req, e.kv, s.now)
  {
  }

  lemma WritingLeavesProperly(c: Config, s: State, v: Payment, o: Oracle)
    requires WritesRow(v.req.pc)
    ensures var e := Next(c, s, v, o); LeavesProperly(v.req, e.pay.req, e.kv, s.now)
  {
  }

  lemma LateLeavesProperly(c: Config, s: State, v: Payment, o: Oracle)
    requires !IsEarly(v.req.pc) && !WritesRow(v.req.pc)
    ensures var e := Next(c, s, v, o); LeavesProperly(v.req, e.pay.req, e.kv, s.now)
  {
  }

  lemma FailingLeavesInTurn(r: Request, timedOut: bool)
    ensures var q := Failing(r, timedOut);
            && (HasFpLock(r.pc) && !HasFpLock(q.pc) ==> r.pc == LeaveFp)
            && (HasIdemLock(r.pc) && !HasIdemLock(q.pc) ==> r.pc == LeaveIdem)
  {
  }

  lemma OthersStayInside(c: Config, s: State, step: Step, p: nat)
    requires PaymentsOk(c, s) && p in s.payments && !(step.Advance? && step.pa == p) && !(step.Fail? && step.pa == p)
    ensures p in Do(c, s, step).payments
    ensures var r, q := s.payments[p].req, Do(c, s, step).payments[p].req;
            (HasFpLock(r.pc) <==> HasFpLock(q.pc)) && (HasIdemLock(r.pc) <==> HasIdemLock(q.pc))
  {
    if step.Deliver? {
      DeliverStaysInside(s, step.pa, step.how, step.reference, p);
    } else if step.Advance? || step.Fail? {
      assert Do(c, s, step).payments[p] == s.payments[p];
    }
  }

  lemma DeliverStaysInside(s: State, p: nat, how: Behaviour, reference: nat, q: nat)
    requires q in s.payments
    ensures var t := DoDeliver(s, p, how, reference);
            && q in t.payments
            && (HasFpLock(s.payments[q].req.pc) <==> HasFpLock(t.payments[q].req.pc))
            && (HasIdemLock(s.payments[q].req.pc) <==> HasIdemLock(t.payments[q].req.pc))
  {
  }

  /** Whatever ends a section, an exception anywhere inside included, the locks it took are given back one
      after the other by the release steps; only an exception in a release itself leaves one behind,
      until its lease runs out. */
  lemma LocksAreGivenBack(c: Config, s: State, step: Step, p: nat)
    requires Inv(c, s) && p in s.payments
    ensures p in Do(c, s, step).payments
    ensures var t := Do(c, s, step);
            var r, q := s.payments[p].req, t.payments[p].req;
            && (HasFpLock(r.pc) && !HasFpLock(q.pc) ==>
                  r.pc == LeaveFp && (step.Fail? || GivenBack(t.kv, t.now, FpLockOf(r.txn), p)))
            && (HasIdemLock(r.pc) && !HasIdemLock(q.pc) ==>
                  r.pc == LeaveIdem && (step.Fail? || GivenBack(t.kv, t.now, IdemLockOf(r.txn), p)))
  {
    var v := s.payments[p];
    assert v.req.txn.pa == p;
    if step.Advance? && step.pa == p {
      if IsEarly(v.req.pc) {
        EarlyLeavesProperly(c, s, v, step.oracle);
      } else if WritesRow(v.req.pc) {
        WritingLeavesProperly(c, s, v, step.oracle);
      } else {
        LateLeavesProperly(c, s, v, step.oracle);
      }
    } else if step.Fail? && step.pa == p {
      FailingLeavesInTurn(v.req, step.timedOut);
    } else {
      OthersStayInside(c, s, step, p);
    }
  }

  // ---------------------------------------------------------------- the store in any reachable state

  predicate BelongsTo(k: Key, t: Txn) {
    k == IdemKeyOf(t) || k == SlotKeyOf(t) || k == IdemLockOf(t) || k == FpLockOf(t)
  }

  /** Nothing but stored answers lasts longer than it was meant to. */
  predicate EntryOk(c: Config, now: int, k: Key, e: Entry<Value>) {
    match k
    case IdemKey(_, _) => true
    case SlotKey(_) => e.expires.Some? && e.expires.value <= now + 2 * c.window
    case IdemLock(_, _) => e.expires.Some? && e.expires.value <= now + c.lockTtl
    case FpLock(_, _) => e.expires.Some? && e.expires.value <= now + c.fpLockTtl
  }

  predicate HasOwner(s: State, k: Key) {
    exists p :: p in s.payments && BelongsTo(k, s.payments[p].req.txn)
  }

  ghost predicate AllLeasesOk(c: Config, s: State) {
    forall p | p in s.payments :: LeasesOk(c, s.now, s.payments[p].req)
  }

  ghost predicate StoreOk(c: Config, s: State) {
    && AllLeasesOk(c, s)
    && (forall k | k in s.kv :: EntryOk(c, s.now, k, s.kv[k]) && HasOwner(s, k))
  }

  lemma NextEntries(c: Config, s: State, v: Payment, o: Oracle, k: Key)
    requires k in Next(c, s, v, o).kv
    ensures var kv := Next(c, s, v, o).kv;
            || (k in s.kv && kv[k] == s.kv[k])
            || (BelongsTo(k, v.req.txn) && EntryOk(c, s.now, k, kv[k]))
  {
  }

  lemma AdvanceStoreOk(c: Config, s: State, p: nat, o: Oracle)
    requires Inv(c, s) && StoreOk(c, s) && p in s.payments
    ensures StoreOk(c, DoAdvance(c, s, p, o))
  {
    var t := DoAdvance(c, s, p, o);
    AdvanceStep(c, s, p, o);
    NextLeases(c, s, s.payments[p], o);
    forall k | k in t.kv ensures EntryOk(c, t.now, k, t.kv[k]) && HasOwner(t, k) {
      NextEntries(c, s, s.payments[p], o, k);
      if k in s.kv && t.kv[k] == s.kv[k] {
        OwnerStays(c, s, t, k);
      } else {
        assert BelongsTo(k, t.payments[p].req.txn);
      }
    }
  }

  lemma OwnerStays(c: Config, s: State, t: State, k: Key)
    requires Evolved(c, s, t) && HasOwner(s, k)
    ensures HasOwner(t, k)
  {
    var p :| p in s.payments && BelongsTo(k, s.payments[p].req.txn);
    assert p in t.payments && t.payments[p].req.txn == s.payments[p].req.txn;
  }

  /** Steps of anybody but a request leave the store alone. */
  lemma QuietStoreOk(c: Config, s: State, t: State)
    requires StoreOk(c, s) && Evolved(c, s, t) && t.kv == s.kv
    requires AllLeasesOk(c, t)
    ensures StoreOk(c, t)
  {
    forall k | k in t.kv ensures EntryOk(c, t.now, k, t.kv[k]) && HasOwner(t, k) {
      OwnerStays(c, s, t, k);
    }
  }

  lemma ReplacedLeases(c: Config, s: State, t: State, p: nat, w: Payment)
    requires AllLeasesOk(c, s) && t.payments == s.payments[p := w] && t.now == s.now && LeasesOk(c, s.now, w.req)
    ensures AllLeasesOk(c, t)
  {
  }

  /** Anything but a request's own step leaves its leases in order. */
  lemma QuietLeases(c: Config, s: State, step: Step)
    requires AllLeasesOk(c, s) && !step.Advance?
    ensures AllLeasesOk(c, Do(c, s, step)) && Do(c, s, step).kv == s.kv
  {
    var t := Do(c, s, step);
    match step
    case Tick(_) =>
    case Arrive(p, order, execute) =>
      if t != s {
        ReplacedLeases(c, s, t, p, t.payments[p]);
      }
    case Fail(p, timedOut) => FailLeases(c, s, p, timedOut);
    case Deliver(p, how, reference) => DeliverLeases(c, s, p, how, reference);
    case _ => SweepLeases(c, s, step);
  }

  lemma FailLeases(c: Config, s: State, p: nat, timedOut: bool)
    requires AllLeasesOk(c, s)
    ensures AllLeasesOk(c, DoFail(c, s, p, timedOut)) && DoFail(c, s, p, timedOut).kv == s.kv
  {
    if p in s.payments && MayFail(c, s.payments[p]) {
      FailingLeases(c, s.now, s.payments[p].req, timedOut);
      ReplacedLeases(c, s, DoFail(c, s, p, timedOut), p, s.payments[p].(req := Failing(s.payments[p].req, timedOut)));
    }
  }

  lemma DeliverLeases(c: Config, s: State, p: nat, how: Behaviour, reference: nat)
    requires AllLeasesOk(c, s)
    ensures AllLeasesOk(c, DoDeliver(s, p, how, reference)) && DoDeliver(s, p, how, reference).kv == s.kv
  {
    var t := DoDeliver(s, p, how, reference);
    if t != s {
      assert LeasesOk(c, s.now, s.payments[p].req);
      ReplacedLeases(c, s, t, p, t.payments[p]);
    }
  }

  lemma SweepLeases(c: Config, s: State, step: Step)
    requires AllLeasesOk(c, s)
    requires step.Query? || step.Resolve? || step.Expire? || step.SweepAppend? || step.SweepFail?
             || step.StartReconcile? || step.StartExpiry?
    ensures AllLeasesOk(c, Do(c, s, step)) && Do(c, s, step).kv == s.kv
  {
    var t := Do(c, s, step);
    assert t.now == s.now;
    assert forall p | p in t.payments :: p in s.payments && t.payments[p].req == s.payments[p].req;
  }

  lemma StepStoreOk(c: Config, s: State, step: Step)
    requires Inv(c, s) && StoreOk(c, s)
    ensures StoreOk(c, Do(c, s, step))
  {
    if step.Advance? {
      if step.pa in s.payments {
        AdvanceStoreOk(c, s, step.pa, step.oracle);
      }
    } else {
      StepPayments(c, s, step);
      QuietLeases(c, s, step);
      QuietStoreOk(c, s, Do(c, s, step));
    }
  }

  lemma {:induction false} RunStoreOk(c: Config, s: State, steps: seq<Step>)
    requires Inv(c, s) && StoreOk(c, s)
    ensures StoreOk(c, Run(c, s, steps))
    decreases |steps|
  {
    if steps != [] {
      StepInv(c, s, steps[0]);
      StepStoreOk(c, s, steps[0]);
      RunStoreOk(c, Do(c, s, steps[0]), steps[1..]);
    }
  }
}
