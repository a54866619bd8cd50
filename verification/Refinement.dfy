/** The two descriptions of a submission meet here: what the service object does in one call is a
    run of the protocol in which nobody else happens to act. */
module Refinement {
  import opened Options
  import opened Lifecycle
  import opened Canonical
  import opened Provider
  import opened Protocol
  import opened Charging
  import Payments

  const GOOD := Oracle(true, Allow, 0)
  const NO_ANSWER := Oracle(false, Allow, 0)

  lemma Then(c: Config, s: State, steps: seq<Step>, step: Step) returns (more: seq<Step>)
    ensures more == steps + [step] && Run(c, s, more) == Do(c, Run(c, s, steps), step)
  {
    more := steps + [step];
    RunThen(c, s, steps, step);
  }

  /** The state with one payment replaced and some events appended. */
  function With(s: State, p: nat, v: Payment, out: seq<LogEntry>): State {
    s.(payments := s.payments[p := v], log := s.log + out)
  }

  lemma Advances(c: Config, s: State, p: nat, o: Oracle, v: Payment, out: seq<LogEntry>)
    requires p in s.payments && Next(c, s, s.payments[p], o) == Effect(v, s.kv, out)
    ensures Do(c, s, Advance(p, o)) == With(s, p, v, out)
  {
  }

  /** Replacing twice is replacing once; events add up. */
  lemma WithWith(s: State, p: nat, v: Payment, out: seq<LogEntry>, w: Payment, more: seq<LogEntry>)
    ensures With(With(s, p, v, out), p, w, more) == With(s, p, w, out + more)
  {
    assert s.log + out + more == s.log + (out + more);
  }

  /** After the step the run stands at With(s, p, w, out + more). */
  lemma Extend(c: Config, s: State, steps: seq<Step>, p: nat, o: Oracle,
               v: Payment, out: seq<LogEntry>, w: Payment, more: seq<LogEntry>) returns (longer: seq<Step>)
    requires Run(c, s, steps) == With(s, p, v, out)
    requires Next(c, With(s, p, v, out), v, o) == Effect(w, s.kv, more)
    ensures Run(c, s, longer) == With(s, p, w, out + more)
  {
    longer := Then(c, s, steps, Advance(p, o));
    Advances(c, With(s, p, v, out), p, o, w, more);
    WithWith(s, p, v, out, w, more);
  }

  // ---------------------------------------------------------------- handing over

  function Spent(v: Payment): Payment
    requires v.row.Some?
  {
    v.(row := Some(v.row.value.(uses := v.row.value.uses + 1)), req := v.req.(pc := Moving(Submitted, None)))
  }

  function Taken(v: Payment): Payment
    requires v.row.Some?
  {
    v.(row := Some(Payments.HandOver(v.row.value)), req := v.req.(pc := Auditing(Authorized, Submitted)))
  }

  function Handed(v: Payment): Payment
    requires v.row.Some? && v.req.token.Some?
  {
    v.(req := v.req.(pc := Awaiting(None)), row := Some(Payments.HandOver(v.row.value)),
       flying := Some(PostOf(v.req.txn, v.req.token.value)), posts := v.posts + 1)
  }

  /** Ready to consume the token: the row is as authorize left it. */
  predicate Ready(v: Payment, p: nat) {
    && v.req.pc == Consuming && v.req.txn.pa == p && v.req.token.Some?
    && v.row.Some? && v.row.value.state == Authorized && v.row.value.uses == 0
  }

  lemma NextSpends(c: Config, u: State, v: Payment, p: nat)
    requires Ready(v, p)
    ensures Next(c, u, v, GOOD) == Effect(Spent(v), u.kv, [])
  {
  }

  lemma NextTakes(c: Config, u: State, v: Payment, p: nat)
    requires Ready(v, p)
    ensures Next(c, u, Spent(v), GOOD) == Effect(Taken(v), u.kv, [])
  {
  }

  lemma NextAudits(c: Config, u: State, v: Payment, p: nat)
    requires Ready(v, p)
    ensures Next(c, u, Taken(v), GOOD) == Effect(Taken(v).(req := v.req.(pc := Posting)), u.kv, [Edge(p, Authorized, Submitted)])
  {
  }

  lemma NextPosts(c: Config, u: State, v: Payment, p: nat)
    requires Ready(v, p)
    ensures Next(c, u, Taken(v).(req := v.req.(pc := Posting)), GOOD) == Effect(Handed(v), u.kv, [])
  {
  }

  /** Consume, commit SUBMITTED, append its event, send the POST. */
  lemma HandsOver(c: Config, s: State, p: nat) returns (steps: seq<Step>)
    requires p in s.payments && Ready(s.payments[p], p)
    ensures Run(c, s, steps) == With(s, p, Handed(s.payments[p]), [Edge(p, Authorized, Submitted)])
  {
    var v := s.payments[p];
    var w, e := Taken(v).(req := v.req.(pc := Posting)), [Edge(p, Authorized, Submitted)];
    assert With(s, p, v, []) == s by {
      assert s.log + [] == s.log;
    }
    NextSpends(c, With(s, p, v, []), v, p);
    steps := Extend(c, s, [], p, GOOD, v, [], Spent(v), []);
    NextTakes(c, With(s, p, Spent(v), []), v, p);
    steps := Extend(c, s, steps, p, GOOD, Spent(v), [], Taken(v), []);
    NextAudits(c, With(s, p, Taken(v), []), v, p);
    steps := Extend(c, s, steps, p, GOOD, Taken(v), [], w, e);
    NextPosts(c, With(s, p, w, e), v, p);
    steps := Extend(c, s, steps, p, GOOD, w, e, Handed(v), []);
    assert e + [] == e;
  }

  // ---------------------------------------------------------------- the answer, or none

  /** What the provider made of a POST under way, and what the client heard of it. */
  function Meeting(s: State, v: Payment, network: Payments.Network, how: Behaviour, reference: nat)
    : (Option<Charge>, Option<Answer>)
    requires v.flying.Some?
  {
    var post := v.flying.value;
    var (charge, answer) := Assess(s.consumed, post.body, Some(post.token), how, s.now, reference);
    if network.LostOnTheWay? then (None, None)
    else (charge, if network.Answered? then Some(answer) else None)
  }

  /** Where the request goes on once it stopped waiting. */
  function Onward(heard: Option<Answer>): (PaymentState, Option<nat>) {
    match heard
    case None => (Timeout, None)
    case Some(AnsweredConfirmed(ref)) => (Confirmed, Some(ref))
    case Some(ConfirmedAfterHang(ref)) => (Confirmed, Some(ref))
    case Some(_) => (Failed, None)
  }

  /** The same but for one payment and what the provider has spent. */
  predicate OnlyThis(s: State, t: State, p: nat) {
    && p in s.payments && p in t.payments && t.payments == s.payments[p := t.payments[p]]
    && t.now == s.now && t.kv == s.kv && t.sweeps == s.sweeps && t.lost == s.lost
    && t.payments[p].req.txn == s.payments[p].req.txn
  }

  /** The request moved on; the row, the books and the trail did not. */
  predicate MovedOn(s: State, t: State, p: nat, to: PaymentState, ref: Option<nat>) {
    && OnlyThis(s, t, p) && t.log == s.log && t.consumed == s.consumed
    && t.payments[p].req.pc == Moving(to, ref)
    && t.payments[p].row == s.payments[p].row && t.payments[p].posts == s.payments[p].posts
    && t.payments[p].charge == s.payments[p].charge
  }

  lemma LosesPatience(c: Config, s: State, p: nat)
    requires p in s.payments && s.payments[p].req.pc.Awaiting?
    ensures MovedOn(s, Do(c, s, Advance(p, NO_ANSWER)), p, Timeout, None)
  {
    assert s.log + [] == s.log;
  }

  lemma HearsAnswer(c: Config, s: State, p: nat, answer: Answer)
    requires p in s.payments && s.payments[p].req.pc == Awaiting(Some(answer))
    requires answer.ConfirmedAfterHang? ==> c.shortHang
    ensures MovedOn(s, Do(c, s, Advance(p, GOOD)), p, Onward(Some(answer)).0, Onward(Some(answer)).1)
  {
    assert s.log + [] == s.log;
  }

  lemma Arrives(c: Config, s: State, p: nat, how: Behaviour, reference: nat)
    requires p in s.payments && s.payments[p].req.pc == Awaiting(None) && s.payments[p].flying.Some?
    ensures var t, v := Do(c, s, Deliver(p, how, reference)), s.payments[p];
            var (charge, answer) := Assess(s.consumed, v.flying.value.body, Some(v.flying.value.token), how, s.now, reference);
            && OnlyThis(s, t, p) && t.log == s.log && t.payments[p].req.pc == Awaiting(Some(answer))
            && t.payments[p].row == v.row && t.payments[p].posts == v.posts
            && t.payments[p].charge == (if charge.Some? then charge else v.charge)
            && t.consumed == (if charge.Some? then s.consumed + {v.flying.value.token.jti} else s.consumed)
  {
  }

  /** A provider that took the token hangs and is still heard. */
  predicate Soothed(s: State, post: Post, network: Payments.Network, how: Behaviour) {
    network.Answered? && how == Hang && Payments.Accepted(s.consumed, post, s.now)
  }

  /** Waiting, until an answer or the end of the client's patience. */
  lemma StopsWaiting(c: Config, s: State, p: nat, network: Payments.Network, how: Behaviour, reference: nat)
    returns (steps: seq<Step>)
    requires p in s.payments && s.payments[p].req.pc == Awaiting(None) && s.payments[p].flying.Some?
    requires Soothed(s, s.payments[p].flying.value, network, how) ==> c.shortHang
    ensures var t, v := Run(c, s, steps), s.payments[p];
            var (charge, heard) := Meeting(s, v, network, how, reference);
            && OnlyThis(s, t, p) && t.log == s.log
            && t.payments[p].req.pc == Moving(Onward(heard).0, Onward(heard).1)
            && t.payments[p].row == v.row && t.payments[p].posts == v.posts
            && t.payments[p].charge == (if charge.Some? then charge else v.charge)
            && t.consumed == (if charge.Some? then s.consumed + {v.flying.value.token.jti} else s.consumed)
  {
    var v := s.payments[p];
    if network.LostOnTheWay? {
      steps := Then(c, s, [], Advance(p, NO_ANSWER));
      LosesPatience(c, s, p);
    } else {
      steps := Then(c, s, [], Deliver(p, how, reference));
      Arrives(c, s, p, how, reference);
      var u := Run(c, s, steps);
      steps := Then(c, s, steps, Advance(p, if network.Answered? then GOOD else NO_ANSWER));
      if network.Answered? {
        HearsAnswer(c, u, p, u.payments[p].req.pc.answer.value);
      } else {
        LosesPatience(c, u, p);
      }
    }
  }

  /** One transition: commit, then append. */
  lemma MovesAndAudits(c: Config, s: State, p: nat) returns (steps: seq<Step>)
    requires p in s.payments && s.payments[p].req.pc.Moving? && s.payments[p].req.txn.pa == p
    requires s.payments[p].row.Some? && CanMove(s.payments[p].row.value.state, s.payments[p].req.pc.to)
    ensures var t, v := Run(c, s, steps), s.payments[p];
            var to, ref := v.req.pc.to, v.req.pc.ref;
            && OnlyThis(s, t, p) && t.consumed == s.consumed
            && t.log == s.log + [Edge(p, v.row.value.state, to)]
            && t.payments[p].row == Some(Moved(v.row.value, to, ref))
            && t.payments[p].posts == v.posts && t.payments[p].charge == v.charge
            && (to == Timeout ==> t.payments[p].req.pc == Moving(Unknown, None))
  {
    var v := s.payments[p];
    var to, ref := v.req.pc.to, v.req.pc.ref;
    var w := v.(row := Some(Moved(v.row.value, to, ref)), req := v.req.(pc := Auditing(v.row.value.state, to)));
    assert With(s, p, v, []) == s by {
      assert s.log + [] == s.log;
    }
    steps := Extend(c, s, [], p, GOOD, v, [], w, []);
    steps := Extend(c, s, steps, p, GOOD, w, [], w.(req := AfterMove(w.req, to)), [Edge(p, v.row.value.state, to)]);
  }

  /** Writing down what was heard. */
  lemma Concludes(c: Config, s: State, p: nat, heard: Option<Answer>) returns (steps: seq<Step>)
    requires p in s.payments && s.payments[p].req.pc == Moving(Onward(heard).0, Onward(heard).1)
    requires s.payments[p].req.txn.pa == p && s.payments[p].row.Some? && s.payments[p].row.value.state == Submitted
    ensures var t, v := Run(c, s, steps), s.payments[p];
            && OnlyThis(s, t, p) && t.consumed == s.consumed
            && t.log == s.log + Payments.Conclusion(p, heard)
            && t.payments[p].row == Some(Payments.Conclude(v.row.value, heard))
            && t.payments[p].posts == v.posts && t.payments[p].charge == v.charge
  {
    steps := MovesAndAudits(c, s, p);
    if heard.None? {
      var t := Run(c, s, steps);
      var more := MovesAndAudits(c, t, p);
      RunJoins(c, s, steps, more);
      steps := steps + more;
    }
  }

  /** The service's submit is a run of the protocol: some sequence of steps, none of them anybody
      else's, leaves the row, the trail, the provider and the number of POSTs just as one call of
      `PaymentService.Submit` leaves them. What every run keeps, every call therefore keeps. */
  lemma SubmitIsARun(c: Config, s: State, p: nat, books: Psp, network: Payments.Network, how: Behaviour, reference: nat)
    returns (steps: seq<Step>)
    requires p in s.payments && Ready(s.payments[p], p)
    requires books.consumed == s.consumed && Lookup(books.charges, p) == s.payments[p].charge
    requires Soothed(s, PostOf(s.payments[p].req.txn, s.payments[p].req.token.value), network, how) ==> c.shortHang
    ensures var t, v := Run(c, s, steps), s.payments[p];
            var (after, heard) := Payments.AtProvider(books, PostOf(v.req.txn, v.req.token.value), network, how, s.now, reference);
            && OnlyThis(s, t, p)
            && t.payments[p].row == Some(Payments.Conclude(Payments.HandOver(v.row.value), heard))
            && t.log == s.log + [Edge(p, Authorized, Submitted)] + Payments.Conclusion(p, heard)
            && t.consumed == after.consumed && t.payments[p].charge == Lookup(after.charges, p)
            && t.payments[p].posts == v.posts + 1
  {
    steps := HandsOver(c, s, p);
    var s1 := Run(c, s, steps);
    var more := StopsWaiting(c, s1, p, network, how, reference);
    RunJoins(c, s, steps, more);
    steps := steps + more;
    var s2 := Run(c, s, steps);
    var (charge, heard) := Meeting(s1, s1.payments[p], network, how, reference);
    more := Concludes(c, s2, p, heard);
    RunJoins(c, s, steps, more);
    steps := steps + more;
  }
}
