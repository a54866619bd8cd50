/** The payment provider: it verifies the scoped token, re-checks the binding against the
    charge body, spends the token, and records the charge. */
module Provider {
  import opened Options

  /** The claims of an authorization token. */
  datatype Token = Token(
    jti: nat, pa: nat, merchant: nat, amount: nat, currency: nat, cart: nat, expires: int)

  datatype Body = Body(
    pa: nat, key: nat, merchant: nat, amount: nat, currency: nat, cart: nat)

  datatype Behaviour = Success | Decline | Error | Hang

  datatype Charge =
    | Declined
    | Charged(reference: nat, amount: nat, currency: nat, merchant: nat)

  datatype Answer =
    | Rejected(status: nat)
    | AnsweredDeclined
    | AnsweredConfirmed(reference: nat)
    | ConfirmedAfterHang(reference: nat)  // says confirmed, but recorded nothing

  datatype Psp = Psp(charges: map<nat, Charge>, consumed: set<nat>, calls: seq<nat>)

  /** The token is the authority, not the body. */
  predicate Matches(t: Token, b: Body) {
    && t.merchant == b.merchant
    && t.currency == b.currency
    && t.cart == b.cart
    && t.pa == b.pa
    && t.amount == b.amount
  }

  /** What the provider answers, and the charge it records, if any. */
  function Assess(consumed: set<nat>, b: Body, token: Option<Token>, how: Behaviour, now: int, reference: nat)
    : (Option<Charge>, Answer)
  {
    if token.None? || token.value.expires <= now then (None, Rejected(401))
    else if token.value.jti in consumed then (None, Rejected(409))
    else if !Matches(token.value, b) then (None, Rejected(422))
    else
      match how
      case Hang => (None, ConfirmedAfterHang(reference))
      case Error => (None, Rejected(502))
      case Decline => (Some(Declined), AnsweredDeclined)
      case Success => (Some(Charged(reference, b.amount, b.currency, b.merchant)), AnsweredConfirmed(reference))
  }

  /** Recording a charge spends the token. */
  function Handle(p: Psp, b: Body, token: Option<Token>, how: Behaviour, now: int, reference: nat)
    : (Psp, Answer)
  {
    var q := p.(calls := p.calls + [b.pa]);
    var (charge, answer) := Assess(p.consumed, b, token, how, now, reference);
    if charge.Some? && token.Some?
    then (q.(consumed := p.consumed + {token.value.jti}, charges := p.charges[b.pa := charge.value]), answer)
    else (q, answer)
  }

  /** The customer's money was taken. */
  predicate IsPaid(charge: Option<Charge>) {
    charge.Some? && charge.value.Charged?
  }

  datatype Call = Call(body: Body, token: Option<Token>, how: Behaviour, now: int, reference: nat)

  function Serve(p: Psp, calls: seq<Call>): Psp
    decreases |calls|
  {
    if calls == [] then p else
      var x := calls[0];
      Serve(Handle(p, x.body, x.token, x.how, x.now, x.reference).0, calls[1..])
  }

  /** A spent token can never move money again: whatever is presented with it, in any later
      run of calls, every charge recorded is one some other token paid for. */
  lemma {:induction false} SpentTokenIsInert(p: Psp, calls: seq<Call>, jti: nat)
    requires jti in p.consumed
    requires forall i | 0 <= i < |calls| :: calls[i].token.Some? ==> calls[i].token.value.jti == jti
    ensures Serve(p, calls).charges == p.charges
    ensures |Serve(p, calls).calls| == |p.calls| + |calls|
    decreases |calls|
  {
    if calls != [] {
      var x := calls[0];
      SpentTokenIsInert(Handle(p, x.body, x.token, x.how, x.now, x.reference).0, calls[1..], jti);
    }
  }

  /** The provider took the token of this call: it answered with a decision of its own. */
  predicate Decided(a: Answer) {
    a.AnsweredConfirmed? || a.AnsweredDeclined?
  }

  /** Some call for this payment was decided. */
  predicate EverDecided(p: Psp, calls: seq<Call>, pa: nat)
    decreases |calls|
  {
    calls != [] &&
    var x := calls[0];
    var (q, answer) := Handle(p, x.body, x.token, x.how, x.now, x.reference);
    (x.body.pa == pa && Decided(answer)) || EverDecided(q, calls[1..], pa)
  }

  /** A payment the provider has no record of is exactly one for which no call was ever decided:
      the 404 that reconciliation takes for "never charged" tells the truth over any run of calls,
      and a record once there never disappears. */
  lemma {:induction false} NotFoundMeansNeverDecided(p: Psp, calls: seq<Call>, pa: nat)
    ensures pa in Serve(p, calls).charges <==> pa in p.charges || EverDecided(p, calls, pa)
    decreases |calls|
  {
    if calls != [] {
      var x := calls[0];
      var q := Handle(p, x.body, x.token, x.how, x.now, x.reference).0;
      NotFoundMeansNeverDecided(q, calls[1..], pa);
    }
  }

  /** What a call does, for every input. It is decided, spends the token and records something, if and
      only if the token is live and unspent, it names the payment, merchant, amount, currency and
      cart of the body, and the provider goes on to succeed or decline; what it records is what the
      token says, under the answer's own reference. */
  lemma ChargeIsBoundToToken(p: Psp, b: Body, token: Option<Token>, how: Behaviour, now: int, reference: nat)
    ensures var (q, answer) := Handle(p, b, token, how, now, reference);
            var agreed := token.Some? && now < token.value.expires && token.value.jti !in p.consumed
                          && token.value.pa == b.pa && token.value.merchant == b.merchant && token.value.amount == b.amount
                          && token.value.currency == b.currency && token.value.cart == b.cart;
            && q.calls == p.calls + [b.pa]
            && (Decided(answer) <==> agreed && (how == Success || how == Decline))
            && q.consumed == (if Decided(answer) then p.consumed + {token.value.jti} else p.consumed)
            && q.charges == (if !Decided(answer) then p.charges
                             else if how == Decline then p.charges[token.value.pa := Declined]
                             else p.charges[token.value.pa := Charged(reference, token.value.amount, token.value.currency, token.value.merchant)])
            && (answer.AnsweredConfirmed? ==> how == Success && answer.reference == reference)
  {
  }

  /** Which refusal: the token is judged before the binding, the binding before anything else happens,
      and no refusal changes more than the list of calls. */
  lemma RefusalsInOrder(p: Psp, b: Body, token: Option<Token>, how: Behaviour, now: int, reference: nat)
    ensures var (q, answer) := Handle(p, b, token, how, now, reference);
            var live := token.Some? && now < token.value.expires;
            var unspent := live && token.value.jti !in p.consumed;
            var differs := unspent && (token.value.pa != b.pa || token.value.merchant != b.merchant || token.value.amount != b.amount
                                       || token.value.currency != b.currency || token.value.cart != b.cart);
            && (answer == Rejected(401) <==> !live) && (answer == Rejected(409) <==> live && !unspent)
            && (answer == Rejected(422) <==> differs)
            && (answer == Rejected(502) <==> unspent && !differs && how == Error)
            && (answer.ConfirmedAfterHang? <==> unspent && !differs && how == Hang)
            && (answer.Rejected? || answer.ConfirmedAfterHang? ==> q == p.(calls := p.calls + [b.pa]))
  {
  }

  class MockProvider {
    var charges: map<nat, Charge>
    var consumed: set<nat>
    var calls: seq<nat>

    ghost function View(): Psp
      reads this
    {
      Psp(charges, consumed, calls)
    }

    constructor ()
      ensures View() == Psp(map[], {}, [])
    {
      charges, consumed, calls := map[], {}, [];
    }

    method CreateCharge(body: Body, token: Option<Token>, how: Behaviour, now: int, reference: nat)
      returns (answer: Answer)
      modifies this
      ensures (View(), answer) == Handle(old(View()), body, token, how, now, reference)
    {
      calls := calls + [body.pa];
      if token.None? || token.value.expires <= now {
        return Rejected(401);
      }
      if token.value.jti in consumed {
        return Rejected(409);
      }
      if !Matches(token.value, body) {
        return Rejected(422);
      }
      if how == Hang {
        return ConfirmedAfterHang(reference);
      }
      if how == Error {
        return Rejected(502);
      }
      consumed := consumed + {token.value.jti};
      if how == Decline {
        charges := charges[body.pa := Declined];
        return AnsweredDeclined;
      }
      charges := charges[body.pa := Charged(reference, body.amount, body.currency, body.merchant)];
      answer := AnsweredConfirmed(reference);
    }

    /** None is the 404 that makes it safe to resolve an UNKNOWN payment to FAILED. */
    method GetCharge(pa: nat) returns (charge: Option<Charge>)
      ensures charge.Some? <==> pa in charges
      ensures charge.Some? ==> charge.value == charges[pa]
    {
      charge := Lookup(charges, pa);
    }
  }
}
