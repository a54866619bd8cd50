/** Human approvals: a parked transaction, the grant of exactly what was shown, and the rule that
    a granted approval only counts for the transaction it was granted for. */
module Approvals {
  import opened Options
  import opened Money
  import opened TimedStore

  const APPROVAL_TTL: nat := 900

  /** The money-moving fields of a transaction. */
  datatype Terms = Terms(merchant: nat, amount: real, currency: nat, cart: nat)

  datatype Txn = Txn(pa: nat, user: nat, terms: Terms)

  /** Keyed by the payment authorization id it was parked under. */
  datatype ApprovalRequest = ApprovalRequest(id: nat, user: nat, terms: Terms, reasons: seq<string>, granted: bool)

  datatype ApprovalToken = ApprovalToken(request: nat, user: nat, terms: Terms, expires: int)

  datatype Presented = Nothing | NotOurs | Signed(token: ApprovalToken)

  datatype Bound = Bound(merchant: nat, amount: int, currency: nat, cart: nat)

  datatype Finding = Finding(present: bool, valid: bool, expired: bool, bound: Option<Bound>)

  datatype Decision = Allow | RequireApproval | Block

  function InMinorUnits(t: Terms): Bound {
    Bound(t.merchant, ToMinorUnits(t.amount), t.currency, t.cart)
  }

  function Park(t: Txn, reasons: seq<string>): ApprovalRequest {
    ApprovalRequest(t.pa, t.user, t.terms, reasons, false)
  }

  function TokenFor(r: ApprovalRequest, now: int): ApprovalToken {
    ApprovalToken(r.id, r.user, r.terms, now + APPROVAL_TTL)
  }

  /** Data, not a decision. */
  function EvaluateToken(p: Presented, now: int): Finding {
    match p
    case Nothing => Finding(false, false, false, None)
    case NotOurs => Finding(true, false, false, None)
    case Signed(token) =>
      if token.expires <= now then Finding(true, false, true, None)
      else Finding(true, true, false, Some(InMinorUnits(token.terms)))
  }

  /** Any of the approval package's deny rules: mismatch of any bound field, expired, invalid. */
  predicate ApprovalDenies(f: Finding, t: Bound) {
    f.present && (f.bound != Some(t) || f.expired || !f.valid)
  }

  predicate ApprovalSatisfied(f: Finding, t: Bound) {
    f.present && f.valid && !f.expired && f.bound == Some(t)
  }

  /** The decision, given whether any other package denies or asks for review. */
  function Decide(otherDeny: bool, review: bool, f: Finding, t: Bound): Decision {
    if otherDeny || ApprovalDenies(f, t) then Block
    else if review && !ApprovalSatisfied(f, t) then RequireApproval
    else Allow
  }

  type RequestStore = MemoryStore<nat, ApprovalRequest, nat>

  function NoWindow(z: nat): nat { 0 }

  method CreateRequest(store: RequestStore, t: Txn, reasons: seq<string>, now: int) returns (r: ApprovalRequest)
    modifies store
    ensures r == Park(t, reasons)
    ensures store.kv == old(store.kv)[t.pa := Entry(r, Some(now + 900))]
  {
    r := ApprovalRequest(t.pa, t.user, t.terms, reasons, false);
    var ok := store.Set(r.id, r, APPROVAL_TTL, now, NoWindow);
  }

  method LoadRequest(store: RequestStore, id: nat, now: int) returns (r: Option<ApprovalRequest>)
    modifies store
    ensures r == Peek(old(store.kv), id, now)
    ensures store.kv == Evict(old(store.kv), id, now)
  {
    r := store.Get(id, now, NoWindow);
  }

  /** The token is bound to what is stored, whatever the agent sends next; an unknown or expired
      request yields none. */
  method Grant(store: RequestStore, id: nat, now: int) returns (token: Option<ApprovalToken>)
    modifies store
    ensures token.Some? <==> Alive(old(store.kv), id, now)
    ensures token.Some? ==>
              && token.value == TokenFor(old(store.kv)[id].value, now)
              && store.kv == old(store.kv)[id := Entry(old(store.kv)[id].value.(granted := true), Some(now + APPROVAL_TTL))]
    ensures token.None? ==> store.kv == Evict(old(store.kv), id, now)
  {
    var request := LoadRequest(store, id, now);
    if request.None? {
      return None;
    }
    var ok := store.Set(id, request.value.(granted := true), APPROVAL_TTL, now, NoWindow);
    token := Some(ApprovalToken(request.value.id, request.value.user, request.value.terms, now + APPROVAL_TTL));
  }

  /** Parked, granted, presented with some transaction t: with nobody else denying, the presented
      token leads to ALLOW exactly when it has not expired and t agrees with the parked
      transaction on merchant, currency, cart and amount. Anything else is BLOCK: presenting an
      approval never leads back to asking for one. */
  lemma ApprovalCoversExactlyWhatWasShown(parked: Txn, reasons: seq<string>, grantedAt: int, t: Txn, now: int, review: bool)
    requires InCents(parked.terms.amount) && InCents(t.terms.amount)
    ensures var token := TokenFor(Park(parked, reasons), grantedAt);
            var decision := Decide(false, review, EvaluateToken(Signed(token), now), InMinorUnits(t.terms));
            && (decision == Allow <==> now < grantedAt + 900 && t.terms == parked.terms)
            && decision != RequireApproval
  {
    CentsAreInjective(parked.terms.amount, t.terms.amount);
  }

  /** The decision for whatever is presented, or nothing: an approval only ever turns the request for
      one into ALLOW, it never outweighs another deny, and one that is not ours, expired or about
      something else denies even what needed none. */
  lemma DecisionIff(otherDeny: bool, review: bool, p: Presented, now: int, t: Txn)
    requires InCents(t.terms.amount) && (p.Signed? ==> InCents(p.token.terms.amount))
    ensures var decision := Decide(otherDeny, review, EvaluateToken(p, now), InMinorUnits(t.terms));
            && (decision == Allow <==>
                  !otherDeny && (if p.Nothing? then !review
                                 else p.Signed? && now < p.token.expires
                                      && p.token.terms.merchant == t.terms.merchant && p.token.terms.amount == t.terms.amount
                                      && p.token.terms.currency == t.terms.currency && p.token.terms.cart == t.terms.cart))
            && (decision == RequireApproval <==> !otherDeny && review && p.Nothing?)
  {
    if p.Signed? {
      CentsAreInjective(p.token.terms.amount, t.terms.amount);
    }
  }

  // ---------------------------------------------------------------- whole runs

  /** The desk over time: the store, what was parked under each id, every token ever handed out.
      Payment ids are fresh, so an id is parked once. */
  datatype Desk = Desk(kv: map<nat, Entry<ApprovalRequest>>, parked: map<nat, Txn>, issued: seq<ApprovalToken>)

  datatype Step = Parking(txn: Txn, reasons: seq<string>, at: int) | Granting(id: nat, at: int)

  function Do(d: Desk, step: Step): Desk {
    match step
    case Parking(t, reasons, at) =>
      if t.pa in d.parked then d
      else Desk(d.kv[t.pa := Stamp(Park(t, reasons), APPROVAL_TTL, at)], d.parked[t.pa := t], d.issued)
    case Granting(id, at) =>
      if !Alive(d.kv, id, at) then d.(kv := Evict(d.kv, id, at))
      else
        var r := d.kv[id].value;
        d.(kv := d.kv[id := Stamp(r.(granted := true), APPROVAL_TTL, at)], issued := d.issued + [TokenFor(r, at)])
  }

  function Run(d: Desk, steps: seq<Step>): Desk
    decreases |steps|
  {
    if steps == [] then d else Run(Do(d, steps[0]), steps[1..])
  }

  /** A request parked is granted if and only if that happens within fifteen minutes, and the token is for
      what was parked, for another fifteen. */
  lemma GrantedInTimeIff(d: Desk, t: Txn, reasons: seq<string>, at: int, grantedAt: int)
    requires t.pa !in d.parked && at <= grantedAt
    ensures Do(Do(d, Parking(t, reasons, at)), Granting(t.pa, grantedAt)).issued
         == d.issued + if grantedAt <= at + 900 then [ApprovalToken(t.pa, t.user, t.terms, grantedAt + 900)] else []
  {
  }

  ghost predicate Honest(d: Desk) {
    && (forall id | id in d.kv :: id in d.parked && d.kv[id].value.id == id && d.kv[id].value.terms == d.parked[id].terms
                                && d.kv[id].value.user == d.parked[id].user)
    && (forall i | 0 <= i < |d.issued| ::
          d.issued[i].request in d.parked && d.issued[i].terms == d.parked[d.issued[i].request].terms
          && d.issued[i].user == d.parked[d.issued[i].request].user)
  }

  lemma StepHonest(d: Desk, step: Step)
    requires Honest(d)
    ensures Honest(Do(d, step))
  {
  }

  lemma {:induction false} RunHonest(d: Desk, steps: seq<Step>)
    requires Honest(d)
    ensures Honest(Run(d, steps))
    decreases |steps|
  {
    if steps != [] {
      StepHonest(d, steps[0]);
      RunHonest(Do(d, steps[0]), steps[1..]);
    }
  }

  /** Over any history of parking, granting, expiring and granting again: a token handed out leads
      to ALLOW for exactly those transactions that agree with what was once parked under its
      request, and only until it expires. */
  lemma EveryTokenCoversWhatWasParked(steps: seq<Step>, i: nat, t: Txn, now: int, review: bool)
    requires i < |Run(Desk(map[], map[], []), steps).issued|
    requires InCents(t.terms.amount)
    ensures var d := Run(Desk(map[], map[], []), steps);
            var token := d.issued[i];
            && token.request in d.parked && token.user == d.parked[token.request].user
            && (InCents(d.parked[token.request].terms.amount) ==>
                  (Decide(false, review, EvaluateToken(Signed(token), now), InMinorUnits(t.terms)) == Allow <==>
                   now < token.expires && t.terms == d.parked[token.request].terms))
  {
    RunHonest(Desk(map[], map[], []), steps);
    var d := Run(Desk(map[], map[], []), steps);
    var token := d.issued[i];
    if InCents(token.terms.amount) {
      CentsAreInjective(token.terms.amount, t.terms.amount);
    }
  }
}
