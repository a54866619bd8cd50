/** The payment lifecycle: the states of a payment, the transitions that may ever
    happen, and what a history of such transitions looks like. */
module Lifecycle {

  datatype PaymentState =
    Created | Authorized | Submitted | Confirmed | Failed | Timeout | Unknown | Expired

  /** The transition table. Anything that is not listed raises in the source. */
  predicate CanMove(current: PaymentState, target: PaymentState) {
    match current
    case Created => target == Authorized || target == Failed
    case Authorized => target == Submitted || target == Expired || target == Failed
    case Submitted => target == Confirmed || target == Failed || target == Timeout
    case Timeout => target == Unknown
    case Unknown => target == Confirmed || target == Failed
    case _ => false
  }

  /** The table by its targets: what a payment can have been before it is this. Nothing returns to
      CREATED, only the gateway's own steps lead to AUTHORIZED, SUBMITTED, TIMEOUT, UNKNOWN and EXPIRED,
      each from one state, and money is confirmed only where it was sent. */
  lemma OriginsOf(from: PaymentState, to: PaymentState)
    ensures CanMove(from, to) <==>
            || (to == Authorized && from == Created)
            || (to == Submitted && from == Authorized)
            || (to == Timeout && from == Submitted)
            || (to == Unknown && from == Timeout)
            || (to == Expired && from == Authorized)
            || (to == Confirmed && (from == Submitted || from == Unknown))
            || (to == Failed && (from == Created || from == Authorized || from == Submitted || from == Unknown))
    ensures Terminal(from) <==> forall next :: !CanMove(from, next)
  {
    if !Terminal(from) {
      assert CanMove(from, Authorized) || CanMove(from, Submitted) || CanMove(from, Timeout) || CanMove(from, Unknown) || CanMove(from, Confirmed);
    }
  }

  predicate Terminal(s: PaymentState) {
    s == Confirmed || s == Failed || s == Expired
  }

  /** Spend-to-date counts these: an outstanding authorization is money that can still leave. */
  predicate Settled(s: PaymentState) {
    s == Authorized || s == Submitted || s == Confirmed || s == Timeout || s == Unknown
  }

  /** How many transitions a payment in this state may still make. */
  function Rank(s: PaymentState): nat {
    match s
    case Created => 5
    case Authorized => 4
    case Submitted => 3
    case Timeout => 2
    case Unknown => 1
    case _ => 0
  }

  /** A history: it starts at CREATED and every consecutive pair is a legal transition. */
  predicate IsHistory(h: seq<PaymentState>) {
    && |h| > 0
    && h[0] == Created
    && forall i | 0 < i < |h| :: CanMove(h[i - 1], h[i])
  }

  /** The edge from -> to is one of the steps of the history. */
  predicate HasEdge(h: seq<PaymentState>, from: PaymentState, to: PaymentState) {
    exists i: nat :: i < |h| && EdgeAt(h, i, from, to)
  }

  predicate EdgeAt(h: seq<PaymentState>, i: nat, from: PaymentState, to: PaymentState) {
    0 < i < |h| && h[i - 1] == from && h[i] == to
  }

  /** Every step costs rank, so a later state of a history ranks strictly below an earlier one. */
  lemma {:induction false} RankDescends(h: seq<PaymentState>, i: nat, j: nat)
    requires IsHistory(h) && i < j < |h|
    ensures Rank(h[j]) + (j - i) <= Rank(h[i])
  {
    if i < j - 1 {
      RankDescends(h, i, j - 1);
    }
  }

  /** A history visits no state twice and makes at most five transitions. */
  lemma HistoryIsSimple(h: seq<PaymentState>)
    requires IsHistory(h)
    ensures |h| <= 6
    ensures forall i, j | 0 <= i < j < |h| :: h[i] != h[j]
  {
    if |h| > 1 {
      RankDescends(h, 0, |h| - 1);
    }
    forall i, j | 0 <= i < j < |h| ensures h[i] != h[j] {
      RankDescends(h, i, j);
    }
  }

  /** The set of edges determines the whole history: two histories with the same edges
      agree as far as both reach, so an order-free record of edges still tells the story. */
  lemma {:induction false} EdgesAgreeUpTo(g: seq<PaymentState>, h: seq<PaymentState>, n: nat)
    requires IsHistory(g) && IsHistory(h)
    requires forall a, b :: HasEdge(g, a, b) <==> HasEdge(h, a, b)
    requires n < |g|
    ensures n < |h| && g[n] == h[n]
  {
    if n > 0 {
      EdgesAgreeUpTo(g, h, n - 1);
      assert EdgeAt(g, n, g[n - 1], g[n]) && HasEdge(g, g[n - 1], g[n]);
      var i: nat :| EdgeAt(h, i, g[n - 1], g[n]);
      HistoryIsSimple(h);
    }
  }

  lemma EdgesDetermineHistory(g: seq<PaymentState>, h: seq<PaymentState>)
    requires IsHistory(g) && IsHistory(h)
    requires forall a, b :: HasEdge(g, a, b) <==> HasEdge(h, a, b)
    ensures g == h
  {
    EdgesAgreeUpTo(g, h, |g| - 1);
    EdgesAgreeUpTo(h, g, |h| - 1);
    forall n | 0 <= n < |g| ensures g[n] == h[n] {
      EdgesAgreeUpTo(g, h, n);
    }
  }

  /** Extending a history by a legal transition adds exactly that edge. */
  lemma ExtendHistory(h: seq<PaymentState>, to: PaymentState)
    requires IsHistory(h) && CanMove(h[|h| - 1], to)
    ensures IsHistory(h + [to])
    ensures forall a, b ::
              HasEdge(h + [to], a, b) <==> HasEdge(h, a, b) || (a == h[|h| - 1] && b == to)
  {
    forall a, b ensures HasEdge(h + [to], a, b) <==> HasEdge(h, a, b) || (a == h[|h| - 1] && b == to) {
      EdgeOfExtended(h, to, a, b);
    }
  }

  lemma EdgeOfExtended(h: seq<PaymentState>, to: PaymentState, a: PaymentState, b: PaymentState)
    requires |h| > 0
    ensures HasEdge(h + [to], a, b) <==> HasEdge(h, a, b) || (a == h[|h| - 1] && b == to)
  {
    var g := h + [to];
    if HasEdge(h, a, b) {
      var i: nat :| i < |h| && EdgeAt(h, i, a, b);
      assert g[i - 1] == h[i - 1] && g[i] == h[i];
      assert EdgeAt(g, i, a, b);
    }
    if HasEdge(g, a, b) {
      var i: nat :| i < |g| && EdgeAt(g, i, a, b);
      assert g[i - 1] == h[i - 1] && (i < |h| ==> g[i] == h[i]);
      assert EdgeAt(h, i, a, b) || i == |h|;
    }
    assert EdgeAt(g, |h|, h[|h| - 1], to);
  }
}
