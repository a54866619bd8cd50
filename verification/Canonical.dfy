/** The canonical transaction and its fingerprint. Identifiers, hashes and currencies are
    opaque: only their equality is ever used, so they are numbers here. Amounts are whole
    minor units (module Money relates them to the decimals on the wire). */
module Canonical {

  /** An amount can be written in several ways, "12.5" and "12.50" say; `rendering` tells them
      apart, 0 being the plain one. Amount and rendering together stand for the text. The cart is
      the hash of its items, in which unit prices likewise appear as written. */
  datatype Order = Order(
    user: nat, key: nat, payload: nat,
    merchant: nat, cart: nat, amount: nat, rendering: nat, currency: nat)

  /** What the source hashes into a fingerprint: the text of the amount, not its value. Two
      orders share a fingerprint exactly when these agree, given an injective hash of the joined
      text; when the text determines the fields is shown below. */
  datatype Fingerprint = Fingerprint(
    user: nat, merchant: nat, cart: nat, amount: nat, rendering: nat, currency: nat, bucket: int)

  datatype Txn = Txn(pa: nat, order: Order, fp: Fingerprint, arrived: int)

  function FingerprintOf(o: Order, at: int, window: nat): Fingerprint
    requires window > 0
  {
    Fingerprint(o.user, o.merchant, o.cart, o.amount, o.rendering, o.currency, at / window)
  }

  /** Two orders share a fingerprint if and only if they name the same user, merchant, cart, amount as
      written and currency, and arrive in the same window. */
  lemma SameFingerprintIff(a: Order, t: int, b: Order, u: int, window: nat)
    requires window > 0
    ensures FingerprintOf(a, t, window) == FingerprintOf(b, u, window) <==>
            && a.user == b.user && a.merchant == b.merchant && a.cart == b.cart
            && a.amount == b.amount && a.rendering == b.rendering && a.currency == b.currency
            && t / window == u / window
  {
  }

  /** Fields joined by a separator: a vertical bar in fingerprints, a colon in store keys. */
  function Join(sep: char, fields: seq<string>): string {
    if |fields| == 0 then ""
    else if |fields| == 1 then fields[0]
    else fields[0] + [sep] + Join(sep, fields[1..])
  }

  /** A list of fields of which only the marked ones may contain the separator. */
  predicate Respects(sep: char, fields: seq<string>, may: seq<bool>) {
    |fields| == |may| && forall i | 0 <= i < |fields| && !may[i] :: sep !in fields[i]
  }

  predicate AtMostOne(may: seq<bool>) {
    forall i, j | 0 <= i < |may| && 0 <= j < |may| && may[i] && may[j] :: i == j
  }

  /** The joined text determines the fields. */
  ghost predicate Determines(sep: char, may: seq<bool>) {
    forall a, b | Respects(sep, a, may) && Respects(sep, b, may) && Join(sep, a) == Join(sep, b) :: a == b
  }

  lemma CutAtFirst(sep: char, a: string, b: string, x: string, y: string)
    requires sep !in a && sep !in b
    requires a + [sep] + x == b + [sep] + y
    ensures a == b && x == y
  {
    var s, t := a + [sep] + x, b + [sep] + y;
    assert s[|a|] == sep && t[|b|] == sep;
    assert forall i | 0 <= i < |a| :: s[i] == a[i] != sep;
    assert forall i | 0 <= i < |b| :: t[i] == b[i] != sep;
    assert |a| == |b|;
    assert s[..|a|] == a && t[..|b|] == b;
    assert s[|a| + 1..] == x && t[|b| + 1..] == y;
  }

  lemma CutAtLast(sep: char, x: string, y: string, a: string, b: string)
    requires sep !in a && sep !in b
    requires x + [sep] + a == y + [sep] + b
    ensures a == b && x == y
  {
    var s, t := x + [sep] + a, y + [sep] + b;
    assert s[|x|] == sep && t[|y|] == sep;
    assert forall i | |x| < i < |s| :: s[i] == a[i - |x| - 1] != sep;
    assert forall i | |y| < i < |t| :: t[i] == b[i - |y| - 1] != sep;
    assert |x| == |y|;
    assert s[..|x|] == x && t[..|y|] == y;
    assert s[|x| + 1..] == a && t[|y| + 1..] == b;
  }

  lemma {:induction false} JoinLast(sep: char, fields: seq<string>)
    requires |fields| > 1
    ensures Join(sep, fields) == Join(sep, fields[..|fields| - 1]) + [sep] + fields[|fields| - 1]
  {
    var n := |fields| - 1;
    if n > 1 {
      JoinLast(sep, fields[1..]);
      assert fields[1..][..n - 1] == fields[..n][1..];
    }
  }

  /** With at most one marked field: peel plain fields off the front, then off the back. */
  lemma {:induction false} OneMarkedFieldIsHarmless(sep: char, a: seq<string>, b: seq<string>, may: seq<bool>)
    requires AtMostOne(may) && Respects(sep, a, may) && Respects(sep, b, may) && Join(sep, a) == Join(sep, b)
    ensures a == b
    decreases |may|
  {
    var n := |may| - 1;
    if n >= 1 {
      if !may[0] {
        CutAtFirst(sep, a[0], b[0], Join(sep, a[1..]), Join(sep, b[1..]));
        OneMarkedFieldIsHarmless(sep, a[1..], b[1..], may[1..]);
        assert a == [a[0]] + a[1..] && b == [b[0]] + b[1..];
      } else {
        JoinLast(sep, a);
        JoinLast(sep, b);
        assert !may[n];
        CutAtLast(sep, Join(sep, a[..n]), Join(sep, b[..n]), a[n], b[n]);
        OneMarkedFieldIsHarmless(sep, a[..n], b[..n], may[..n]);
        assert a == a[..n] + [a[n]] && b == b[..n] + [b[n]];
      }
    }
  }

  function Repeat(sep: char, n: nat): string {
    seq(n, i => sep)
  }

  /** Empty fields, but for one that is a single separator. */
  function SepAt(sep: char, n: nat, k: nat): seq<string> {
    seq(n, i => if i == k then [sep] else "")
  }

  lemma {:induction false} JoinSepAt(sep: char, n: nat, k: nat)
    requires n > 0
    ensures Join(sep, SepAt(sep, n, k)) == Repeat(sep, if k < n then n else n - 1)
  {
    if n > 1 {
      var rest := SepAt(sep, n, k)[1..];
      if k == 0 {
        assert rest == SepAt(sep, n - 1, n);
        JoinSepAt(sep, n - 1, n);
      } else {
        assert rest == SepAt(sep, n - 1, k - 1);
        JoinSepAt(sep, n - 1, k - 1);
      }
    }
  }

  /** Exactly when the text determines the fields: at most one of them may contain the separator. */
  lemma DeterminesIffAtMostOne(sep: char, may: seq<bool>)
    ensures Determines(sep, may) <==> AtMostOne(may)
  {
    if AtMostOne(may) {
      forall a, b | Respects(sep, a, may) && Respects(sep, b, may) && Join(sep, a) == Join(sep, b) ensures a == b {
        OneMarkedFieldIsHarmless(sep, a, b, may);
      }
    } else {
      var i, j :| 0 <= i < |may| && 0 <= j < |may| && may[i] && may[j] && i != j;
      var a, b := SepAt(sep, |may|, i), SepAt(sep, |may|, j);
      JoinSepAt(sep, |may|, i);
      JoinSepAt(sep, |may|, j);
      assert Respects(sep, a, may) && Respects(sep, b, may);
      assert a[i] != b[i];
    }
  }

  /** Where two neighbours may both contain it, a piece can move from one to the other unnoticed. */
  lemma PieceMoves(sep: char, left: string, piece: string, right: string, rest: seq<string>)
    ensures Join(sep, [left + [sep] + piece, right] + rest) == Join(sep, [left, piece + [sep] + right] + rest)
  {
    var a, b := [left + [sep] + piece, right] + rest, [left, piece + [sep] + right] + rest;
    assert a[1..] == [right] + rest && b[1..] == [piece + [sep] + right] + rest;
    assert a[1..][1..] == rest && b[1..][1..] == rest;
    var tail := if rest == [] then "" else [sep] + Join(sep, rest);
    assert Join(sep, a[1..]) == right + tail;
    assert Join(sep, b[1..]) == piece + [sep] + right + tail;
    assert Join(sep, a) == (left + [sep] + piece) + [sep] + (right + tail);
    assert Join(sep, b) == left + [sep] + (piece + [sep] + right + tail);
  }

  // ---------------------------------------------------------------- the six fields of a fingerprint

  function FingerprintText(user: string, merchant: string, cart: string, amount: string, currency: string, bucket: string)
    : string
  {
    Join('|', [user, merchant, cart, amount, currency, bucket])
  }

  /** Hashes, decimals, currency codes and bucket numbers never contain the bar and merchant ids
      may, so everything hangs on the user ids. */
  lemma FingerprintTextDeterminesIff(usersMayBar: bool)
    ensures Determines('|', [usersMayBar, true, false, false, false, false]) <==> !usersMayBar
  {
    var may := [usersMayBar, true, false, false, false, false];
    DeterminesIffAtMostOne('|', may);
    if usersMayBar {
      assert may[0] && may[1];
    }
  }

  /** Where both may contain it, a piece can move from the merchant to the user unnoticed. */
  lemma PieceMovesUnnoticed(user: string, piece: string, merchant: string,
                            cart: string, amount: string, currency: string, bucket: string)
    ensures FingerprintText(user + "|" + piece, merchant, cart, amount, currency, bucket)
         == FingerprintText(user, piece + "|" + merchant, cart, amount, currency, bucket)
    ensures user + "|" + piece != user
  {
    var rest := [cart, amount, currency, bucket];
    PieceMoves('|', user, piece, merchant, rest);
    assert [user + "|" + piece, merchant] + rest == [user + "|" + piece, merchant, cart, amount, currency, bucket];
    assert [user, piece + "|" + merchant] + rest == [user, piece + "|" + merchant, cart, amount, currency, bucket];
    assert |user + "|" + piece| > |user|;
  }

  /** The amount enters as text: the same money written differently reads differently. */
  lemma RenderingsReadDifferently(user: string, merchant: string, cart: string, currency: string, bucket: string)
    requires '|' !in user && '|' !in cart && '|' !in currency && '|' !in bucket
    ensures FingerprintText(user, merchant, cart, "12.5", currency, bucket)
         != FingerprintText(user, merchant, cart, "12.50", currency, bucket)
  {
    var may := [false, true, false, false, false, false];
    var a, b := [user, merchant, cart, "12.5", currency, bucket], [user, merchant, cart, "12.50", currency, bucket];
    assert |"12.5"| != |"12.50"|;
    assert a[3] != b[3];
    if Join('|', a) == Join('|', b) {
      OneMarkedFieldIsHarmless('|', a, b, may);
    }
  }

  // ---------------------------------------------------------------- the two fields of an idempotency key

  /** Under this key the stored answer is found; the lock's name is built the same way. */
  function IdemText(user: string, key: string): string {
    "agentpay:idem:" + Join(':', [user, key])
  }

  predicate MayContain(sep: char, allowed: bool, field: string) {
    sep in field ==> allowed
  }

  ghost predicate IdemTextDetermines(usersMayColon: bool, keysMayColon: bool) {
    forall u, k, v, l | MayContain(':', usersMayColon, u) && MayContain(':', usersMayColon, v)
                        && MayContain(':', keysMayColon, k) && MayContain(':', keysMayColon, l)
                        && IdemText(u, k) == IdemText(v, l) :: u == v && k == l
  }

  /** A store key stands for one user and one idempotency key, if and only if one of the two never
      contains a colon. */
  lemma IdemTextDeterminesIff(usersMayColon: bool, keysMayColon: bool)
    ensures IdemTextDetermines(usersMayColon, keysMayColon) <==> !(usersMayColon && keysMayColon)
  {
    var may := [usersMayColon, keysMayColon];
    if usersMayColon && keysMayColon {
      PieceMoves(':', "a", "b", "c", []);
      assert IdemText("a:b", "c") == IdemText("a", "b:c");
      assert "a:b"[1] == ':' && "b:c"[1] == ':' && |"a:b"| != |"a"|;
    } else {
      forall u, k, v, l | MayContain(':', usersMayColon, u) && MayContain(':', usersMayColon, v)
                          && MayContain(':', keysMayColon, k) && MayContain(':', keysMayColon, l)
                          && IdemText(u, k) == IdemText(v, l) ensures u == v && k == l
      {
        assert IdemText(u, k)[14..] == Join(':', [u, k]) && IdemText(v, l)[14..] == Join(':', [v, l]);
        OneMarkedFieldIsHarmless(':', [u, k], [v, l], may);
        assert [u, k][0] == [v, l][0] && [u, k][1] == [v, l][1];
      }
    }
  }

  /** What the two texts look like. */
  lemma TextsInFull()
    ensures FingerprintText("u", "m", "c", "12.5", "USD", "7") == "u|m|c|12.5|USD|7"
    ensures IdemText("u", "k") == "agentpay:idem:u:k"
  {
    var fields := ["u", "m", "c", "12.5", "USD", "7"];
    assert fields[1..] == ["m", "c", "12.5", "USD", "7"];
    assert ["m", "c", "12.5", "USD", "7"][1..] == ["c", "12.5", "USD", "7"];
    assert ["c", "12.5", "USD", "7"][1..] == ["12.5", "USD", "7"];
    assert ["12.5", "USD", "7"][1..] == ["USD", "7"];
    assert ["USD", "7"][1..] == ["7"];
    assert ["u", "k"][1..] == ["k"];
  }
}
