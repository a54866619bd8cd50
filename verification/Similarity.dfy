/** Co-occurrence of intent facets: does one position of every facet fit in a window? The fast
    form sorts all marks and slides a window over them with per-facet counts. */
module Similarity {

  datatype Mark = Mark(pos: int, facet: nat)

  // ---------------------------------------------------------------- the question

  /** One position chosen from every facet. */
  predicate Chosen(hit: seq<seq<int>>, pick: seq<int>) {
    |pick| == |hit| && forall f | 0 <= f < |hit| :: pick[f] in hit[f]
  }

  predicate Spans(pick: seq<int>, window: nat) {
    forall f, g | 0 <= f < |pick| && 0 <= g < |pick| :: pick[f] - pick[g] <= window
  }

  ghost predicate Fits(hit: seq<seq<int>>, window: nat) {
    exists pick :: Chosen(hit, pick) && Spans(pick, window)
  }

  // ---------------------------------------------------------------- sorted marks

  predicate Precedes(a: Mark, b: Mark) {
    a.pos < b.pos || (a.pos == b.pos && a.facet <= b.facet)
  }

  predicate Sorted(ms: seq<Mark>) {
    forall i, j | 0 <= i < j < |ms| :: ms[i].pos <= ms[j].pos
  }

  function Insert(m: Mark, ms: seq<Mark>): seq<Mark> {
    if ms == [] || Precedes(m, ms[0]) then [m] + ms else [ms[0]] + Insert(m, ms[1..])
  }

  function SortMarks(ms: seq<Mark>): seq<Mark> {
    if ms == [] then [] else Insert(ms[0], SortMarks(ms[1..]))
  }

  /** The marks of facet f and all later ones. */
  function MarksFrom(hit: seq<seq<int>>, f: nat): seq<Mark>
    requires f <= |hit|
    decreases |hit| - f
  {
    if f == |hit| then [] else seq(|hit[f]|, i requires 0 <= i < |hit[f]| => Mark(hit[f][i], f)) + MarksFrom(hit, f + 1)
  }

  lemma {:induction false} InsertKeeps(m: Mark, ms: seq<Mark>)
    requires Sorted(ms)
    ensures Sorted(Insert(m, ms))
    ensures forall x :: x in Insert(m, ms) <==> x == m || x in ms
  {
    if ms != [] && !Precedes(m, ms[0]) {
      InsertKeeps(m, ms[1..]);
      var tail := Insert(m, ms[1..]);
      assert forall i | 0 <= i < |tail| :: tail[i] in tail;
    }
  }

  lemma {:induction false} SortKeeps(ms: seq<Mark>)
    ensures Sorted(SortMarks(ms))
    ensures forall x :: x in SortMarks(ms) <==> x in ms
  {
    if ms != [] {
      SortKeeps(ms[1..]);
      InsertKeeps(ms[0], SortMarks(ms[1..]));
    }
  }

  lemma {:induction false} MarksAreHits(hit: seq<seq<int>>, f: nat)
    requires f <= |hit|
    ensures forall x :: x in MarksFrom(hit, f) <==> f <= x.facet < |hit| && x.pos in hit[x.facet]
    decreases |hit| - f
  {
    if f < |hit| {
      MarksAreHits(hit, f + 1);
      var here := seq(|hit[f]|, i requires 0 <= i < |hit[f]| => Mark(hit[f][i], f));
      forall x ensures x in here <==> x.facet == f && x.pos in hit[f] {
        if x.facet == f && x.pos in hit[f] {
          var i :| 0 <= i < |hit[f]| && hit[f][i] == x.pos;
          assert here[i] == x;
        }
      }
    }
  }

  // ---------------------------------------------------------------- what the counters mean

  function Count(ms: seq<Mark>, f: nat): nat {
    if ms == [] then 0 else (if ms[0].facet == f then 1 else 0) + Count(ms[1..], f)
  }

  function Facets(ms: seq<Mark>): set<nat> {
    set i | 0 <= i < |ms| :: ms[i].facet
  }

  lemma {:induction false} CountAppend(ms: seq<Mark>, m: Mark, f: nat)
    ensures Count(ms + [m], f) == Count(ms, f) + if m.facet == f then 1 else 0
  {
    if ms != [] {
      CountAppend(ms[1..], m, f);
      assert (ms + [m])[1..] == ms[1..] + [m];
    }
  }

  lemma {:induction false} CountedIsPresent(ms: seq<Mark>, f: nat)
    ensures Count(ms, f) > 0 <==> f in Facets(ms)
  {
    if ms != [] {
      CountedIsPresent(ms[1..], f);
      assert ms[0].facet in Facets(ms);
      if f in Facets(ms[1..]) {
        var i :| 0 <= i < |ms[1..]| && ms[1..][i].facet == f;
        assert ms[i + 1].facet == f;
      }
      if f in Facets(ms) && ms[0].facet != f {
        var i :| 0 <= i < |ms| && ms[i].facet == f;
        assert ms[1..][i - 1].facet == f;
      }
    }
  }

  /** A dictionary that starts every counter at zero. */
  function Tally(counts: map<nat, nat>, f: nat): nat {
    if f in counts then counts[f] else 0
  }

  ghost predicate Tallied(counts: map<nat, nat>, distinct: nat, ms: seq<Mark>) {
    && (forall f: nat :: Tally(counts, f) == Count(ms, f))
    && distinct == |Facets(ms)|
  }

  lemma AddRight(counts: map<nat, nat>, distinct: nat, ms: seq<Mark>, m: Mark)
    requires Tallied(counts, distinct, ms)
    ensures Tallied(counts[m.facet := Tally(counts, m.facet) + 1],
                    if Tally(counts, m.facet) == 0 then distinct + 1 else distinct, ms + [m])
  {
    forall f: nat ensures Tally(counts[m.facet := Tally(counts, m.facet) + 1], f) == Count(ms + [m], f) {
      CountAppend(ms, m, f);
    }
    CountedIsPresent(ms, m.facet);
    assert Facets(ms + [m]) == Facets(ms) + {m.facet} by {
      assert (ms + [m])[|ms|] == m;
      assert forall i | 0 <= i < |ms| :: (ms + [m])[i] == ms[i];
    }
  }

  lemma DropLeft(counts: map<nat, nat>, distinct: nat, ms: seq<Mark>)
    requires ms != [] && Tallied(counts, distinct, ms)
    ensures Tally(counts, ms[0].facet) > 0 && distinct > 0
    ensures var left := Tally(counts, ms[0].facet) - 1;
            Tallied(counts[ms[0].facet := left], if left == 0 then distinct - 1 else distinct, ms[1..])
  {
    var f := ms[0].facet;
    var left := Tally(counts, f) - 1;
    CountedIsPresent(ms[1..], f);
    forall g: nat ensures Tally(counts[f := left], g) == Count(ms[1..], g) {
      assert Tally(counts, g) == Count(ms, g);
    }
    assert f in Facets(ms[1..]) <==> left > 0;
    FacetsOfTail(ms);
    if left == 0 {
      assert Facets(ms[1..]) == Facets(ms) - {f};
    } else {
      assert Facets(ms[1..]) == Facets(ms);
    }
  }

  lemma FacetsOfTail(ms: seq<Mark>)
    requires ms != []
    ensures Facets(ms) == Facets(ms[1..]) + {ms[0].facet}
  {
    var f := ms[0].facet;
    assert Facets(ms) == Facets(ms[1..]) + {f} by {
      assert ms[0].facet in Facets(ms);
      forall g | g in Facets(ms) ensures g == f || g in Facets(ms[1..]) {
        var i :| 0 <= i < |ms| && ms[i].facet == g;
        if i > 0 {
          assert ms[1..][i - 1].facet == g;
        }
      }
      forall g | g in Facets(ms[1..]) ensures g in Facets(ms) {
        var i :| 0 <= i < |ms[1..]| && ms[1..][i].facet == g;
        assert ms[i + 1].facet == g;
      }
    }
  }

  function Upto(n: nat): (r: set<nat>)
    ensures |r| == n && forall f: nat :: f in r <==> f < n
  {
    if n == 0 then {} else Upto(n - 1) + {n - 1}
  }

  /** All n facets are there exactly when n different ones are. */
  lemma AllFacetsIff(ms: seq<Mark>, n: nat)
    requires forall i | 0 <= i < |ms| :: ms[i].facet < n
    ensures |Facets(ms)| == n <==> forall f: nat | f < n :: f in Facets(ms)
  {
    assert Facets(ms) <= Upto(n);
    if |Facets(ms)| == n {
      SubsetOfSameSize(Facets(ms), Upto(n));
    }
    if forall f: nat | f < n :: f in Facets(ms) {
      assert Facets(ms) == Upto(n);
    }
  }

  lemma SubsetOfSameSize(a: set<nat>, b: set<nat>)
    requires a <= b && |a| == |b|
    ensures a == b
  {
    assert |b - a| == |b| - |a|;
    assert b == a + (b - a);
  }

  // ---------------------------------------------------------------- windows ending at a mark

  /** The facet has a mark at or before this one and within the window of it. */
  predicate Near(ms: seq<Mark>, right: nat, f: nat, window: nat)
    requires right < |ms|
  {
    exists k :: 0 <= k <= right && ms[k].facet == f && ms[right].pos - ms[k].pos <= window
  }

  ghost predicate FullAt(ms: seq<Mark>, right: nat, n: nat, window: nat)
    requires right < |ms|
  {
    forall f: nat | f < n :: Near(ms, right, f, window)
  }

  predicate AreMarksOf(ms: seq<Mark>, hit: seq<seq<int>>) {
    && Sorted(ms)
    && (forall i | 0 <= i < |ms| :: ms[i].facet < |hit| && ms[i].pos in hit[ms[i].facet])
    && (forall f, i | 0 <= f < |hit| && 0 <= i < |hit[f]| :: Mark(hit[f][i], f) in ms)
  }

  lemma FullFits(hit: seq<seq<int>>, ms: seq<Mark>, right: nat, window: nat)
    requires AreMarksOf(ms, hit) && right < |ms| && FullAt(ms, right, |hit|, window)
    ensures Fits(hit, window)
  {
    var pick := PickAt(hit, ms, right, window, |hit|);
    assert Chosen(hit, pick) && Spans(pick, window);
  }

  lemma {:induction false} PickAt(hit: seq<seq<int>>, ms: seq<Mark>, right: nat, window: nat, n: nat)
    returns (pick: seq<int>)
    requires AreMarksOf(ms, hit) && right < |ms| && FullAt(ms, right, |hit|, window) && n <= |hit|
    ensures |pick| == n
    ensures forall f | 0 <= f < n :: pick[f] in hit[f] && ms[right].pos - window <= pick[f] <= ms[right].pos
  {
    if n == 0 {
      pick := [];
    } else {
      pick := PickAt(hit, ms, right, window, n - 1);
      assert Near(ms, right, n - 1, window);
      var k :| 0 <= k <= right && ms[k].facet == n - 1 && ms[right].pos - ms[k].pos <= window;
      assert ms[k].pos <= ms[right].pos;
      pick := pick + [ms[k].pos];
    }
  }

  /** Where the marks of the first n picks are, and the rightmost of them. */
  lemma {:induction false} Rightmost(hit: seq<seq<int>>, ms: seq<Mark>, pick: seq<int>, n: nat)
    returns (right: nat, who: nat)
    requires AreMarksOf(ms, hit) && Chosen(hit, pick) && 0 < n <= |hit|
    ensures right < |ms| && who < n && ms[right] == Mark(pick[who], who)
    ensures forall f | 0 <= f < n :: exists k :: 0 <= k <= right && ms[k] == Mark(pick[f], f)
  {
    var i :| 0 <= i < |hit[n - 1]| && hit[n - 1][i] == pick[n - 1];
    assert Mark(hit[n - 1][i], n - 1) in ms;
    var mine: nat :| mine < |ms| && ms[mine] == Mark(pick[n - 1], n - 1);
    right, who := mine, n - 1;
    if n > 1 {
      var r, w := Rightmost(hit, ms, pick, n - 1);
      if r > mine {
        right, who := r, w;
      }
    }
  }

  lemma FitsIsFullSomewhere(hit: seq<seq<int>>, ms: seq<Mark>, window: nat)
    requires AreMarksOf(ms, hit) && |hit| > 0 && Fits(hit, window)
    ensures exists right :: 0 <= right < |ms| && FullAt(ms, right, |hit|, window)
  {
    var pick :| Chosen(hit, pick) && Spans(pick, window);
    var right, who := Rightmost(hit, ms, pick, |hit|);
    forall f: nat | f < |hit| ensures Near(ms, right, f, window) {
      var k :| 0 <= k <= right && ms[k] == Mark(pick[f], f);
      assert pick[who] - pick[f] <= window;
    }
    assert FullAt(ms, right, |hit|, window);
  }

  // ---------------------------------------------------------------- the sliding window

  /** Everything in [left, right] is within the window of the mark at right, and nothing before. */
  predicate Window(ms: seq<Mark>, left: nat, right: nat, window: nat)
    requires left <= right < |ms|
  {
    ms[right].pos - ms[left].pos <= window && Passed(ms, left, right, window)
  }

  lemma WindowIsFull(ms: seq<Mark>, left: nat, right: nat, n: nat, window: nat)
    requires Sorted(ms) && left <= right < |ms| && Window(ms, left, right, window)
    requires forall i | 0 <= i < |ms| :: ms[i].facet < n
    ensures |Facets(ms[left..right + 1])| == n <==> FullAt(ms, right, n, window)
  {
    var inside := ms[left..right + 1];
    AllFacetsIff(inside, n);
    assert forall i | 0 <= i < |inside| :: inside[i] == ms[left + i];
    forall f: nat | f < n ensures f in Facets(inside) <==> Near(ms, right, f, window) {
      if f in Facets(inside) {
        var i :| 0 <= i < |inside| && inside[i].facet == f;
        assert ms[left + i].facet == f && ms[left].pos <= ms[left + i].pos;
      }
      if Near(ms, right, f, window) {
        var k :| 0 <= k <= right && ms[k].facet == f && ms[right].pos - ms[k].pos <= window;
        assert inside[k - left] == ms[k];
      }
    }
  }

  ghost predicate FullSomewhere(ms: seq<Mark>, end: nat, n: nat, window: nat)
    requires end <= |ms|
  {
    exists right :: 0 <= right < end && FullAt(ms, right, n, window)
  }

  /** Everything before `left` is too far from the mark at `right`. */
  predicate Passed(ms: seq<Mark>, left: nat, right: nat, window: nat)
    requires left <= right <= |ms|
  {
    right < |ms| ==> forall k | 0 <= k < left :: ms[right].pos - ms[k].pos > window
  }

  lemma PassedLater(ms: seq<Mark>, left: nat, right: nat, window: nat)
    requires Sorted(ms) && left <= right < |ms| && Passed(ms, left, right, window)
    ensures Passed(ms, left, right + 1, window)
  {
  }

  /** The sliding window over sorted marks. */
  /** The window takes in the mark at its right, or lets go of the one at its left. */
  lemma WindowGrows(counts: map<nat, nat>, distinct: nat, ms: seq<Mark>, left: nat, right: nat)
    requires left <= right < |ms| && Tallied(counts, distinct, ms[left..right])
    ensures var f := ms[right].facet;
            Tallied(counts[f := Tally(counts, f) + 1], if Tally(counts, f) == 0 then distinct + 1 else distinct, ms[left..right + 1])
  {
    AddRight(counts, distinct, ms[left..right], ms[right]);
    assert ms[left..right] + [ms[right]] == ms[left..right + 1];
  }

  lemma WindowShrinks(counts: map<nat, nat>, distinct: nat, ms: seq<Mark>, left: nat, right: nat)
    requires left <= right < |ms| && Tallied(counts, distinct, ms[left..right + 1])
    ensures var f := ms[left].facet;
            && f in counts && counts[f] > 0 && distinct > 0
            && Tallied(counts[f := counts[f] - 1], if counts[f] == 1 then distinct - 1 else distinct, ms[left + 1..right + 1])
  {
    DropLeft(counts, distinct, ms[left..right + 1]);
    assert ms[left..right + 1][1..] == ms[left + 1..right + 1];
  }

  method Sweep(marks: seq<Mark>, facets: nat, window: nat) returns (full: bool)
    requires Sorted(marks) && forall i | 0 <= i < |marks| :: marks[i].facet < facets
    ensures full <==> FullSomewhere(marks, |marks|, facets, window)
  {
    var counts: map<nat, nat> := map[];
    var distinct: nat, left: nat := 0, 0;
    for right := 0 to |marks|
      invariant left <= right
      invariant Tallied(counts, distinct, marks[left..right])
      invariant Passed(marks, left, right, window)
      invariant !FullSomewhere(marks, right, facets, window)
    {
      var m := marks[right];
      WindowGrows(counts, distinct, marks, left, right);
      if Tally(counts, m.facet) == 0 {
        distinct := distinct + 1;
      }
      counts := counts[m.facet := Tally(counts, m.facet) + 1];
      while marks[right].pos - marks[left].pos > window
        invariant left <= right
        invariant Tallied(counts, distinct, marks[left..right + 1])
        invariant Passed(marks, left, right, window)
        decreases right - left
      {
        WindowShrinks(counts, distinct, marks, left, right);
        var f := marks[left].facet;
        counts := counts[f := counts[f] - 1];
        if counts[f] == 0 {
          distinct := distinct - 1;
        }
        left := left + 1;
      }
      WindowIsFull(marks, left, right, facets, window);
      if distinct == facets {
        return true;
      }
      PassedLater(marks, left, right, window);
    }
    full := false;
  }

  /** True exactly when some choice of one position per facet spans no more than the window. */
  method WithinWindow(hit: seq<seq<int>>, window: nat) returns (fits: bool)
    ensures fits <==> |hit| > 0 && Fits(hit, window)
  {
    var marks := SortMarks(MarksFrom(hit, 0));
    MarksAreHits(hit, 0);
    SortKeeps(MarksFrom(hit, 0));
    assert AreMarksOf(marks, hit) by {
      assert forall i | 0 <= i < |marks| :: marks[i] in marks;
    }
    fits := Sweep(marks, |hit|, window);
    if fits {
      ghost var right: nat :| right < |marks| && FullAt(marks, right, |hit|, window);
      FullFits(hit, marks, right, window);
    } else if |hit| > 0 && Fits(hit, window) {
      FitsIsFullSomewhere(hit, marks, window);
    }
  }

  // ---------------------------------------------------------------- scoring clusters

  const INTENT_WINDOW: nat := 16

  function Hits(facets: seq<seq<int>>): (r: seq<seq<int>>)
    ensures |r| <= |facets| && forall h :: h in r <==> h in facets && h != []
  {
    if facets == [] then [] else (if facets[0] != [] then [facets[0]] else []) + Hits(facets[1..])
  }

  /** At least two facets occur, and one occurrence of each of those lies in a short stretch. */
  ghost predicate Matches(facets: seq<seq<int>>) {
    |Hits(facets)| >= 2 && Fits(Hits(facets), 16)
  }

  /** More facets, more confidence, but never more than 0.75 on this evidence alone. */
  function Confidence(facets: seq<seq<int>>): (r: real)
    requires facets != []
    ensures 0.0 < r <= 0.75
  {
    var raw := 0.30 + 0.45 * ((|Hits(facets)| as real) / (|facets| as real));
    if raw < 0.75 then raw else 0.75
  }

  /** Which facets occur, from number k on. */
  function Occurring(facets: seq<seq<int>>, k: nat): set<nat> {
    set f: nat | k <= f < |facets| && facets[f] != []
  }

  lemma {:induction false} HitsCount(facets: seq<seq<int>>, k: nat)
    requires k <= |facets|
    ensures |Hits(facets[k..])| == |Occurring(facets, k)| <= |facets| - k
    decreases |facets| - k
  {
    if k < |facets| {
      HitsCount(facets, k + 1);
      assert facets[k..][1..] == facets[k + 1..];
      assert Occurring(facets, k) == Occurring(facets, k + 1) + if facets[k] != [] then {k} else {};
    }
  }

  lemma LinearShare(h: real, n: real)
    requires n > 0.0 && 0.0 <= h <= n
    ensures var raw := 0.30 + 0.45 * (h / n);
            raw <= 0.75 && raw * n == 0.30 * n + 0.45 * h && (raw == 0.75 <==> h == n)
  {
    assert h / n * n == h;
    var q := h / n;
    assert q <= 1.0 && (q == 1.0 <==> h == n);
    assert (0.30 + 0.45 * q) * n == 0.30 * n + 0.45 * (q * n);
  }

  lemma AllOccur(facets: seq<seq<int>>)
    ensures |Occurring(facets, 0)| == |facets| <==> forall f | 0 <= f < |facets| :: facets[f] != []
  {
    var some := Occurring(facets, 0);
    assert some <= Upto(|facets|);
    if |some| == |facets| {
      SubsetOfSameSize(some, Upto(|facets|));
      forall f | 0 <= f < |facets| ensures facets[f] != [] {
        assert f in some;
      }
    }
    if forall f | 0 <= f < |facets| :: facets[f] != [] {
      assert some == Upto(|facets|);
    }
  }

  lemma UncappedConfidence(facets: seq<seq<int>>)
    requires facets != []
    ensures Confidence(facets) == 0.30 + 0.45 * (|Hits(facets)| as real / |facets| as real)
  {
    LinearShare(|Hits(facets)| as real, |facets| as real);
  }

  /** The confidence is linear in the share of facets that occur; the cap is only just reached when all
      of them do. */
  lemma ConfidenceIsLinear(facets: seq<seq<int>>)
    requires facets != []
    ensures Confidence(facets) * |facets| as real == 0.30 * |facets| as real + 0.45 * |Occurring(facets, 0)| as real
    ensures Confidence(facets) == 0.75 <==> forall f | 0 <= f < |facets| :: facets[f] != []
  {
    HitsCount(facets, 0);
    assert facets[0..] == facets;
    AllOccur(facets);
    UncappedConfidence(facets);
    LinearShare(|Hits(facets)| as real, |facets| as real);
  }

  /** The best cluster: some cluster matches exactly when one is named, nothing that matches
      scores higher, and among equals the first one listed wins. */
  method IntentScore(clusters: seq<seq<seq<int>>>) returns (best: real, which: int)
    ensures which == -1 <==> forall k | 0 <= k < |clusters| :: !Matches(clusters[k])
    ensures which == -1 ==> best == 0.0
    ensures which != -1 ==>
              && 0 <= which < |clusters| && Matches(clusters[which]) && best == Confidence(clusters[which])
              && (forall k | 0 <= k < |clusters| && Matches(clusters[k]) :: Confidence(clusters[k]) <= best)
              && (forall k | 0 <= k < which && Matches(clusters[k]) :: Confidence(clusters[k]) < best)
  {
    best, which := 0.0, -1;
    for n := 0 to |clusters|
      invariant -1 <= which < n && best >= 0.0
      invariant which == -1 ==> best == 0.0
      invariant which == -1 <==> forall k | 0 <= k < n :: !Matches(clusters[k])
      invariant which != -1 ==> Matches(clusters[which]) && best == Confidence(clusters[which])
      invariant forall k | 0 <= k < n && Matches(clusters[k]) :: Confidence(clusters[k]) <= best
      invariant forall k | 0 <= k < which && Matches(clusters[k]) :: Confidence(clusters[k]) < best
    {
      var hits := Hits(clusters[n]);
      if |hits| < 2 {
        continue;
      }
      var fits := WithinWindow(hits, INTENT_WINDOW);
      if !fits {
        continue;
      }
      if Confidence(clusters[n]) > best {
        best, which := Confidence(clusters[n]), n;
      }
    }
  }
}
