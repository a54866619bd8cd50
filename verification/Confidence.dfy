/** Combining the three detection layers into one confidence, with the rounding the code does.
    Confidences are exact reals here. */
module Confidence {

  datatype Source = OfficialApi | VerifiedCatalog | UserUpload | ScrapedPage | Email | UnknownSource

  function TrustScore(s: Source): real {
    match s
    case OfficialApi => 0.95
    case VerifiedCatalog => 0.8
    case UserUpload => 0.5
    case ScrapedPage => 0.25
    case Email => 0.15
    case UnknownSource => 0.1
  }

  /** Never below one: low trust amplifies, high trust does not excuse. */
  function InjectionPrior(s: Source): (r: real)
    ensures 1.0 <= r <= 1.25
  {
    1.0 + (1.0 - TrustScore(s)) * 0.25
  }

  /** To the nearest whole number, a tie to the even one. */
  function RoundHalfEven(x: real): int {
    var n := x.Floor;
    var rest := x - n as real;
    if rest < 0.5 || (rest == 0.5 && n % 2 == 0) then n else n + 1
  }

  /** Three decimal places. */
  function Round3(x: real): real {
    RoundHalfEven(x * 1000.0) as real / 1000.0
  }

  predicate OnGrid(x: real) {
    (x * 1000.0).Floor as real == x * 1000.0
  }

  function Max(a: real, b: real): real {
    if a < b then b else a
  }

  function Min(a: real, b: real): real {
    if a < b then a else b
  }

  function Strongest(rule: real, llm: real, similarity: real): real {
    Max(rule, Max(llm, similarity))
  }

  function One(c: real): nat {
    if c > 0.0 then 1 else 0
  }

  /** What is rounded: the strongest layer, a bonus for corroboration, amplified, capped. */
  function Amplified(rule: real, llm: real, similarity: real, s: Source): real {
    var strongest := Strongest(rule, llm, similarity);
    var base := if One(rule) + One(llm) + One(similarity) >= 2 then Min(1.0, strongest + 0.05) else strongest;
    Min(1.0, base * InjectionPrior(s))
  }

  function Combine(rule: real, llm: real, s: Source, similarity: real): real {
    Round3(Amplified(rule, llm, similarity, s))
  }

  // ---------------------------------------------------------------- rounding

  /** Exactly when rounding reaches k. */
  lemma RoundReaches(x: real, k: int)
    ensures RoundHalfEven(x) >= k <==> x > k as real - 0.5 || (x == k as real - 0.5 && k % 2 == 0)
  {
  }

  lemma RoundIsMonotone(x: real, y: real)
    requires x <= y
    ensures RoundHalfEven(x) <= RoundHalfEven(y)
  {
    RoundReaches(x, RoundHalfEven(x));
    RoundReaches(y, RoundHalfEven(x));
  }

  lemma Round3OnGrid(x: real)
    ensures OnGrid(Round3(x))
    ensures OnGrid(x) ==> Round3(x) == x
  {
    assert Round3(x) * 1000.0 == RoundHalfEven(x * 1000.0) as real;
  }

  // ---------------------------------------------------------------- combine

  predicate Unit(x: real) {
    0.0 <= x <= 1.0
  }

  lemma ScaleMonotone(x: real, y: real, k: real)
    requires x <= y && k >= 0.0
    ensures x * k <= y * k
  {
  }

  lemma AmplifiedBounds(rule: real, llm: real, similarity: real, s: Source)
    requires Unit(rule) && Unit(llm) && Unit(similarity)
    ensures Strongest(rule, llm, similarity) <= Amplified(rule, llm, similarity, s) <= 1.0
  {
    var strongest := Strongest(rule, llm, similarity);
    var base := if One(rule) + One(llm) + One(similarity) >= 2 then Min(1.0, strongest + 0.05) else strongest;
    ScaleMonotone(1.0, InjectionPrior(s), base);
  }

  lemma AmplifiedMonotone(rule: real, llm: real, similarity: real, rule': real, llm': real, similarity': real, s: Source)
    requires Unit(rule) && Unit(llm) && Unit(similarity)
    requires rule <= rule' && llm <= llm' && similarity <= similarity'
    ensures Amplified(rule, llm, similarity, s) <= Amplified(rule', llm', similarity', s)
  {
    var x := Strongest(rule, llm, similarity);
    var y := Strongest(rule', llm', similarity');
    var b := if One(rule) + One(llm) + One(similarity) >= 2 then Min(1.0, x + 0.05) else x;
    var b' := if One(rule') + One(llm') + One(similarity') >= 2 then Min(1.0, y + 0.05) else y;
    assert One(rule) <= One(rule') && One(llm) <= One(llm') && One(similarity) <= One(similarity');
    if b <= b' {
      ScaleMonotone(b, b', InjectionPrior(s));
    } else {
      // Only possible above one, where the result is capped.
      assert b' >= 1.0;
    }
  }

  /** The result is a confidence on the thousandth grid. */
  lemma CombineInRange(rule: real, llm: real, s: Source, similarity: real)
    requires Unit(rule) && Unit(llm) && Unit(similarity)
    ensures Unit(Combine(rule, llm, s, similarity)) && OnGrid(Combine(rule, llm, s, similarity))
  {
    AmplifiedBounds(rule, llm, similarity, s);
    var a := Amplified(rule, llm, similarity, s);
    RoundIsMonotone(0.0, a * 1000.0);
    RoundIsMonotone(a * 1000.0, 1000.0);
    Round3OnGrid(a);
  }

  /** More evidence in any layer never lowers the result, rounding included. */
  lemma CombineMonotone(rule: real, llm: real, similarity: real, rule': real, llm': real, similarity': real, s: Source)
    requires Unit(rule) && Unit(llm) && Unit(similarity)
    requires rule <= rule' && llm <= llm' && similarity <= similarity'
    ensures Combine(rule, llm, s, similarity) <= Combine(rule', llm', s, similarity')
  {
    AmplifiedMonotone(rule, llm, similarity, rule', llm', similarity', s);
    RoundIsMonotone(Amplified(rule, llm, similarity, s) * 1000.0, Amplified(rule', llm', similarity', s) * 1000.0);
  }

  function Ceil(x: real): int {
    -((-x).Floor)
  }

  /** The next thousandth at or above x. */
  function CeilThousandth(x: real): int {
    Ceil(x * 1000.0)
  }

  /** At least two layers saw something. */
  predicate Corroborated(rule: real, llm: real, similarity: real) {
    One(rule) + One(llm) + One(similarity) >= 2
  }

  /** This much, in thousandths, is rounded to k at least: it gets to the middle of the step. */
  predicate ReachesHalfStep(x: real, k: int) {
    x > k as real - 0.5 || (x == k as real - 0.5 && k % 2 == 0)
  }

  /** Exactly when the result does not fall below the strongest layer: two layers saw something, or
      that layer is on the grid, as every detector's report is, or provenance amplifies it at
      least to the middle of the grid step it lies in. */
  lemma FloorHoldsIff(rule: real, llm: real, s: Source, similarity: real)
    requires Unit(rule) && Unit(llm) && Unit(similarity)
    ensures var strongest := Strongest(rule, llm, similarity);
            (Combine(rule, llm, s, similarity) >= strongest) <==>
            (|| Corroborated(rule, llm, similarity)
             || OnGrid(strongest)
             || ReachesHalfStep(strongest * InjectionPrior(s) * 1000.0, CeilThousandth(strongest)))
  {
    FloorIsHalfStep(rule, llm, s, similarity);
    var strongest := Strongest(rule, llm, similarity);
    if Corroborated(rule, llm, similarity) {
      CorroborationReaches(rule, llm, similarity, s);
    } else {
      SingleLayerReaches(rule, llm, similarity, s);
    }
  }

  lemma FloorIsHalfStep(rule: real, llm: real, s: Source, similarity: real)
    requires Unit(rule) && Unit(llm) && Unit(similarity)
    ensures var strongest := Strongest(rule, llm, similarity);
            (Combine(rule, llm, s, similarity) >= strongest) <==>
            ReachesHalfStep(Amplified(rule, llm, similarity, s) * 1000.0, CeilThousandth(strongest))
  {
    var strongest := Strongest(rule, llm, similarity);
    RoundReaches(Amplified(rule, llm, similarity, s) * 1000.0, CeilThousandth(strongest));
  }

  lemma CeilBounds(y: real)
    ensures y <= Ceil(y) as real < y + 1.0
    ensures y.Floor as real == y ==> Ceil(y) as real == y
  {
    var n := (-y).Floor;
    assert n as real <= -y < n as real + 1.0;
    if y.Floor as real == y {
      assert -y == (-y.Floor) as real;
    }
  }

  lemma CapIsHarmless(x: real, y: real)
    requires Unit(x) && x <= y
    ensures ReachesHalfStep(Min(1.0, y) * 1000.0, CeilThousandth(x)) <==> ReachesHalfStep(y * 1000.0, CeilThousandth(x))
    ensures OnGrid(x) ==> ReachesHalfStep(y * 1000.0, CeilThousandth(x))
  {
    CeilBounds(x * 1000.0);
    if y > 1.0 {
      assert CeilThousandth(x) <= 1000;
    }
  }

  /** A single layer is amplified and capped, nothing else. */
  lemma SingleLayer(rule: real, llm: real, similarity: real, s: Source)
    requires Unit(rule) && Unit(llm) && Unit(similarity) && !Corroborated(rule, llm, similarity)
    ensures var strongest := Strongest(rule, llm, similarity);
            && Amplified(rule, llm, similarity, s) == Min(1.0, strongest * InjectionPrior(s))
            && strongest <= strongest * InjectionPrior(s)
  {
    ScaleMonotone(1.0, InjectionPrior(s), Strongest(rule, llm, similarity));
  }

  lemma SingleLayerReaches(rule: real, llm: real, similarity: real, s: Source)
    requires Unit(rule) && Unit(llm) && Unit(similarity) && !Corroborated(rule, llm, similarity)
    ensures var strongest := Strongest(rule, llm, similarity);
            var k := CeilThousandth(strongest);
            ReachesHalfStep(Amplified(rule, llm, similarity, s) * 1000.0, k) <==>
            OnGrid(strongest) || ReachesHalfStep(strongest * InjectionPrior(s) * 1000.0, k)
  {
    var strongest := Strongest(rule, llm, similarity);
    SingleLayer(rule, llm, similarity, s);
    assert Unit(strongest);
    CapIsHarmless(strongest, strongest * InjectionPrior(s));
  }

  lemma CorroborationReaches(rule: real, llm: real, similarity: real, s: Source)
    requires Unit(rule) && Unit(llm) && Unit(similarity) && Corroborated(rule, llm, similarity)
    ensures ReachesHalfStep(Amplified(rule, llm, similarity, s) * 1000.0, CeilThousandth(Strongest(rule, llm, similarity)))
  {
    var strongest := Strongest(rule, llm, similarity);
    var base := Min(1.0, strongest + 0.05);
    ScaleMonotone(1.0, InjectionPrior(s), base);
    assert Amplified(rule, llm, similarity, s) >= base;
    assert CeilThousandth(strongest) <= 1000;
  }

  /** Off the grid it can fall below: a faint signal from a trusted source rounds to nothing. */
  lemma FaintSignalVanishes()
    ensures Combine(0.0004, 0.0, OfficialApi, 0.0) == 0.0 < Strongest(0.0004, 0.0, 0.0)
  {
    assert Amplified(0.0004, 0.0, 0.0, OfficialApi) == 0.000405;
  }

  // ---------------------------------------------------------------- what provenance and corroboration add

  lemma AmplifiedByTrust(rule: real, llm: real, similarity: real, s: Source, t: Source)
    requires Unit(rule) && Unit(llm) && Unit(similarity) && TrustScore(t) <= TrustScore(s)
    ensures Amplified(rule, llm, similarity, s) <= Amplified(rule, llm, similarity, t)
  {
    var strongest := Strongest(rule, llm, similarity);
    var base := if One(rule) + One(llm) + One(similarity) >= 2 then Min(1.0, strongest + 0.05) else strongest;
    var x, y := InjectionPrior(s), InjectionPrior(t);
    assert x <= y;
    ScaleMonotone(x, y, base);
    assert x * base == base * x && y * base == base * y;
  }

  /** Less trust in the source never lowers the result. */
  lemma LessTrustNeverLowers(rule: real, llm: real, similarity: real, s: Source, t: Source)
    requires Unit(rule) && Unit(llm) && Unit(similarity) && TrustScore(t) <= TrustScore(s)
    ensures Combine(rule, llm, s, similarity) <= Combine(rule, llm, t, similarity)
  {
    AmplifiedByTrust(rule, llm, similarity, s, t);
    RoundIsMonotone(Amplified(rule, llm, similarity, s) * 1000.0, Amplified(rule, llm, similarity, t) * 1000.0);
  }

  /** What a single layer's 0.8 comes to from each source. */
  lemma EightTenthsTrusted()
    ensures Combine(0.8, 0.0, OfficialApi, 0.0) == 0.81 && Combine(0.8, 0.0, VerifiedCatalog, 0.0) == 0.84
    ensures Combine(0.8, 0.0, UserUpload, 0.0) == 0.9
  {
  }

  lemma EightTenthsUntrusted()
    ensures Combine(0.8, 0.0, ScrapedPage, 0.0) == 0.95
    ensures Combine(0.8, 0.0, Email, 0.0) == 0.97 && Combine(0.8, 0.0, UnknownSource, 0.0) == 0.98
  {
  }

  /** And with a faint second layer beside it, whichever the two are. */
  lemma EightTenthsCorroborated()
    ensures Combine(0.8, 0.1, VerifiedCatalog, 0.0) == 0.892
    ensures Combine(0.8, 0.1, UnknownSource, 0.1) == 1.0
  {
  }

  lemma EightTenthsInAnyLayer()
    ensures Combine(0.1, 0.0, VerifiedCatalog, 0.8) == 0.892
    ensures Combine(0.0, 0.8, VerifiedCatalog, 0.1) == 0.892
  {
  }

  // ---------------------------------------------------------------- the two confidences of analyze

  datatype Analysis = Analysis(injection: real, deterministic: real)

  /** The layers report three decimals; the deterministic figure leaves the classifier out. */
  function Analyze(rule: real, llm: real, similarity: real, s: Source): Analysis {
    Analysis(Combine(Round3(rule), Round3(llm), s, Round3(similarity)), Combine(Round3(rule), 0.0, s, Round3(similarity)))
  }

  /** The rule and similarity layers set a floor that no classifier verdict, or lack of one, can
      lower; and neither figure is below any layer it is made from. */
  lemma ClassifierCannotLower(rule: real, llm: real, similarity: real, s: Source)
    requires Unit(rule) && Unit(llm) && Unit(similarity)
    ensures var a := Analyze(rule, llm, similarity, s);
            && 0.0 <= a.deterministic <= a.injection <= 1.0
            && a.injection >= Strongest(Round3(rule), Round3(llm), Round3(similarity))
            && a.deterministic >= Max(Round3(rule), Round3(similarity))
  {
    RoundedUnit(rule);
    RoundedUnit(llm);
    RoundedUnit(similarity);
    CombineMonotone(Round3(rule), 0.0, Round3(similarity), Round3(rule), Round3(llm), Round3(similarity), s);
    CombineInRange(Round3(rule), 0.0, s, Round3(similarity));
    CombineInRange(Round3(rule), Round3(llm), s, Round3(similarity));
    FloorHoldsIff(Round3(rule), 0.0, s, Round3(similarity));
    FloorHoldsIff(Round3(rule), Round3(llm), s, Round3(similarity));
  }

  lemma RoundedUnit(x: real)
    requires Unit(x)
    ensures Unit(Round3(x)) && OnGrid(Round3(x))
  {
    RoundIsMonotone(0.0, x * 1000.0);
    RoundIsMonotone(x * 1000.0, 1000.0);
    Round3OnGrid(x);
  }
}
