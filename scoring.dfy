/**
 * The hand-written survival score: a base rate of one half moved by eight
 * rule-based adjustments, clamped to [0, 1], shifted by a small random
 * variance and clamped again to [0.05, 0.95].
 */
module Scoring {
  import opened Passengers
  import opened Titles
  import opened Derivation

  /** A draw of the random number generator, in [0, 1). */
  type Noise = r: real | 0.0 <= r < 1.0

  /** The draw that adds no variance. */
  const MidNoise: Noise := 0.5

  function Max(a: real, b: real): real
  {
    if a >= b then a else b
  }

  function Min(a: real, b: real): real
  {
    if a <= b then a else b
  }

  /** The larger of lo and the smaller of hi and x. */
  function Clamp(lo: real, hi: real, x: real): (c: real)
    requires lo <= hi
    ensures lo <= c <= hi
    ensures lo <= x <= hi ==> c == x
    ensures x < lo ==> c == lo
    ensures hi < x ==> c == hi
  {
    Max(lo, Min(hi, x))
  }

  // The eight adjustments, in the order the score applies them.

  function SexAdjustment(f: Features): real {
    if f.sex.female == 1.0 then 0.4 else -0.3
  }

  function ClassAdjustment(f: Features): real {
    if f.pclass == 1.0 then 0.2 else if f.pclass == 3.0 then -0.15 else 0.0
  }

  function AgeAdjustment(f: Features): real {
    if f.isChild == 1.0 then 0.15 else if f.ageGroup.senior == 1.0 then -0.1 else 0.0
  }

  function FamilyAdjustment(f: Features): real {
    if f.isAlone == 1.0 then -0.05 else if f.familySize > 4.0 then -0.1 else 0.0
  }

  function CabinAdjustment(f: Features): real {
    if f.hasCabin == 1.0 then 0.1 else 0.0
  }

  function FareAdjustment(f: Features): real {
    if f.fareGroup.veryHigh == 1.0 then 0.05 else if f.fareGroup.low == 1.0 then -0.05 else 0.0
  }

  function TitleAdjustment(f: Features): real {
    if f.title.master == 1.0 then 0.1 else if f.title.mrs == 1.0 then 0.05 else 0.0
  }

  function InteractionAdjustment(f: Features): real {
    if f.sexPclass.female1 == 1.0 then 0.1 else if f.sexPclass.male3 == 1.0 then -0.15 else 0.0
  }

  /** The score before any clamping; it lies in [-0.35, 1.6]. */
  function RawScore(f: Features): (s: real)
    ensures -0.35 <= s <= 1.6
  {
    0.5 + SexAdjustment(f) + ClassAdjustment(f) + AgeAdjustment(f) + FamilyAdjustment(f)
    + CabinAdjustment(f) + FareAdjustment(f) + TitleAdjustment(f) + InteractionAdjustment(f)
  }

  /** The variance a draw adds, in [-0.05, 0.05). */
  function Variance(r: Noise): (v: real)
    ensures -0.05 <= v < 0.05
  {
    (r - 0.5) * 0.1
  }

  /** The survival probability of a feature vector under one draw; always in [0.05, 0.95]. */
  function Score(f: Features, r: Noise): (p: real)
    ensures 0.05 <= p <= 0.95
  {
    Clamp(0.05, 0.95, Clamp(0.0, 1.0, RawScore(f)) + Variance(r))
  }

  /**
   * The score computed as the source does, one adjustment at a time on a
   * running total.
   */
  method CalculateSurvivalProbability(f: Features, r: Noise) returns (score: real)
    ensures score == Score(f, r)
    ensures 0.05 <= score <= 0.95
  {
    score := 0.5;
    if f.sex.female == 1.0 {
      score := score + 0.4;
    } else {
      score := score - 0.3;
    }
    ghost var partial := 0.5 + SexAdjustment(f);
    assert score == partial;
    if f.pclass == 1.0 {
      score := score + 0.2;
    } else if f.pclass == 3.0 {
      score := score - 0.15;
    }
    partial := partial + ClassAdjustment(f);
    assert score == partial;
    if f.isChild == 1.0 {
      score := score + 0.15;
    } else if f.ageGroup.senior == 1.0 {
      score := score - 0.1;
    }
    partial := partial + AgeAdjustment(f);
    assert score == partial;
    if f.isAlone == 1.0 {
      score := score - 0.05;
    } else if f.familySize > 4.0 {
      score := score - 0.1;
    }
    partial := partial + FamilyAdjustment(f);
    assert score == partial;
    if f.hasCabin == 1.0 {
      score := score + 0.1;
    }
    partial := partial + CabinAdjustment(f);
    assert score == partial;
    if f.fareGroup.veryHigh == 1.0 {
      score := score + 0.05;
    } else if f.fareGroup.low == 1.0 {
      score := score - 0.05;
    }
    partial := partial + FareAdjustment(f);
    assert score == partial;
    if f.title.master == 1.0 {
      score := score + 0.1;
    } else if f.title.mrs == 1.0 {
      score := score + 0.05;
    }
    partial := partial + TitleAdjustment(f);
    assert score == partial;
    if f.sexPclass.female1 == 1.0 {
      score := score + 0.1;
    } else if f.sexPclass.male3 == 1.0 {
      score := score - 0.15;
    }
    partial := partial + InteractionAdjustment(f);
    assert score == partial == RawScore(f);
    // Keep the probability between 0 and 1, then add the variance.
    score := Max(0.0, Min(1.0, score));
    var variance := (r - 0.5) * 0.1;
    score := Max(0.05, Min(0.95, score + variance));
  }

  /** The variance moves the clamped score by at most 0.05 either way. */
  lemma VarianceIsSmall(f: Features, r: Noise)
    ensures -0.05 <= Score(f, r) - Clamp(0.0, 1.0, RawScore(f)) <= 0.05
  {
  }

  /** The middle draw leaves the clamped score as it is, up to the outer bounds. */
  lemma MidNoiseScore(f: Features)
    ensures Score(f, MidNoise) == Clamp(0.05, 0.95, Clamp(0.0, 1.0, RawScore(f)))
  {
  }

  /** A higher raw score never yields a lower probability under the same draw. */
  lemma ScoreMonotone(f: Features, g: Features, r: Noise)
    requires RawScore(f) <= RawScore(g)
    ensures Score(f, r) <= Score(g, r)
  {
  }

  /** Under the same draw the probability grows by no more than the raw score does. */
  lemma ScoreNonExpansive(f: Features, g: Features, r: Noise)
    requires RawScore(f) <= RawScore(g)
    ensures Score(g, r) - Score(f, r) <= RawScore(g) - RawScore(f)
  {
  }

  /** The probability of a passenger whose numeric entries are present. */
  function PassengerScore(d: PassengerData, r: Noise): real
    requires Parsed(d)
  {
    Score(Preprocess(d), r)
  }

  /** The raw score reads only the thirteen features the adjustments test. */
  predicate SameScoredFeatures(f: Features, g: Features) {
    && f.sex.female == g.sex.female && f.pclass == g.pclass
    && f.isChild == g.isChild && f.ageGroup.senior == g.ageGroup.senior
    && f.isAlone == g.isAlone && f.familySize == g.familySize && f.hasCabin == g.hasCabin
    && f.fareGroup.veryHigh == g.fareGroup.veryHigh && f.fareGroup.low == g.fareGroup.low
    && f.title.master == g.title.master && f.title.mrs == g.title.mrs
    && f.sexPclass.female1 == g.sexPclass.female1 && f.sexPclass.male3 == g.sexPclass.male3
  }

  lemma SameScoredFeaturesSameScore(f: Features, g: Features, r: Noise)
    requires SameScoredFeatures(f, g)
    ensures Score(f, r) == Score(g, r)
  {
    assert SexAdjustment(f) == SexAdjustment(g);
    assert ClassAdjustment(f) == ClassAdjustment(g);
    assert AgeAdjustment(f) == AgeAdjustment(g);
    assert FamilyAdjustment(f) == FamilyAdjustment(g);
    assert CabinAdjustment(f) == CabinAdjustment(g);
    assert FareAdjustment(f) == FareAdjustment(g);
    assert TitleAdjustment(f) == TitleAdjustment(g);
    assert InteractionAdjustment(f) == InteractionAdjustment(g);
  }

  /** The embarkation port never changes the score. */
  lemma PortIrrelevant(d: PassengerData, port: Choice<Port>, r: Noise)
    requires Parsed(d)
    ensures PassengerScore(d.(embarked := port), r) == PassengerScore(d, r)
  {
    SameScoredFeaturesSameScore(Preprocess(d.(embarked := port)), Preprocess(d), r);
  }

  /** Two ages in the same bracket give the same score. */
  lemma AgeOnlyThroughGroup(d: PassengerData, age: real, r: Noise)
    requires Parsed(d) && AgeGroupOf(age) == AgeGroupOf(d.age.value)
    ensures PassengerScore(d.(age := Given(age)), r) == PassengerScore(d, r)
  {
    SameScoredFeaturesSameScore(Preprocess(d.(age := Given(age))), Preprocess(d), r);
  }

  /** Two fares in the same bracket give the same score. */
  lemma FareOnlyThroughGroup(d: PassengerData, fare: real, r: Noise)
    requires Parsed(d) && FareGroupOf(fare) == FareGroupOf(d.fare.value)
    ensures PassengerScore(d.(fare := Given(fare)), r) == PassengerScore(d, r)
  {
    SameScoredFeaturesSameScore(Preprocess(d.(fare := Given(fare))), Preprocess(d), r);
  }

  /** Two names with the same title give the same score. */
  lemma NameOnlyThroughTitle(d: PassengerData, name: string, r: Noise)
    requires Parsed(d) && ExtractTitle(name) == ExtractTitle(d.name)
    ensures PassengerScore(d.(name := name), r) == PassengerScore(d, r)
  {
    assert Preprocess(d.(name := name)) == Preprocess(d);
  }
}
