/**
 * Properties of the what-if analysis: the shape of its list of entries, and
 * what the scoring rules imply when every score uses the same draw.
 */
module WhatIf {
  import opened Wrappers
  import opened Passengers
  import opened Titles
  import opened Derivation
  import opened Scoring
  import opened ImpactFormat
  import opened PredictionService

  /** The factors of fs come in the order the analysis tries them, each once. */
  predicate InOrder(fs: seq<Factor>) {
    forall i, j :: 0 <= i < j < |fs| ==> Rank(fs[i]) < Rank(fs[j])
  }

  /** The analysis tries each change once, in rank order. */
  lemma FactorsInOrder()
    ensures InOrder(Factors)
  {
    forall i, j | 0 <= i < j < |Factors|
      ensures Rank(Factors[i]) < Rank(Factors[j])
    {
      assert Rank(Factors[i]) == i && Rank(Factors[j]) == j;
    }
  }

  /** Whether a change with these impacts yields a finding. */
  predicate Qualifies(d: PassengerData, impacts: Impacts, f: Factor) {
    Applies(f, d) && ImpactFor(impacts, f) > ImpactThreshold
  }

  /** Trying one more change adds its finding, if any, at the end. */
  lemma SuggestionsLast(d: PassengerData, impacts: Impacts, fs: seq<Factor>)
    requires fs != []
    ensures var f := fs[|fs| - 1];
      Suggestions(d, impacts, fs) == Suggestions(d, impacts, fs[..|fs| - 1])
        + if Qualifies(d, impacts, f) then [Finding(f, ImpactFor(impacts, f))] else []
  {
  }

  /** At most one finding per change tried. */
  lemma {:induction false} FindingsBound(d: PassengerData, impacts: Impacts, fs: seq<Factor>)
    ensures |Suggestions(d, impacts, fs)| <= |fs|
  {
    if fs != [] {
      SuggestionsLast(d, impacts, fs);
      FindingsBound(d, impacts, fs[..|fs| - 1]);
    }
  }

  /** Every finding is of a change tried that applies, with its impact, which exceeds the threshold. */
  lemma {:induction false} FindingsSound(d: PassengerData, impacts: Impacts, fs: seq<Factor>)
    ensures var r := Suggestions(d, impacts, fs);
      forall i :: 0 <= i < |r| ==>
        && r[i].factor in fs && Qualifies(d, impacts, r[i].factor)
        && r[i].impact == ImpactFor(impacts, r[i].factor)
  {
    if fs != [] {
      var init := fs[..|fs| - 1];
      SuggestionsLast(d, impacts, fs);
      FindingsSound(d, impacts, init);
      assert forall g :: g in init ==> g in fs;
    }
  }

  /** The findings follow the order of the changes. */
  lemma {:induction false} FindingsOrdered(d: PassengerData, impacts: Impacts, fs: seq<Factor>)
    requires InOrder(fs)
    ensures var r := Suggestions(d, impacts, fs);
      forall i, j :: 0 <= i < j < |r| ==> Rank(r[i].factor) < Rank(r[j].factor)
  {
    if fs != [] {
      var init, f := fs[..|fs| - 1], fs[|fs| - 1];
      assert InOrder(init);
      SuggestionsLast(d, impacts, fs);
      FindingsOrdered(d, impacts, init);
      FindingsSound(d, impacts, init);
      var r0 := Suggestions(d, impacts, init);
      forall i | 0 <= i < |r0|
        ensures Rank(r0[i].factor) < Rank(f)
      {
        var k :| 0 <= k < |init| && init[k] == r0[i].factor;
      }
    }
  }

  /** Every change tried that applies with an impact over the threshold has its finding. */
  lemma {:induction false} FindingsComplete(d: PassengerData, impacts: Impacts, fs: seq<Factor>)
    ensures var r := Suggestions(d, impacts, fs);
      forall f :: f in fs && Qualifies(d, impacts, f) ==> Finding(f, ImpactFor(impacts, f)) in r
  {
    if fs != [] {
      var init := fs[..|fs| - 1];
      SuggestionsLast(d, impacts, fs);
      FindingsComplete(d, impacts, init);
      assert forall g :: g in fs ==> g in init || g == fs[|fs| - 1];
    }
  }

  /** The impact text starts with a plus sign and ends with a percent sign. */
  lemma FormatImpactSigns(impact: real)
    ensures var s := FormatImpact(impact); |s| >= 2 && s[0] == '+' && s[|s| - 1] == '%'
  {
  }

  /** Every change is among the five the analysis tries. */
  lemma AllFactorsTried(f: Factor)
    ensures f in Factors
  {
    match f
    case Gender => assert Factors[0] == f;
    case PassengerClass => assert Factors[1] == f;
    case Age => assert Factors[2] == f;
    case FamilyStatus => assert Factors[3] == f;
    case Cabin => assert Factors[4] == f;
  }

  /**
   * Each entry of an analysis names a change that applies and whose impact
   * exceeds the threshold, and carries that change's texts and its impact
   * written after a plus sign.
   */
  lemma EntriesSound(d: PassengerData, impacts: Impacts)
    ensures var es := Entries(Suggestions(d, impacts, Factors));
      forall i :: 0 <= i < |es| ==>
        && FactorNamed(es[i].factor).Some?
        && Qualifies(d, impacts, FactorNamed(es[i].factor).value)
        && es[i] == EntryOf(Finding(FactorNamed(es[i].factor).value, ImpactFor(impacts, FactorNamed(es[i].factor).value)))
        && |es[i].impactOnSurvival| >= 2 && es[i].impactOnSurvival[0] == '+'
  {
    var r := Suggestions(d, impacts, Factors);
    var es := Entries(r);
    FindingsSound(d, impacts, Factors);
    forall i | 0 <= i < |es|
      ensures FactorNamed(es[i].factor) == Some(r[i].factor)
      ensures es[i] == EntryOf(r[i])
      ensures |es[i].impactOnSurvival| >= 2 && es[i].impactOnSurvival[0] == '+'
    {
      EntriesAt(r, i);
      FactorNamedInverse(r[i].factor);
      FormatImpactSigns(r[i].impact);
    }
  }

  /**
   * An analysis has at most five entries, and they come in the order Gender,
   * Passenger Class, Age, Family Status, Cabin.
   */
  lemma EntriesOrdered(d: PassengerData, impacts: Impacts)
    ensures |Entries(Suggestions(d, impacts, Factors))| <= 5
    ensures var es := Entries(Suggestions(d, impacts, Factors));
      forall i, j :: 0 <= i < j < |es| ==>
        && FactorNamed(es[i].factor).Some? && FactorNamed(es[j].factor).Some?
        && Rank(FactorNamed(es[i].factor).value) < Rank(FactorNamed(es[j].factor).value)
  {
    var r := Suggestions(d, impacts, Factors);
    var es := Entries(r);
    FindingsBound(d, impacts, Factors);
    FactorsInOrder();
    FindingsOrdered(d, impacts, Factors);
    forall i | 0 <= i < |es|
      ensures FactorNamed(es[i].factor) == Some(r[i].factor)
    {
      EntryNamed(r, i);
    }
  }

  /** An entry names the factor of its finding. */
  lemma EntryNamed(r: seq<Finding>, i: nat)
    requires i < |r|
    ensures FactorNamed(Entries(r)[i].factor) == Some(r[i].factor)
  {
    EntriesAt(r, i);
    FactorNamedInverse(r[i].factor);
  }

  /** No factor is named by two entries of an analysis. */
  lemma EntriesDistinct(d: PassengerData, impacts: Impacts, i: nat, j: nat)
    requires i < j < |Entries(Suggestions(d, impacts, Factors))|
    ensures var es := Entries(Suggestions(d, impacts, Factors)); es[i].factor != es[j].factor
  {
    EntriesOrdered(d, impacts);
  }

  /** Every change that applies with an impact over the threshold has its entry. */
  lemma EntriesComplete(d: PassengerData, impacts: Impacts, f: Factor)
    requires Qualifies(d, impacts, f)
    ensures EntryOf(Finding(f, ImpactFor(impacts, f))) in Entries(Suggestions(d, impacts, Factors))
  {
    var r := Suggestions(d, impacts, Factors);
    AllFactorsTried(f);
    FindingsComplete(d, impacts, Factors);
    var k :| 0 <= k < |r| && r[k] == Finding(f, ImpactFor(impacts, f));
    EntriesAt(r, k);
  }

  /** A change that applies with an impact over the threshold is in the analysis, with its impact. */
  lemma AnalysisReports(d: PassengerData, draws: Draws, f: Factor)
    requires !MissingRequired(d)
    requires Applies(f, d) && Impact(d, PassengerScore(d, draws.base), draws, f) > ImpactThreshold
    ensures Analysis(d, draws).Ok?
    ensures EntryOf(Finding(f, Impact(d, PassengerScore(d, draws.base), draws, f)))
      in Analysis(d, draws).value.factorAnalysis
  {
    var base := PassengerScore(d, draws.base);
    var impacts := ImpactsOf(d, base, draws);
    assert ImpactFor(impacts, f) == Impact(d, base, draws, f);
    EntriesComplete(d, impacts, f);
    assert Analysis(d, draws) == Ok(AnalysisResult(base, ModelAccuracy, Entries(Suggestions(d, impacts, Factors))));
  }

  // What the rules imply when the base score and every changed score use the
  // same draw, as they would with the variance switched off.

  /** The draws of an analysis whose scores all use the draw r. */
  function SameDraw(r: Noise): Draws {
    Draws(r, r, r, r, r, r)
  }

  /** A man made a woman gains at least 0.7 before clamping; a man scores at most 0.8 before clamping. */
  lemma GenderGain(d: PassengerData)
    requires Parsed(d) && d.sex == Known(Male)
    ensures RawScore(Preprocess(Counterfactual(Gender, d))) >= RawScore(Preprocess(d)) + 0.7
    ensures RawScore(Preprocess(d)) <= 0.8
  {
    var f, g := Preprocess(d), Preprocess(Counterfactual(Gender, d));
    assert SexAdjustment(g) == SexAdjustment(f) + 0.7;
    assert InteractionAdjustment(g) >= InteractionAdjustment(f);
    assert ClassAdjustment(g) == ClassAdjustment(f) && AgeAdjustment(g) == AgeAdjustment(f);
    assert FamilyAdjustment(g) == FamilyAdjustment(f) && CabinAdjustment(g) == CabinAdjustment(f);
    assert FareAdjustment(g) == FareAdjustment(f) && TitleAdjustment(g) == TitleAdjustment(f);
  }

  /** Moving to the first class gains at least 0.2 before clamping. */
  lemma ClassGain(d: PassengerData)
    requires Parsed(d) && d.pclass != Given(1)
    ensures RawScore(Preprocess(Counterfactual(PassengerClass, d))) >= RawScore(Preprocess(d)) + 0.2
  {
    var f, g := Preprocess(d), Preprocess(Counterfactual(PassengerClass, d));
    assert ClassAdjustment(g) >= ClassAdjustment(f) + 0.2;
    assert InteractionAdjustment(g) >= InteractionAdjustment(f);
    assert SexAdjustment(g) == SexAdjustment(f) && AgeAdjustment(g) == AgeAdjustment(f);
    assert FamilyAdjustment(g) == FamilyAdjustment(f) && CabinAdjustment(g) == CabinAdjustment(f);
    assert FareAdjustment(g) == FareAdjustment(f) && TitleAdjustment(g) == TitleAdjustment(f);
  }

  /** Becoming a child of ten gains at least 0.15 before clamping. */
  lemma AgeGain(d: PassengerData)
    requires Parsed(d) && d.age.value >= 16.0
    ensures RawScore(Preprocess(Counterfactual(Age, d))) >= RawScore(Preprocess(d)) + 0.15
  {
    var f, g := Preprocess(d), Preprocess(Counterfactual(Age, d));
    assert AgeAdjustment(g) >= AgeAdjustment(f) + 0.15;
    assert SexAdjustment(g) == SexAdjustment(f) && ClassAdjustment(g) == ClassAdjustment(f);
    assert FamilyAdjustment(g) == FamilyAdjustment(f) && CabinAdjustment(g) == CabinAdjustment(f);
    assert FareAdjustment(g) == FareAdjustment(f) && TitleAdjustment(g) == TitleAdjustment(f);
    assert InteractionAdjustment(g) == InteractionAdjustment(f);
  }

  /** Gaining one relative when travelling alone changes only the three family features. */
  lemma FamilyFeatures(d: PassengerData)
    requires Parsed(d) && d.sibsp == 0 && d.parch == 0
    ensures Preprocess(d).isAlone == 1.0 && Preprocess(d).familySize == 1.0
    ensures Preprocess(Counterfactual(FamilyStatus, d)) ==
      Preprocess(d).(sibsp := 1.0, familySize := 2.0, isAlone := 0.0)
  {
  }

  /** Leaving the alone bracket for a family of two is worth 0.05 before clamping. */
  lemma FamilyRawGain(f: Features)
    requires f.isAlone == 1.0 && f.familySize == 1.0
    ensures RawScore(f.(sibsp := 1.0, familySize := 2.0, isAlone := 0.0)) == RawScore(f) + 0.05
  {
    var g := f.(sibsp := 1.0, familySize := 2.0, isAlone := 0.0);
    assert FamilyAdjustment(g) == FamilyAdjustment(f) + 0.05;
  }

  /** A passenger travelling alone who gains one relative gains exactly 0.05 before clamping. */
  lemma FamilyGain(d: PassengerData)
    requires Parsed(d) && d.sibsp == 0 && d.parch == 0
    ensures RawScore(Preprocess(Counterfactual(FamilyStatus, d))) == RawScore(Preprocess(d)) + 0.05
  {
    FamilyFeatures(d);
    FamilyRawGain(Preprocess(d));
  }

  /** Taking a cabin changes only the cabin feature. */
  lemma CabinFeatures(d: PassengerData)
    requires Parsed(d) && !d.cabin
    ensures Preprocess(d).hasCabin == 0.0
    ensures Preprocess(Counterfactual(Cabin, d)) == Preprocess(d).(hasCabin := 1.0)
  {
  }

  /** The cabin feature is worth 0.1 before clamping. */
  lemma CabinRawGain(f: Features)
    requires f.hasCabin == 0.0
    ensures RawScore(f.(hasCabin := 1.0)) == RawScore(f) + 0.1
  {
  }

  /** Taking a cabin gains exactly 0.1 before clamping. */
  lemma CabinGain(d: PassengerData)
    requires Parsed(d) && !d.cabin
    ensures RawScore(Preprocess(Counterfactual(Cabin, d))) == RawScore(Preprocess(d)) + 0.1
  {
    CabinFeatures(d);
    CabinRawGain(Preprocess(d));
  }

  /** Under the same draw, no change the analysis tries lowers the probability. */
  lemma ChangeNeverLowers(d: PassengerData, f: Factor, r: Noise)
    requires Parsed(d) && Applies(f, d)
    ensures PassengerScore(Counterfactual(f, d), r) >= PassengerScore(d, r)
    ensures Impact(d, PassengerScore(d, r), SameDraw(r), f) >= 0.0
  {
    match f
    case Gender => GenderGain(d);
    case PassengerClass => ClassGain(d);
    case Age => AgeGain(d);
    case FamilyStatus => FamilyGain(d);
    case Cabin => CabinGain(d);
    ScoreMonotone(Preprocess(d), Preprocess(Counterfactual(f, d)), r);
  }

  /**
   * Under the same draw, the family change raises the probability by at
   * most 0.05, so it never exceeds the threshold.
   */
  lemma FamilyImpactAtMostThreshold(d: PassengerData, r: Noise)
    requires Parsed(d) && Applies(FamilyStatus, d)
    ensures Impact(d, PassengerScore(d, r), SameDraw(r), FamilyStatus) <= ImpactThreshold
  {
    FamilyGain(d);
    ScoreNonExpansive(Preprocess(d), Preprocess(Counterfactual(FamilyStatus, d)), r);
  }

  /** Clamping keeps a gap of at least 0.7 above a value of at most 0.8 wider than 0.05. */
  lemma ClampedGap(b: real, c: real, v: real)
    requires -0.35 <= b <= 0.8 && c >= b + 0.7 && -0.05 <= v < 0.05
    ensures Clamp(0.05, 0.95, Clamp(0.0, 1.0, c) + v) - Clamp(0.05, 0.95, Clamp(0.0, 1.0, b) + v) > 0.05
  {
  }

  /** Under the same draw, making a man a woman always raises the probability by more than 0.05. */
  lemma GenderImpactOverThreshold(d: PassengerData, r: Noise)
    requires Parsed(d) && Applies(Gender, d)
    ensures Impact(d, PassengerScore(d, r), SameDraw(r), Gender) > ImpactThreshold
  {
    GenderGain(d);
    ClampedGap(RawScore(Preprocess(d)), RawScore(Preprocess(Counterfactual(Gender, d))), Variance(r));
  }

  /** A change that does not qualify has no entry. */
  lemma NoEntryUnlessQualifies(d: PassengerData, impacts: Impacts, f: Factor, i: nat)
    requires !Qualifies(d, impacts, f)
    requires i < |Entries(Suggestions(d, impacts, Factors))|
    ensures Entries(Suggestions(d, impacts, Factors))[i].factor != FactorName(f)
  {
    EntriesSound(d, impacts);
    FactorNamedInverse(f);
  }

  /** Under the same draw for every score, an analysis never reports the family change. */
  lemma NoFamilyEntryUnderSameDraw(d: PassengerData, r: Noise)
    requires !MissingRequired(d)
    ensures Analysis(d, SameDraw(r)).Ok?
    ensures var es := Analysis(d, SameDraw(r)).value.factorAnalysis;
      forall i :: 0 <= i < |es| ==> es[i].factor != FactorName(FamilyStatus)
  {
    var base := PassengerScore(d, r);
    var impacts := ImpactsOf(d, base, SameDraw(r));
    assert ImpactFor(impacts, FamilyStatus) == Impact(d, base, SameDraw(r), FamilyStatus);
    if Applies(FamilyStatus, d) {
      FamilyImpactAtMostThreshold(d, r);
    }
    var all := Entries(Suggestions(d, impacts, Factors));
    assert Analysis(d, SameDraw(r)) == Ok(AnalysisResult(base, ModelAccuracy, all));
    var es := Analysis(d, SameDraw(r)).value.factorAnalysis;
    forall i | 0 <= i < |es|
      ensures es[i].factor != FactorName(FamilyStatus)
    {
      NoEntryUnlessQualifies(d, impacts, FamilyStatus, i);
    }
  }

  /** When the change of gender qualifies, its entry comes first. */
  lemma GenderEntryFirst(d: PassengerData, impacts: Impacts)
    requires Qualifies(d, impacts, Gender)
    ensures var es := Entries(Suggestions(d, impacts, Factors));
      |es| > 0 && es[0] == EntryOf(Finding(Gender, impacts.gender))
  {
    var es := Entries(Suggestions(d, impacts, Factors));
    EntriesComplete(d, impacts, Gender);
    var k :| 0 <= k < |es| && es[k] == EntryOf(Finding(Gender, ImpactFor(impacts, Gender)));
    assert es[k].factor == FactorName(Gender);
    if k > 0 {
      OnlyFirstEntryIsGender(d, impacts, k);
      assert false;
    }
  }

  /** No entry after the first names the change of gender. */
  lemma OnlyFirstEntryIsGender(d: PassengerData, impacts: Impacts, k: nat)
    requires 0 < k < |Entries(Suggestions(d, impacts, Factors))|
    ensures Entries(Suggestions(d, impacts, Factors))[k].factor != FactorName(Gender)
  {
    var es := Entries(Suggestions(d, impacts, Factors));
    EntriesOrdered(d, impacts);
    FactorNamedInverse(Gender);
    assert FactorNamed(es[0].factor).Some? && FactorNamed(es[k].factor).Some?
      && Rank(FactorNamed(es[0].factor).value) < Rank(FactorNamed(es[k].factor).value);
  }

  /** Under the same draw for every score, the analysis of a man starts with the change to female. */
  lemma GenderEntryFirstForMen(d: PassengerData, r: Noise)
    requires !MissingRequired(d) && d.sex == Known(Male)
    ensures Analysis(d, SameDraw(r)).Ok?
    ensures var es := Analysis(d, SameDraw(r)).value.factorAnalysis;
      |es| > 0 && es[0].factor == FactorName(Gender) && es[0].changeTo == ChangeTo(Gender)
  {
    var base := PassengerScore(d, r);
    var impacts := ImpactsOf(d, base, SameDraw(r));
    assert ImpactFor(impacts, Gender) == Impact(d, base, SameDraw(r), Gender);
    GenderImpactOverThreshold(d, r);
    GenderEntryFirst(d, impacts);
    assert Analysis(d, SameDraw(r)) == Ok(AnalysisResult(base, ModelAccuracy, Entries(Suggestions(d, impacts, Factors))));
  }
}
