/**
 * A passenger named as the form's placeholder suggests, Mr. John Smith:
 * third class, male, thirty years old, travelling alone on an eight-pound
 * ticket without a cabin, embarked at Southampton. With no variance in any
 * draw the analysis reports the minimum base probability and two
 * suggestions. The lemmas hold for every name whose honorific is "Mr".
 */
module WorkedExample {
  import opened Wrappers
  import opened Passengers
  import opened Titles
  import opened Derivation
  import opened Scoring
  import opened ImpactFormat
  import opened PredictionService
  import opened WhatIf

  /** The record as the form submits it, with sex and port read from their texts. */
  const Smith := PassengerData("Mr. John Smith", Given(3), SexEntry("male"), Given(30.0), 0, 0, Given(8.0), false,
                               PortEntry("S"))

  /** A passenger recorded as Mr. Smith is, under any name titled "Mr". */
  predicate LikeSmith(d: PassengerData) {
    && d.name != "" && ExtractTitle(d.name) == Mr
    && d.pclass == Given(3) && d.sex == Known(Male) && d.age == Given(30.0)
    && d.sibsp == 0 && d.parch == 0 && d.fare == Given(8.0) && !d.cabin && d.embarked == Known(Southampton)
  }

  /** The name's honorific is "Mr", found at its start. */
  lemma SmithTitle()
    ensures ExtractTitle(Smith.name) == Mr
  {
    var s := Smith.name;
    assert MatchesAt(s, 0, Vocabulary()[0]);
    assert FirstAlternative(s, 0, 0) == Some(0);
  }

  lemma SmithIsLikeSmith()
    ensures LikeSmith(Smith)
  {
    assert SexEntry("male") == Known(Male) && PortEntry("S") == Known(Southampton);
    SmithTitle();
  }

  /** The scores of the passenger and of the five changes, with no variance. */
  lemma BaseRawScore(d: PassengerData)
    requires LikeSmith(d)
    ensures RawScore(Preprocess(d)) == -0.15
  {
  }

  lemma BaseScore(d: PassengerData)
    requires LikeSmith(d)
    ensures PassengerScore(d, MidNoise) == 0.05
  {
    BaseRawScore(d);
  }

  lemma GenderScore(d: PassengerData)
    requires LikeSmith(d)
    ensures Impact(d, 0.05, SameDraw(MidNoise), Gender) == 0.65
  {
    assert RawScore(Preprocess(Counterfactual(Gender, d))) == 0.7;
  }

  lemma ClassScore(d: PassengerData)
    requires LikeSmith(d)
    ensures Impact(d, 0.05, SameDraw(MidNoise), PassengerClass) == 0.3
  {
    assert RawScore(Preprocess(Counterfactual(PassengerClass, d))) == 0.35;
  }

  lemma AgeRawScore(d: PassengerData)
    requires LikeSmith(d)
    ensures RawScore(Preprocess(Counterfactual(Age, d))) == 0.0
  {
  }

  lemma AgeScore(d: PassengerData)
    requires LikeSmith(d)
    ensures Impact(d, 0.05, SameDraw(MidNoise), Age) == 0.0
  {
    AgeRawScore(d);
  }

  lemma FamilyScore(d: PassengerData)
    requires LikeSmith(d)
    ensures Impact(d, 0.05, SameDraw(MidNoise), FamilyStatus) == 0.0
  {
    BaseRawScore(d);
    FamilyGain(d);
  }

  lemma CabinScore(d: PassengerData)
    requires LikeSmith(d)
    ensures Impact(d, 0.05, SameDraw(MidNoise), Cabin) == 0.0
  {
    BaseRawScore(d);
    CabinGain(d);
  }

  lemma PercentTexts()
    ensures FormatImpact(0.65) == "+65.0%"
    ensures FormatImpact(0.3) == "+30.0%"
  {
    assert RoundTenths(0.65 * 100.0) == 650;
    assert DecimalDigits(65) == "65";
    assert RoundTenths(0.3 * 100.0) == 300;
    assert DecimalDigits(30) == "30";
  }

  /** Only the changes of gender and of class clear the threshold. */
  lemma ReportedFindings(d: PassengerData)
    requires LikeSmith(d)
    ensures Attempt(d, Gender, 0.65) == [Finding(Gender, 0.65)]
    ensures Attempt(d, PassengerClass, 0.3) == [Finding(PassengerClass, 0.3)]
    ensures Attempt(d, Age, 0.0) == [] && Attempt(d, FamilyStatus, 0.0) == [] && Attempt(d, Cabin, 0.0) == []
  {
  }

  lemma ReportedTexts()
    ensures Entries([Finding(Gender, 0.65)]) == [FactorAnalysis("Gender", "Female", "+65.0%")]
    ensures Entries([Finding(PassengerClass, 0.3)]) == [FactorAnalysis("Passenger Class", "1st Class", "+30.0%")]
  {
    PercentTexts();
    assert [Finding(Gender, 0.65)][..0] == [];
    assert [Finding(PassengerClass, 0.3)][..0] == [];
  }

  /** Only the changes of gender and of class are reported. */
  lemma ReportedEntries(d: PassengerData)
    requires LikeSmith(d)
    ensures Entries(Suggestions(d, Impacts(0.65, 0.3, 0.0, 0.0, 0.0), Factors)) ==
      [FactorAnalysis("Gender", "Female", "+65.0%"), FactorAnalysis("Passenger Class", "1st Class", "+30.0%")]
  {
    EntriesOfAllFactors(d, Impacts(0.65, 0.3, 0.0, 0.0, 0.0));
    ReportedFindings(d);
    ReportedTexts();
    assert Entries([]) == [];
  }

  /** The analysis this passenger gets. */
  lemma SmithLikeAnalysis(d: PassengerData)
    requires LikeSmith(d)
    ensures Analysis(d, SameDraw(MidNoise)) ==
      Ok(AnalysisResult(0.05, 0.8324, [
        FactorAnalysis("Gender", "Female", "+65.0%"),
        FactorAnalysis("Passenger Class", "1st Class", "+30.0%")]))
  {
    BaseScore(d);
    GenderScore(d);
    ClassScore(d);
    AgeScore(d);
    FamilyScore(d);
    CabinScore(d);
    AnalysisOfImpacts(d, SameDraw(MidNoise), 0.05, Impacts(0.65, 0.3, 0.0, 0.0, 0.0));
    ReportedEntries(d);
  }

  /** Mr. John Smith himself: base probability 0.05, and "+65.0%" for gender, "+30.0%" for class. */
  lemma SmithAnalysis()
    ensures Analysis(Smith, SameDraw(MidNoise)) ==
      Ok(AnalysisResult(0.05, 0.8324, [
        FactorAnalysis("Gender", "Female", "+65.0%"),
        FactorAnalysis("Passenger Class", "1st Class", "+30.0%")]))
  {
    SmithIsLikeSmith();
    SmithLikeAnalysis(Smith);
  }

  // With independent draws the family change can clear the threshold after all.

  /** A passenger like Mr. Smith, but travelling in the second class. */
  predicate LikeSmithInSecondClass(d: PassengerData) {
    LikeSmith(d.(pclass := Given(3))) && d.pclass == Given(2)
  }

  /** The lowest draw for the base score and a high one for the family change. */
  const UnequalDraws := Draws(0.0, 0.5, 0.5, 0.5, 0.9, 0.5)

  lemma SecondClassRawScore(d: PassengerData)
    requires LikeSmithInSecondClass(d)
    ensures RawScore(Preprocess(d)) == 0.15
  {
    assert ExtractTitle(d.name) == Mr;
  }

  lemma SecondClassBaseScore(d: PassengerData)
    requires LikeSmithInSecondClass(d)
    ensures PassengerScore(d, 0.0) == 0.1
  {
    SecondClassRawScore(d);
    assert Variance(0.0) == -0.05;
  }

  lemma SecondClassFamilyImpact(d: PassengerData)
    requires LikeSmithInSecondClass(d)
    ensures Impact(d, 0.1, UnequalDraws, FamilyStatus) == 0.14
  {
    SecondClassRawScore(d);
    FamilyGain(d);
    assert RawScore(Preprocess(Counterfactual(FamilyStatus, d))) == 0.2;
    assert Variance(0.9) == 0.04;
  }

  lemma FamilyText()
    ensures EntryOf(Finding(FamilyStatus, 0.14)) == FactorAnalysis("Family Status", "Traveling with family", "+14.0%")
  {
    assert RoundTenths(0.14 * 100.0) == 140;
    assert DecimalDigits(14) == "14";
  }

  /**
   * The base score drawn low and the family score drawn high report the
   * family change, with an impact of 14 points.
   */
  lemma FamilyReportedUnderUnequalDraws(d: PassengerData)
    requires LikeSmithInSecondClass(d)
    ensures Analysis(d, UnequalDraws).Ok?
    ensures FactorAnalysis("Family Status", "Traveling with family", "+14.0%")
      in Analysis(d, UnequalDraws).value.factorAnalysis
  {
    SecondClassBaseScore(d);
    SecondClassFamilyImpact(d);
    AnalysisReports(d, UnequalDraws, FamilyStatus);
    FamilyText();
  }
}
