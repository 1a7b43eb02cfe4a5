/**
 * The prediction service: validation of the passenger record, a single
 * prediction, and the what-if analysis that re-scores the passenger with one
 * entry changed at a time and reports the changes that raise the
 * probability by more than five points.
 */
module PredictionService {
  import opened Wrappers
  import opened Passengers
  import opened Titles
  import opened Derivation
  import opened Scoring
  import opened ImpactFormat

  /** The fixed accuracy figure every analysis reports. */
  const ModelAccuracy: real := 0.8324

  /** An impact is reported only when it exceeds this. */
  const ImpactThreshold: real := 0.05

  datatype ServiceError = MissingPassengerInformation

  function ErrorMessage(e: ServiceError): string {
    match e
    case MissingPassengerInformation => "Missing required passenger information"
  }

  datatype PredictionResult = PredictionResult(survivalProbability: real)

  datatype FactorAnalysis = FactorAnalysis(factor: string, changeTo: string, impactOnSurvival: string)

  datatype AnalysisResult = AnalysisResult(
    baseProbability: real, modelAccuracy: real, factorAnalysis: seq<FactorAnalysis>)

  /** The five changes the analysis tries, in the order it tries them. */
  datatype Factor = Gender | PassengerClass | Age | FamilyStatus | Cabin

  const Factors: seq<Factor> := [Gender, PassengerClass, Age, FamilyStatus, Cabin]

  function Rank(f: Factor): nat {
    match f
    case Gender => 0
    case PassengerClass => 1
    case Age => 2
    case FamilyStatus => 3
    case Cabin => 4
  }

  function FactorName(f: Factor): string {
    match f
    case Gender => "Gender"
    case PassengerClass => "Passenger Class"
    case Age => "Age"
    case FamilyStatus => "Family Status"
    case Cabin => "Cabin"
  }

  function ChangeTo(f: Factor): string {
    match f
    case Gender => "Female"
    case PassengerClass => "1st Class"
    case Age => "Child (under 16)"
    case FamilyStatus => "Traveling with family"
    case Cabin => "Having a private cabin"
  }

  /** The factor a reported name stands for. */
  function FactorNamed(name: string): (r: Option<Factor>)
    ensures r.Some? ==> FactorName(r.value) == name
  {
    if name == "Gender" then Some(Gender)
    else if name == "Passenger Class" then Some(PassengerClass)
    else if name == "Age" then Some(Age)
    else if name == "Family Status" then Some(FamilyStatus)
    else if name == "Cabin" then Some(Cabin)
    else None
  }

  /** Every factor name reads back as its factor, so the names are distinct. */
  lemma FactorNamedInverse(f: Factor)
    ensures FactorNamed(FactorName(f)) == Some(f)
  {
  }

  /**
   * Whether a change is tried for this passenger: a male passenger, a class
   * other than the first, an age of at least 16, no relatives aboard, no cabin.
   */
  predicate Applies(f: Factor, d: PassengerData) {
    match f
    case Gender => d.sex == Known(Male)
    case PassengerClass => d.pclass != Given(1)
    case Age => d.age.Given? && d.age.value >= 16.0
    case FamilyStatus => d.sibsp == 0 && d.parch == 0
    case Cabin => !d.cabin
  }

  /**
   * The passenger with the one entry changed: female, first class, aged 10,
   * one sibling or spouse, a cabin.
   */
  function Counterfactual(f: Factor, d: PassengerData): (c: PassengerData)
    ensures Parsed(d) ==> Parsed(c)
  {
    match f
    case Gender => d.(sex := Known(Female))
    case PassengerClass => d.(pclass := Given(1))
    case Age => d.(age := Given(10.0))
    case FamilyStatus => d.(sibsp := 1)
    case Cabin => d.(cabin := true)
  }

  /** The random draws one analysis consumes: one for the base score and one per change. */
  datatype Draws = Draws(base: Noise, gender: Noise, pclass: Noise, age: Noise, family: Noise, cabin: Noise)

  function DrawFor(draws: Draws, f: Factor): Noise {
    match f
    case Gender => draws.gender
    case PassengerClass => draws.pclass
    case Age => draws.age
    case FamilyStatus => draws.family
    case Cabin => draws.cabin
  }

  /** How much the change raises the probability over the base probability. */
  function Impact(d: PassengerData, base: real, draws: Draws, f: Factor): real
    requires Parsed(d)
  {
    PassengerScore(Counterfactual(f, d), DrawFor(draws, f)) - base
  }

  /** The impact of each of the five changes. */
  datatype Impacts = Impacts(gender: real, pclass: real, age: real, family: real, cabin: real)

  function ImpactFor(impacts: Impacts, f: Factor): real {
    match f
    case Gender => impacts.gender
    case PassengerClass => impacts.pclass
    case Age => impacts.age
    case FamilyStatus => impacts.family
    case Cabin => impacts.cabin
  }

  function ImpactsOf(d: PassengerData, base: real, draws: Draws): Impacts
    requires Parsed(d)
  {
    Impacts(
      Impact(d, base, draws, Gender), Impact(d, base, draws, PassengerClass), Impact(d, base, draws, Age),
      Impact(d, base, draws, FamilyStatus), Impact(d, base, draws, Cabin))
  }

  /** A reported change and its impact, before it is written out as text. */
  datatype Finding = Finding(factor: Factor, impact: real)

  /**
   * What a change with the given impact contributes: a finding if the change
   * applies and the impact exceeds the threshold, nothing otherwise.
   */
  function Attempt(d: PassengerData, f: Factor, impact: real): seq<Finding> {
    if Applies(f, d) && impact > ImpactThreshold then [Finding(f, impact)] else []
  }

  /** The findings of the changes fs, tried in order. */
  function Suggestions(d: PassengerData, impacts: Impacts, fs: seq<Factor>): seq<Finding> {
    if fs == [] then []
    else
      var f := fs[|fs| - 1];
      Suggestions(d, impacts, fs[..|fs| - 1]) + Attempt(d, f, ImpactFor(impacts, f))
  }

  /** The entry of a finding: the factor's name, the change and the impact as text. */
  function EntryOf(x: Finding): FactorAnalysis {
    FactorAnalysis(FactorName(x.factor), ChangeTo(x.factor), FormatImpact(x.impact))
  }

  /** The entries of findings, one each, in the same order. */
  function Entries(xs: seq<Finding>): (es: seq<FactorAnalysis>)
    ensures |es| == |xs|
  {
    if xs == [] then [] else Entries(xs[..|xs| - 1]) + [EntryOf(xs[|xs| - 1])]
  }

  /** The entries of two lists of findings are the two lists of entries, concatenated. */
  lemma {:induction false} EntriesConcat(xs: seq<Finding>, ys: seq<Finding>)
    ensures Entries(xs + ys) == Entries(xs) + Entries(ys)
  {
    if ys != [] {
      var init := ys[..|ys| - 1];
      assert (xs + ys)[..|xs + ys| - 1] == xs + init;
      EntriesConcat(xs, init);
    } else {
      assert xs + ys == xs;
    }
  }

  /** Entry i is the entry of finding i. */
  lemma {:induction false} EntriesAt(xs: seq<Finding>, i: nat)
    requires i < |xs|
    ensures Entries(xs)[i] == EntryOf(xs[i])
  {
    if i < |xs| - 1 {
      EntriesAt(xs[..|xs| - 1], i);
    }
  }

  /** The outcome of a single prediction under one draw. */
  function Prediction(d: PassengerData, r: Noise): Result<PredictionResult, ServiceError> {
    if MissingRequired(d) then Err(MissingPassengerInformation)
    else Ok(PredictionResult(PassengerScore(d, r)))
  }

  /** The outcome of a what-if analysis under the given draws. */
  function Analysis(d: PassengerData, draws: Draws): Result<AnalysisResult, ServiceError> {
    if MissingRequired(d) then Err(MissingPassengerInformation)
    else
      var base := PassengerScore(d, draws.base);
      Ok(AnalysisResult(base, ModelAccuracy, Entries(Suggestions(d, ImpactsOf(d, base, draws), Factors))))
  }

  /** Rejects an incomplete record, otherwise scores it. */
  method Predict(d: PassengerData, r: Noise) returns (res: Result<PredictionResult, ServiceError>)
    ensures res == Prediction(d, r)
    ensures res.Err? <==> MissingRequired(d)
    ensures res.Ok? ==> 0.05 <= res.value.survivalProbability <= 0.95
  {
    if MissingRequired(d) {
      return Err(MissingPassengerInformation);
    }
    var features := Preprocess(d);
    var p := CalculateSurvivalProbability(features, r);
    return Ok(PredictionResult(p));
  }

  /**
   * One block of the analysis: when the change applies, scores the changed
   * passenger and returns an entry if the probability rises by more than the
   * threshold. The ghost out-parameter is the impact the block computes, or
   * would compute if the change applied.
   */
  method TryChange(d: PassengerData, base: real, draws: Draws, f: Factor)
    returns (entries: seq<FactorAnalysis>, ghost impact: real)
    requires Parsed(d)
    ensures impact == Impact(d, base, draws, f)
    ensures entries == Entries(Attempt(d, f, impact))
  {
    impact := Impact(d, base, draws, f);
    entries := [];
    if Applies(f, d) {
      var features := Preprocess(Counterfactual(f, d));
      var p := CalculateSurvivalProbability(features, DrawFor(draws, f));
      var blockImpact := p - base;
      assert blockImpact == impact;
      if blockImpact > ImpactThreshold {
        entries := [FactorAnalysis(FactorName(f), ChangeTo(f), FormatImpact(blockImpact))];
      }
    }
  }

  /**
   * Rejects an incomplete record, otherwise scores it and then tries the five
   * changes in turn, appending the entry of each that applies and raises the
   * probability by more than the threshold.
   */
  method AnalyzeSurvival(d: PassengerData, draws: Draws) returns (res: Result<AnalysisResult, ServiceError>)
    ensures res == Analysis(d, draws)
    ensures res.Err? <==> MissingRequired(d)
    ensures res.Ok? ==> 0.05 <= res.value.baseProbability <= 0.95
  {
    if MissingRequired(d) {
      return Err(MissingPassengerInformation);
    }
    var baseFeatures := Preprocess(d);
    var base := CalculateSurvivalProbability(baseFeatures, draws.base);
    var factorAnalysis: seq<FactorAnalysis> := [];
    var entries;
    ghost var gender, pclass, age, family, cabin;
    entries, gender := TryChange(d, base, draws, Gender);
    factorAnalysis := factorAnalysis + entries;
    assert factorAnalysis == entries;
    entries, pclass := TryChange(d, base, draws, PassengerClass);
    factorAnalysis := factorAnalysis + entries;
    entries, age := TryChange(d, base, draws, Age);
    factorAnalysis := factorAnalysis + entries;
    entries, family := TryChange(d, base, draws, FamilyStatus);
    factorAnalysis := factorAnalysis + entries;
    entries, cabin := TryChange(d, base, draws, Cabin);
    factorAnalysis := factorAnalysis + entries;
    ghost var impacts := Impacts(gender, pclass, age, family, cabin);
    AnalysisOfImpacts(d, draws, base, impacts);
    EntriesOfAllFactors(d, impacts);
    return Ok(AnalysisResult(base, ModelAccuracy, factorAnalysis));
  }

  /** Trying one more change appends that change's finding. */
  lemma SuggestionsStep(d: PassengerData, impacts: Impacts, fs: seq<Factor>, k: nat)
    requires k < |fs|
    ensures Suggestions(d, impacts, fs[..k + 1]) ==
      Suggestions(d, impacts, fs[..k]) + Attempt(d, fs[k], ImpactFor(impacts, fs[k]))
  {
    assert fs[..k + 1][..k] == fs[..k];
  }

  /** The findings of five changes, concatenated in the order they are tried. */
  lemma SuggestionsOfFive(d: PassengerData, impacts: Impacts, fs: seq<Factor>)
    requires |fs| == 5
    ensures Suggestions(d, impacts, fs) ==
      Attempt(d, fs[0], ImpactFor(impacts, fs[0])) + Attempt(d, fs[1], ImpactFor(impacts, fs[1]))
      + Attempt(d, fs[2], ImpactFor(impacts, fs[2])) + Attempt(d, fs[3], ImpactFor(impacts, fs[3]))
      + Attempt(d, fs[4], ImpactFor(impacts, fs[4]))
  {
    var a0, a1, a2 := Attempt(d, fs[0], ImpactFor(impacts, fs[0])), Attempt(d, fs[1], ImpactFor(impacts, fs[1])),
      Attempt(d, fs[2], ImpactFor(impacts, fs[2]));
    var a3, a4 := Attempt(d, fs[3], ImpactFor(impacts, fs[3])), Attempt(d, fs[4], ImpactFor(impacts, fs[4]));
    assert fs[..0] == [];
    SuggestionsStep(d, impacts, fs, 0);
    assert Suggestions(d, impacts, fs[..1]) == a0;
    SuggestionsStep(d, impacts, fs, 1);
    assert Suggestions(d, impacts, fs[..2]) == a0 + a1;
    SuggestionsStep(d, impacts, fs, 2);
    assert Suggestions(d, impacts, fs[..3]) == a0 + a1 + a2;
    SuggestionsStep(d, impacts, fs, 3);
    assert Suggestions(d, impacts, fs[..4]) == a0 + a1 + a2 + a3;
    SuggestionsStep(d, impacts, fs, 4);
    assert fs[..5] == fs;
  }

  /** The analysis of a complete record, with the impacts of the five changes named. */
  lemma AnalysisOfImpacts(d: PassengerData, draws: Draws, base: real, impacts: Impacts)
    requires !MissingRequired(d) && base == PassengerScore(d, draws.base)
    requires impacts.gender == Impact(d, base, draws, Gender)
    requires impacts.pclass == Impact(d, base, draws, PassengerClass)
    requires impacts.age == Impact(d, base, draws, Age)
    requires impacts.family == Impact(d, base, draws, FamilyStatus)
    requires impacts.cabin == Impact(d, base, draws, Cabin)
    ensures Analysis(d, draws) == Ok(AnalysisResult(base, ModelAccuracy, Entries(Suggestions(d, impacts, Factors))))
  {
    assert impacts == ImpactsOf(d, base, draws);
  }

  /** The entries of the five changes, concatenated in the order they are tried. */
  lemma EntriesOfAllFactors(d: PassengerData, impacts: Impacts)
    ensures Entries(Suggestions(d, impacts, Factors)) ==
      Entries(Attempt(d, Gender, impacts.gender)) + Entries(Attempt(d, PassengerClass, impacts.pclass))
      + Entries(Attempt(d, Age, impacts.age)) + Entries(Attempt(d, FamilyStatus, impacts.family))
      + Entries(Attempt(d, Cabin, impacts.cabin))
  {
    SuggestionsOfFive(d, impacts, Factors);
    assert Factors[0] == Gender && Factors[1] == PassengerClass && Factors[2] == Age;
    assert Factors[3] == FamilyStatus && Factors[4] == Cabin;
    assert Suggestions(d, impacts, Factors) ==
      Attempt(d, Gender, impacts.gender) + Attempt(d, PassengerClass, impacts.pclass)
      + Attempt(d, Age, impacts.age) + Attempt(d, FamilyStatus, impacts.family)
      + Attempt(d, Cabin, impacts.cabin);
    EntriesOfFive(Attempt(d, Gender, impacts.gender), Attempt(d, PassengerClass, impacts.pclass),
                  Attempt(d, Age, impacts.age), Attempt(d, FamilyStatus, impacts.family),
                  Attempt(d, Cabin, impacts.cabin));
  }

  /** The entries of five lists of findings, concatenated. */
  lemma EntriesOfFive(a: seq<Finding>, b: seq<Finding>, c: seq<Finding>, d: seq<Finding>, e: seq<Finding>)
    ensures Entries(a + b + c + d + e) == Entries(a) + Entries(b) + Entries(c) + Entries(d) + Entries(e)
  {
    EntriesConcat(a, b);
    EntriesConcat(a + b, c);
    EntriesConcat(a + b + c, d);
    EntriesConcat(a + b + c + d, e);
  }
}
