/**
 * The two pieces of the passenger form that are logic rather than layout:
 * the check of the required fields before the analysis is requested, and
 * the category a probability is displayed under.
 */
module SurvivalForm {
  import opened Wrappers
  import opened Passengers
  import opened PredictionService

  /** The badge styles of the three categories. */
  datatype Variant = Success | Warning | Destructive

  datatype SurvivalCategory = SurvivalCategory(variant: Variant, caption: string)

  /** Orders the categories from low to high survival. */
  function Level(v: Variant): nat {
    match v
    case Destructive => 0
    case Warning => 1
    case Success => 2
  }

  /**
   * Above 0.75 is high, from 0.35 up to 0.75 moderate, below 0.35 low; each
   * category carries its own label, kept in the field caption since label is a Dafny keyword.
   */
  function GetSurvivalCategory(p: real): (c: SurvivalCategory)
    ensures c.variant == Success <==> p > 0.75
    ensures c.variant == Warning <==> 0.35 <= p <= 0.75
    ensures c.variant == Destructive <==> p < 0.35
    ensures c.variant == Success ==> c.caption == "High Survival Probability"
    ensures c.variant == Warning ==> c.caption == "Moderate Survival Probability"
    ensures c.variant == Destructive ==> c.caption == "Low Survival Probability"
  {
    if p > 0.75 then SurvivalCategory(Success, "High Survival Probability")
    else if p >= 0.35 then SurvivalCategory(Warning, "Moderate Survival Probability")
    else SurvivalCategory(Destructive, "Low Survival Probability")
  }

  /** A higher probability is never shown under a lower category. */
  lemma CategoryMonotone(p: real, q: real)
    requires p <= q
    ensures Level(GetSurvivalCategory(p).variant) <= Level(GetSurvivalCategory(q).variant)
  {
  }

  /** Every probability the service returns can fall in any of the three categories. */
  lemma CategoriesWithinServiceRange()
    ensures GetSurvivalCategory(0.05).variant == Destructive
    ensures GetSurvivalCategory(0.5).variant == Warning
    ensures GetSurvivalCategory(0.95).variant == Success
  {
  }

  /** The form's own check: each mandatory entry holds something. */
  predicate RequiredFieldsFilled(d: PassengerData) {
    && d.name != "" && d.pclass.Given? && d.sex != Empty
    && d.age.Given? && d.fare.Given? && d.embarked != Empty
  }

  /** The notice the form shows after a submission. */
  datatype Notice = IncompleteInformation | AnalysisComplete | CalculationFailed

  /**
   * The notice a submission raises, and the analysis on screen after it:
   * the one it sets, or the one already shown when it sets none.
   */
  datatype Submission = Submission(notice: Notice, shown: Option<AnalysisResult>)

  /**
   * A submission with a mandatory entry missing stops at the form; otherwise
   * the analysis is requested, and a rejection by the service would show the
   * failure notice. Only a successful analysis replaces what is on screen.
   */
  function Submit(d: PassengerData, draws: Draws, previous: Option<AnalysisResult>): (s: Submission)
    ensures s.notice == IncompleteInformation <==> !RequiredFieldsFilled(d)
    ensures s.notice != AnalysisComplete ==> s.shown == previous
    ensures s.notice == AnalysisComplete ==> Analysis(d, draws).Ok? && s.shown == Some(Analysis(d, draws).value)
  {
    if !RequiredFieldsFilled(d) then Submission(IncompleteInformation, previous)
    else
      match Analysis(d, draws)
      case Ok(a) => Submission(AnalysisComplete, Some(a))
      case Err(_) => Submission(CalculationFailed, previous)
  }

  /** The form accepts exactly the records the service accepts. */
  lemma FormAgreesWithService(d: PassengerData, draws: Draws)
    ensures RequiredFieldsFilled(d) <==> Analysis(d, draws).Ok?
  {
  }

  /**
   * A submission that passes the form's check always shows the service's
   * analysis; one that does not leaves the earlier analysis on screen.
   */
  lemma SubmitNeverFails(d: PassengerData, draws: Draws, previous: Option<AnalysisResult>)
    ensures Submit(d, draws, previous).notice != CalculationFailed
    ensures Submit(d, draws, previous).notice == AnalysisComplete <==> !MissingRequired(d)
    ensures !MissingRequired(d) ==> Submit(d, draws, previous).shown == Some(Analysis(d, draws).value)
    ensures MissingRequired(d) ==> Submit(d, draws, previous).shown == previous
  {
    FormAgreesWithService(d, draws);
  }
}
