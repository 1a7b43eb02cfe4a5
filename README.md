# Titanic survival probability and what-if analysis, in Dafny

This project models the prediction service of the Titanic survival
calculator. It also models the two small pieces of logic in its passenger form.

**The service.** It takes a passenger record as entered: name, class, sex,
age, siblings or spouses aboard, parents or children aboard, fare, cabin flag
and port of embarkation. It works in four steps:

- **Validation.** A record with an empty mandatory entry is rejected with
  "Missing required passenger information".
- **Derivation.** The record becomes a feature vector. This includes:
  - the honorific found in the name, grouped into five title classes;
  - age and fare brackets;
  - family size and the alone, child and cabin flags;
  - one-hot columns for sex, port, title, brackets and the sex-by-class
    interaction.
- **Scoring.** Starting from 0.5, eight additive adjustments are applied; the
  result is clamped to [0, 1]. A random variance in [-0.05, 0.05) is added,
  and the result is clamped to [0.05, 0.95].
- **What-if analysis.** The base record is scored. Then five single-field
  changes are tried in a fixed order: female, first class, a child of ten,
  one sibling, a cabin. A change is tried only when it applies. It is reported
  as an entry when the rise exceeds 0.05. The entry writes the impact as a
  plus sign, the percentage with one decimal, and a percent sign.

**The form.** It checks the same six mandatory entries before requesting an
analysis. It shows a probability under one of three categories.

**Modules:**

- `Wrappers`: Option and Result.
- `Passengers`: the input record and the mandatory-entry check.
- `Titles`: the whole-word, case-insensitive honorific search.
- `Derivation`: brackets, feature vector and one-hot properties.
- `Scoring`: adjustments, clamps and the step-by-step scoring method.
- `ImpactFormat`: one-decimal rendering of the impact and its read-back.
- `PredictionService`: prediction, the analysis method and its specification
  function.
- `WhatIf`: properties of the entry list, and consequences of the formulas when
  every score uses the same draw.
- `WorkedExample`: the example passenger "Mr. John Smith".
- `SurvivalForm`: the category of a probability, and submission.

**Randomness.** Every call of the random generator in scoring becomes an
explicit draw of type `Noise`, a real in [0, 1). The draw 0.5 adds no
variance: it is what "noise fixed at zero" means. The analysis takes one draw
for the base score and one per change (`Draws`).

**The family change under unequal draws.** In exact arithmetic, with the same
draw everywhere, the family change never clears the threshold. It raises the
raw score by exactly 0.05, and the clamps never widen a gap. See
`WhatIf.FamilyImpactAtMostThreshold` and `WhatIf.NoFamilyEntryUnderSameDraw`.
With the independent draws the code actually makes, it can be reported.
`WorkedExample.FamilyReportedUnderUnequalDraws` exhibits such a case:

- the passenger is a second-class Mr. Smith;
- the base draw is 0 and the family draw is 0.9;
- the result is a Family Status entry of `+14.0%`.

So, in exact arithmetic, "Family Status is never reported" holds only with the
variance switched off.

## Model

| member | source | states |
|---|---|---|
| Passengers.MissingRequired | src/services/predictionService.ts:213-216 | true exactly when name, class, sex, age, fare or port is empty; the cabin flag and the family counts are never checked (stated through Predict, AnalyzeSurvival and FormAgreesWithService) |
| Titles.Vocabulary | src/services/predictionService.ts:39 | the eighteen alternatives of the pattern, in the pattern's order, lower-cased, none empty (FirstAlternative, NoMatchAtEnd, TitleOfAlternativeWords) |
| Titles.IsWordChar | src/services/predictionService.ts:39 | the class `\w`: ASCII letters, digits and the underscore (WordCharUpToCase) |
| Titles.ToLower | src/services/predictionService.ts:39 | case folding of the `i` flag: an ASCII capital folds onto its lower-case letter (code point plus 32), every other character stays as it is |
| Titles.IsBoundary | src/services/predictionService.ts:39 | `\b`: a word character on exactly one side of the position (NoMatchWithoutBoundary, BoundaryUpToCase, MrsExample) |
| Titles.FoldedAt | src/services/predictionService.ts:39 | one alternative matched letter by letter after case folding, as the `i` flag does (FoldedAtUpToCase) |
| Titles.MatchesAt | src/services/predictionService.ts:39 | the pattern `\b(alternative)\b` matching at a position (FirstAlternative, MatchesAtUpToCase) |
| Titles.NoMatchAt | src/services/predictionService.ts:39 | no alternative matches at a position (NoMatchWithoutBoundary, NoMatchAtEnd, NoMatchAtUpToCase) |
| Titles.NoMatchFrom | src/services/predictionService.ts:39-40 | the regular expression finds nothing from a position on (Search, NoMatchExtends, DonaldHasNoWord) |
| Titles.IsFirstMatch | src/services/predictionService.ts:39-41 | the match the regular expression reports, defined independently of the scan: the leftmost position, then the first alternative there (Search, ExtractTitleIsFirstMatch, FirstMatchUnique) |
| Titles.FirstAlternative | src/services/predictionService.ts:39 | the first alternative of the pattern, in pattern order, that matches as a whole word at a position; none when no later one matches |
| Titles.Search | src/services/predictionService.ts:39 | the reported match is the leftmost position with a whole-word match and the first alternative there; no result only when nothing matches anywhere |
| Titles.ExtractTitle | src/services/predictionService.ts:38-50 | the title class of the first whole-word match, mr when none (ExtractTitleIsFirstMatch, ExtractTitleUpToCase) |
| Titles.TitleOfAlternative | src/services/predictionService.ts:41-47 | the grouping of the matched alternative into the five classes (TitleOfAlternativeWords) |
| Titles.TitleOfAlternativeWords | src/services/predictionService.ts:41-47 | mlle/ms and miss give miss; mme/lady/countess/dona and mrs give mrs; capt/col/major/dr/rev/sir/don/jonkheer give rare; mr and master stand for themselves |
| Titles.ExtractTitleIsFirstMatch | src/services/predictionService.ts:38-50 | the title is the class of the first match the regular expression reports, and mr when nothing matches |
| Titles.FirstMatchExtends | src/services/predictionService.ts:39 | a first match from one position on is still first when the scan starts one position earlier with no match there |
| Titles.NoMatchExtends | src/services/predictionService.ts:39 | no match from a position on extends to the position before when nothing matches there |
| Titles.MatchRefutesNoMatch | src/services/predictionService.ts:39 | a whole-word match at a position refutes "no match" there and from any earlier start |
| Titles.NoMatchHasNoFirst | src/services/predictionService.ts:39 | with no match at all there is no first match |
| Titles.FirstMatchUnique | src/services/predictionService.ts:39 | the first match is unique in position and alternative |
| Titles.WordCharUpToCase | src/services/predictionService.ts:39 | characters that fold alike are both word characters or neither |
| Titles.BoundaryUpToCase | src/services/predictionService.ts:39 | texts equal once folded have word boundaries at the same positions |
| Titles.FoldedAtUpToCase | src/services/predictionService.ts:39 | texts equal once folded each start with a given alternative at the same positions, or both do not |
| Titles.MatchesAtUpToCase | src/services/predictionService.ts:39 | texts equal once folded have the same whole-word matches |
| Titles.NoMatchAtUpToCase | src/services/predictionService.ts:39 | texts equal once folded lack a match at the same positions |
| Titles.FirstMatchUpToCase | src/services/predictionService.ts:39 | the first match of a text is the first match of every text equal to it once folded |
| Titles.ExtractTitleUpToCase | src/services/predictionService.ts:38-50 | the search ignores case: any two names equal once folded get the same title |
| Titles.MrsExample | src/services/predictionService.ts:39-47 | "MRS. Smith" is mrs: the earlier alternative "mr" is not followed by a word boundary |
| Titles.DonaldAlternatives | src/services/predictionService.ts:39 | no alternative is a whole word at the start of "Donald" |
| Titles.NoMatchWithoutBoundary | src/services/predictionService.ts:39 | nothing matches where no word boundary is |
| Titles.NoMatchAtEnd | src/services/predictionService.ts:39 | nothing matches at the end of a text, since no alternative is empty |
| Titles.DonaldHasNoWord | src/services/predictionService.ts:39 | no alternative occurs as a whole word anywhere in "Donald" |
| Titles.DonaldExample | src/services/predictionService.ts:38-50 | "Donald" does not match "Don" or "Dona" and falls back to mr |
| Derivation.AgeGroupOf | src/services/predictionService.ts:53-58 | child iff under 16, adult iff in [16, 30), middle age iff in [30, 60), senior iff 60 or more |
| Derivation.FareGroupOf | src/services/predictionService.ts:61-66 | low iff at most 7.91, medium iff in (7.91, 14.454], high iff in (14.454, 31], very high iff above 31 |
| Derivation.Preprocess | src/services/predictionService.ts:69-140 | the feature vector of a record: numbers, derived flags and one-hot columns (PreprocessNumbers, PreprocessOneHot) |
| Derivation.Indicator | src/services/predictionService.ts:103-136 | the `? 1 : 0` of each one-hot column (the *ColumnsHot lemmas) |
| Derivation.SexColumnsOf | src/services/predictionService.ts:103-104 | the sex columns (SexColumnsHot, PreprocessOneHot) |
| Derivation.PortColumnsOf | src/services/predictionService.ts:107-109 | the port columns (PortColumnsHot, PreprocessOneHot) |
| Derivation.TitleColumnsOf | src/services/predictionService.ts:112-116 | the title columns (TitleColumnsHot, PreprocessOneHot) |
| Derivation.AgeColumnsOf | src/services/predictionService.ts:119-122 | the age bracket columns (AgeColumnsHot, PreprocessOneHot) |
| Derivation.FareColumnsOf | src/services/predictionService.ts:125-128 | the fare bracket columns (FareColumnsHot, PreprocessOneHot) |
| Derivation.SexClassColumnsOf | src/services/predictionService.ts:131-136 | the sex-by-class columns, the text of line 82 compared with its six values (SexClassColumnsHot, PreprocessOneHot) |
| Derivation.AgeGroupMonotone | src/services/predictionService.ts:53-58 | an older passenger never falls in a younger bracket |
| Derivation.FareGroupMonotone | src/services/predictionService.ts:61-66 | a higher fare never falls in a cheaper bracket |
| Derivation.PreprocessNumbers | src/services/predictionService.ts:70-99 | the raw numbers are copied; family size is siblings plus parents plus one; alone iff family size 1; child iff in the child bracket; cabin flag copied |
| Derivation.AloneIffNoFamily | src/services/predictionService.ts:77-78 | with non-negative counts, alone exactly when both family counts are zero |
| Derivation.AllZeroCountsNone | src/services/predictionService.ts:101-136 | a group of indicators all zero has none set |
| Derivation.HotAtCountsOne | src/services/predictionService.ts:101-136 | a group hot at one column has exactly one indicator set |
| Derivation.SexColumnsHot | src/services/predictionService.ts:103-104 | a known sex sets exactly its column; any other entry sets none |
| Derivation.PortColumnsHot | src/services/predictionService.ts:107-109 | a known port sets exactly its column; any other entry sets none |
| Derivation.TitleColumnsHot | src/services/predictionService.ts:112-116 | a title sets exactly its column |
| Derivation.AgeColumnsHot | src/services/predictionService.ts:119-122 | an age bracket sets exactly its column |
| Derivation.FareColumnsHot | src/services/predictionService.ts:125-128 | a fare bracket sets exactly its column |
| Derivation.SexClassColumnsHot | src/services/predictionService.ts:131-136 | a known sex with class 1, 2 or 3 sets exactly the column for that pair; otherwise no column is set |
| Derivation.PreprocessOneHot | src/services/predictionService.ts:101-136 | in the feature vector itself: the title, age and fare groups each have exactly their category's column at 1 and all others at 0; the sex, port and sex-by-class groups have exactly their column at 1 when the entries are known values (class 1 to 3), and every column at 0 otherwise; the counts of set indicators follow |
| Scoring.Max | src/services/predictionService.ts:201 | `Math.max` on two reals (Clamp) |
| Scoring.Min | src/services/predictionService.ts:201 | `Math.min` on two reals (Clamp) |
| Scoring.Clamp | src/services/predictionService.ts:201 | the clamped value lies within the bounds, equals the input inside them and the nearer bound outside |
| Scoring.SexAdjustment | src/services/predictionService.ts:146-151 | +0.4 for a woman, -0.3 otherwise (RawScore, GenderGain) |
| Scoring.ClassAdjustment | src/services/predictionService.ts:153-158 | +0.2 for the first class, -0.15 for the third, 0 otherwise (RawScore, ClassGain) |
| Scoring.AgeAdjustment | src/services/predictionService.ts:160-165 | +0.15 for a child, -0.1 for a senior, 0 otherwise (RawScore, AgeGain, AgeOnlyThroughGroup) |
| Scoring.FamilyAdjustment | src/services/predictionService.ts:167-172 | -0.05 alone, -0.1 in a family above four, 0 otherwise (RawScore, FamilyRawGain) |
| Scoring.CabinAdjustment | src/services/predictionService.ts:174-177 | +0.1 with a cabin (RawScore, CabinRawGain) |
| Scoring.FareAdjustment | src/services/predictionService.ts:179-184 | +0.05 for a very high fare, -0.05 for a low one (RawScore, FareOnlyThroughGroup) |
| Scoring.TitleAdjustment | src/services/predictionService.ts:186-191 | +0.1 for master, +0.05 for mrs (RawScore, NameOnlyThroughTitle) |
| Scoring.InteractionAdjustment | src/services/predictionService.ts:193-198 | +0.1 for a first-class woman, -0.15 for a third-class man (RawScore, GenderGain, ClassGain) |
| Scoring.RawScore | src/services/predictionService.ts:144-198 | 0.5 plus the eight adjustments lies in [-0.35, 1.6] |
| Scoring.Variance | src/services/predictionService.ts:204 | the variance of a draw lies in [-0.05, 0.05) |
| Scoring.Score | src/services/predictionService.ts:200-205 | the probability always lies in [0.05, 0.95] |
| Scoring.CalculateSurvivalProbability | src/services/predictionService.ts:143-208 | the step-by-step accumulation and the two clamps compute the specified score, which lies in [0.05, 0.95] |
| Scoring.PassengerScore | src/services/predictionService.ts:250-251 | preprocess, then score with one draw, as each of the six scorings does (CalculateSurvivalProbability, SameScoredFeaturesSameScore, PortIrrelevant) |
| Scoring.VarianceIsSmall | src/services/predictionService.ts:203-205 | the variance moves the probability at most 0.05 away from the first clamp's value |
| Scoring.MidNoiseScore | src/services/predictionService.ts:204-205 | with no variance the probability is the raw score clamped to [0, 1] then to [0.05, 0.95] |
| Scoring.ScoreMonotone | src/services/predictionService.ts:200-205 | a higher raw score never gives a lower probability under the same draw |
| Scoring.ScoreNonExpansive | src/services/predictionService.ts:200-205 | the probability rises by no more than the raw score does |
| Scoring.SameScoredFeaturesSameScore | src/services/predictionService.ts:143-198 | the score reads only the thirteen features the adjustments test |
| Scoring.PortIrrelevant | src/services/predictionService.ts:106-109 | the port of embarkation never changes the probability |
| Scoring.AgeOnlyThroughGroup | src/services/predictionService.ts:160-165 | two ages in the same bracket give the same probability |
| Scoring.FareOnlyThroughGroup | src/services/predictionService.ts:179-184 | two fares in the same bracket give the same probability |
| Scoring.NameOnlyThroughTitle | src/services/predictionService.ts:186-191 | two names with the same title class give the same probability |
| ImpactFormat.DigitChar | src/services/predictionService.ts:265 | a digit value below ten is written as a digit character |
| ImpactFormat.DigitValue | src/services/predictionService.ts:265 | a digit character reads back as the value that writes it |
| ImpactFormat.DecimalDigits | src/services/predictionService.ts:265 | a numeral is non-empty, all digits, with no leading zero |
| ImpactFormat.DecimalDigitsRoundTrip | src/services/predictionService.ts:265 | reading a numeral back gives the number written |
| ImpactFormat.RoundTenths | src/services/predictionService.ts:265 | the tenths written are within half a tenth of the value, the upper one on a tie |
| ImpactFormat.RoundTenthsClosest | src/services/predictionService.ts:265 | no other number of tenths is closer to the value |
| ImpactFormat.TenthsTextRoundTrip | src/services/predictionService.ts:265 | a one-decimal text reads back as the tenths it writes |
| ImpactFormat.ToFixed1 | src/services/predictionService.ts:265 | one-decimal rendering of toFixed(1), rounding to the nearest tenth, ties up (RoundTenths, RoundTenthsClosest, TenthsTextRoundTrip) |
| ImpactFormat.FormatImpact | src/services/predictionService.ts:265 | the impact text: plus sign, percentage with one decimal, percent sign (FormatImpactReadBack, WhatIf.FormatImpactSigns) |
| ImpactFormat.FormatImpactReadBack | src/services/predictionService.ts:265 | an impact text is a plus sign, digits, a point, one digit and a percent sign whose number is the impact in percent to the nearest tenth |
| PredictionService.Rank | src/services/predictionService.ts:255-331 | the position of each change's block in the analysis (WhatIf.FactorsInOrder, WhatIf.EntriesOrdered) |
| PredictionService.FactorName | src/services/predictionService.ts:263-326 | the factor texts of the five pushed entries (FactorNamedInverse, WhatIf.EntriesDistinct) |
| PredictionService.ChangeTo | src/services/predictionService.ts:264-327 | the change texts of the five pushed entries (WhatIf.EntriesSound, WorkedExample.ReportedTexts) |
| PredictionService.FactorNamed | src/services/predictionService.ts:263-326 | a factor name read back names the factor written |
| PredictionService.FactorNamedInverse | src/services/predictionService.ts:263-326 | the five factor names are read back as their factors |
| PredictionService.Counterfactual | src/services/predictionService.ts:257-320 | each change keeps the numeric entries present |
| PredictionService.Entries | src/services/predictionService.ts:253-331 | one entry per finding |
| PredictionService.EntriesConcat | src/services/predictionService.ts:253-331 | the entries of two lists of findings are the entries of each, concatenated |
| PredictionService.EntriesAt | src/services/predictionService.ts:253-331 | entry i renders finding i |
| PredictionService.Applies | src/services/predictionService.ts:256-319 | the guards of the five blocks at lines 256, 271, 287, 304 and 319: a man, not first class, age 16 or more, no relatives aboard, no cabin (TryChange, EntriesSound, EntriesComplete) |
| PredictionService.Prediction | src/services/predictionService.ts:211-235 | the outcome of a prediction under one draw: the error for a missing entry, else the score (Predict) |
| PredictionService.Analysis | src/services/predictionService.ts:238-342 | the outcome of an analysis: the error for a missing entry, else base, accuracy 0.8324 and the entries of the qualifying changes (AnalyzeSurvival, WhatIf.EntriesSound, WhatIf.EntriesComplete, WhatIf.EntriesOrdered) |
| PredictionService.DrawFor | src/services/predictionService.ts:259-322 | the draw each block's scoring consumes (WhatIf.SameDraw, WhatIf.ChangeNeverLowers) |
| PredictionService.Impact | src/services/predictionService.ts:258-323 | `variant - base` of lines 260, 275, 291, 308 and 323 (WhatIf.ChangeNeverLowers, WhatIf.GenderImpactOverThreshold, WhatIf.FamilyImpactAtMostThreshold) |
| PredictionService.ImpactFor | src/services/predictionService.ts:260-323 | the impact of one change among the five (AnalysisOfImpacts, WhatIf.AnalysisReports) |
| PredictionService.ImpactsOf | src/services/predictionService.ts:255-331 | the five impacts under the given draws (AnalysisOfImpacts, WhatIf.AnalysisReports) |
| PredictionService.Attempt | src/services/predictionService.ts:256-331 | a finding exactly when the change applies and its impact exceeds 0.05 (WhatIf.SuggestionsLast, WhatIf.FindingsSound, WhatIf.FindingsComplete) |
| PredictionService.Suggestions | src/services/predictionService.ts:253-331 | the findings in the order of the pushes (SuggestionsStep, SuggestionsOfFive, WhatIf.FindingsOrdered) |
| PredictionService.EntryOf | src/services/predictionService.ts:262-329 | the object literal each block pushes: factor, change and impact text (WhatIf.EntriesSound, WorkedExample.ReportedTexts, WorkedExample.FamilyText) |
| PredictionService.Predict | src/services/predictionService.ts:211-235 | rejects exactly the records with a missing mandatory entry, and otherwise returns the score, which lies in [0.05, 0.95] |
| PredictionService.TryChange | src/services/predictionService.ts:255-331 | one guarded block: scores the changed record and pushes its entry exactly when the change applies and its impact exceeds 0.05 |
| PredictionService.AnalyzeSurvival | src/services/predictionService.ts:238-342 | rejects exactly the records with a missing mandatory entry; otherwise returns the analysis the specification function defines, with a base probability in [0.05, 0.95] |
| PredictionService.SuggestionsStep | src/services/predictionService.ts:253-331 | trying one more change appends its finding, if any |
| PredictionService.SuggestionsOfFive | src/services/predictionService.ts:253-331 | the findings of five changes are the five attempts concatenated in order |
| PredictionService.AnalysisOfImpacts | src/services/predictionService.ts:250-337 | with the base probability and the five impacts named, the analysis is the entries of their findings, with accuracy 0.8324 |
| PredictionService.EntriesOfAllFactors | src/services/predictionService.ts:253-337 | the entries of an analysis are those of the five blocks, in block order |
| PredictionService.EntriesOfFive | src/services/predictionService.ts:253-331 | entries distribute over the concatenation of five lists |
| WhatIf.FactorsInOrder | src/services/predictionService.ts:255-331 | the five changes are tried once each, in rank order |
| WhatIf.SuggestionsLast | src/services/predictionService.ts:253-331 | the last change tried contributes its finding at the end exactly when it qualifies |
| WhatIf.FindingsBound | src/services/predictionService.ts:253-331 | at most one finding per change tried |
| WhatIf.FindingsSound | src/services/predictionService.ts:255-331 | every finding is of a change tried that applies, carrying that change's impact, which exceeds the threshold |
| WhatIf.FindingsOrdered | src/services/predictionService.ts:253-331 | findings follow the order of the changes tried |
| WhatIf.FindingsComplete | src/services/predictionService.ts:255-331 | every change tried that applies with an impact over the threshold has its finding |
| WhatIf.FormatImpactSigns | src/services/predictionService.ts:265 | every impact text starts with a plus sign and ends with a percent sign |
| WhatIf.AllFactorsTried | src/services/predictionService.ts:255-331 | each of the five changes is among those tried |
| WhatIf.EntriesSound | src/services/predictionService.ts:255-331 | each entry names a change that applies with an impact over 0.05, carries its texts and impact, and its impact text starts with "+" |
| WhatIf.EntriesOrdered | src/services/predictionService.ts:253-337 | at most five entries, in the order Gender, Passenger Class, Age, Family Status, Cabin |
| WhatIf.EntryNamed | src/services/predictionService.ts:263-326 | an entry's factor name reads back as its finding's factor |
| WhatIf.EntriesDistinct | src/services/predictionService.ts:253-337 | no factor is named by two entries |
| WhatIf.EntriesComplete | src/services/predictionService.ts:255-331 | a change that applies with an impact over 0.05 has its entry |
| WhatIf.AnalysisReports | src/services/predictionService.ts:238-337 | for any draws, the analysis of a complete record contains the entry of every change that applies with an impact over 0.05 |
| WhatIf.GenderGain | src/services/predictionService.ts:146-198 | making a man a woman raises the raw score by at least 0.7; a man's raw score is at most 0.8 |
| WhatIf.ClassGain | src/services/predictionService.ts:153-198 | moving to the first class raises the raw score by at least 0.2 |
| WhatIf.AgeGain | src/services/predictionService.ts:160-165 | becoming a child of ten raises the raw score by at least 0.15 |
| WhatIf.FamilyFeatures | src/services/predictionService.ts:77-78 | one sibling for a passenger alone changes only the sibling count, family size and alone flag |
| WhatIf.FamilyRawGain | src/services/predictionService.ts:167-172 | leaving the alone bracket for a family of two is worth exactly 0.05 |
| WhatIf.FamilyGain | src/services/predictionService.ts:301-308 | the family change raises the raw score by exactly 0.05 |
| WhatIf.CabinFeatures | src/services/predictionService.ts:80 | taking a cabin changes only the cabin feature |
| WhatIf.CabinRawGain | src/services/predictionService.ts:174-177 | the cabin feature is worth exactly 0.1 |
| WhatIf.CabinGain | src/services/predictionService.ts:318-323 | the cabin change raises the raw score by exactly 0.1 |
| WhatIf.ChangeNeverLowers | src/services/predictionService.ts:253-331 | with equal draws no change tried lowers the probability; every impact is non-negative |
| WhatIf.FamilyImpactAtMostThreshold | src/services/predictionService.ts:301-316 | with equal draws the family change's impact is at most 0.05 |
| WhatIf.ClampedGap | src/services/predictionService.ts:200-205 | a raw gain of 0.7 from a raw score of at most 0.8 still leaves a gap above 0.05 after both clamps |
| WhatIf.GenderImpactOverThreshold | src/services/predictionService.ts:255-261 | with equal draws the gender change's impact exceeds 0.05 |
| WhatIf.NoEntryUnlessQualifies | src/services/predictionService.ts:255-331 | a change that does not qualify has no entry |
| WhatIf.NoFamilyEntryUnderSameDraw | src/services/predictionService.ts:301-316 | with equal draws no entry names Family Status |
| WhatIf.GenderEntryFirst | src/services/predictionService.ts:255-268 | when the gender change qualifies, its entry comes first |
| WhatIf.OnlyFirstEntryIsGender | src/services/predictionService.ts:253-331 | no entry after the first names Gender |
| WhatIf.GenderEntryFirstForMen | src/services/predictionService.ts:255-268 | with equal draws, the analysis of a man always starts with the Gender / Female entry |
| WorkedExample.SmithTitle | src/services/predictionService.ts:38-49 | "Mr. John Smith" has the title mr |
| WorkedExample.SmithIsLikeSmith | src/components/TitanicForm.tsx:116 | the record of the form's placeholder name, with sex and port read from the texts "male" and "S", has the attributes the lemmas below assume |
| WorkedExample.BaseRawScore | src/services/predictionService.ts:144-198 | a third-class man of thirty, alone, fare 8, no cabin, titled mr, has raw score -0.15 |
| WorkedExample.BaseScore | src/services/predictionService.ts:200-205 | with no variance his probability is 0.05 |
| WorkedExample.GenderScore | src/services/predictionService.ts:255-260 | the gender change raises it by 0.65 |
| WorkedExample.ClassScore | src/services/predictionService.ts:270-275 | the class change raises it by 0.3 |
| WorkedExample.AgeRawScore | src/services/predictionService.ts:160-163 | as a child of ten his raw score is 0 |
| WorkedExample.AgeScore | src/services/predictionService.ts:285-291 | the age change raises the probability by nothing |
| WorkedExample.FamilyScore | src/services/predictionService.ts:301-308 | the family change raises the probability by nothing |
| WorkedExample.CabinScore | src/services/predictionService.ts:318-323 | the cabin change raises the probability by nothing |
| WorkedExample.PercentTexts | src/services/predictionService.ts:265 | impacts 0.65 and 0.3 are written "+65.0%" and "+30.0%" |
| WorkedExample.ReportedFindings | src/services/predictionService.ts:255-331 | only the gender and class changes clear the threshold |
| WorkedExample.ReportedTexts | src/services/predictionService.ts:262-281 | their entries carry the factor names, changes and impact texts |
| WorkedExample.ReportedEntries | src/services/predictionService.ts:253-331 | the entries are Gender / Female / "+65.0%" then Passenger Class / 1st Class / "+30.0%" |
| WorkedExample.SmithLikeAnalysis | src/services/predictionService.ts:238-337 | every such passenger gets base 0.05, accuracy 0.8324 and exactly those two entries |
| WorkedExample.SmithAnalysis | src/services/predictionService.ts:238-337 | Mr. John Smith himself gets that analysis |
| WorkedExample.SecondClassRawScore | src/services/predictionService.ts:144-198 | the same man in the second class has raw score 0.15 |
| WorkedExample.SecondClassBaseScore | src/services/predictionService.ts:200-205 | with the lowest draw his probability is 0.1 |
| WorkedExample.SecondClassFamilyImpact | src/services/predictionService.ts:301-308 | with draw 0.9 for the family change its impact is 0.14 |
| WorkedExample.FamilyText | src/services/predictionService.ts:310-314 | that impact's entry is Family Status / Traveling with family / "+14.0%" |
| WorkedExample.FamilyReportedUnderUnequalDraws | src/services/predictionService.ts:301-316 | with unequal draws the analysis does report the family change |
| SurvivalForm.GetSurvivalCategory | src/components/TitanicForm.tsx:71-79 | success iff above 0.75, warning iff in [0.35, 0.75], destructive iff below 0.35, each with its label |
| SurvivalForm.CategoryMonotone | src/components/TitanicForm.tsx:71-79 | a higher probability never shows a lower category |
| SurvivalForm.CategoriesWithinServiceRange | src/components/TitanicForm.tsx:71-79 | all three categories occur within the service's range [0.05, 0.95] |
| SurvivalForm.RequiredFieldsFilled | src/components/TitanicForm.tsx:42 | the form's check that all six mandatory entries are filled (FormAgreesWithService, Submit) |
| SurvivalForm.Submit | src/components/TitanicForm.tsx:42-67 | a submission stops at the form exactly when a mandatory entry is empty; only a completed analysis replaces the analysis on screen, every other path leaves the earlier one shown |
| SurvivalForm.FormAgreesWithService | src/components/TitanicForm.tsx:42 | the form's check accepts exactly the records the service accepts |
| SurvivalForm.SubmitNeverFails | src/components/TitanicForm.tsx:42-67 | a submission never ends in the failure notice; with no mandatory entry missing it shows the service's analysis, otherwise the earlier one stays on screen |

## Left out

- Simulated latency: the `setTimeout` delays and their random jitter
  (src/services/predictionService.ts:219, 246) carry no computation.
- The random generator itself. Each call becomes a draw passed in. The draws
  of an analysis are named per change rather than consumed in sequence. The
  delays' draws are not counted.
- IEEE-754 arithmetic. Scores are exact reals, so sums such as 0.5 - 0.3 have
  no rounding error. The rendering of `toFixed(1)` rounds the exact real half
  up; the exponential form for numbers of 1e21 and above is not modelled.
  A raw gain of exactly 0.05 can round above the threshold in doubles. An
  example is a second-class woman titled Miss, adult, alone, with a medium
  fare and no cabin, with every draw 0.5: her scores are 0.85 and 0.9, and
  their double difference exceeds 0.05. So WhatIf.FamilyImpactAtMostThreshold and
  WhatIf.NoFamilyEntryUnderSameDraw hold for exact reals only.
- `parseFloat` and `parseInt`. Numeric entries arrive parsed (`Entry`), and a
  blank entry is `Blank`. NaN and partial parses are not modelled.
- Texts of the class (`'1'`, `' 1'`, `'1.0'`) are not told apart. The class
  block's guard compares the text with `'1'`; the model compares the parsed
  value with 1.
- The family counts are integers and cannot be blank. A blank count would
  parse to NaN in the source.
- Sex and port texts are abstracted to `Choice` (empty, a known code, other),
  the distinctions the service draws. `SexEntry` and `PortEntry` give the
  reading.
- Derivation.AloneIffNoFamily: requires non-negative family counts, which the
  source does not check. With negative counts that sum to zero, the passenger
  is alone while the counts are not zero.
- The `try`/`catch` re-throw as a generic failure and `console.error`
  (src/services/predictionService.ts:231-234, 338-341). With parsed entries
  nothing in the computation can throw. The only error case is the missing
  entry.
- The form's React state, toasts, loading flag and rendering. `Submit` models
  only the outcome of `handleSubmit`: the notice chosen and the result shown.
- src/pages/Index.tsx and src/components/Header.tsx (layout only).
- PredictionService.ErrorMessage: documentation only. It gives the text of
  the validation error, but no member relates it to anything, because the
  model returns the error value and no code reads the text.
- PredictionService.TryChange: the five guarded blocks of the analysis are one
  method called five times with the change as a parameter. Its entry is built
  through a `Finding` and `EntryOf`, with the same texts as each block.
