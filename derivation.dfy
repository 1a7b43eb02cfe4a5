/**
 * Feature derivation: the bucketing of age and fare, and the fixed feature
 * vector built from one passenger record.
 */
module Derivation {
  import opened Wrappers
  import opened Passengers
  import opened Titles

  datatype AgeGroup = Child | Adult | MiddleAge | Senior

  datatype FareGroup = Low | Medium | High | VeryHigh

  /** Age brackets, each closed below and open above. */
  function AgeGroupOf(age: real): (g: AgeGroup)
    ensures g == Child <==> age < 16.0
    ensures g == Adult <==> 16.0 <= age < 30.0
    ensures g == MiddleAge <==> 30.0 <= age < 60.0
    ensures g == Senior <==> 60.0 <= age
  {
    if age < 16.0 then Child
    else if age < 30.0 then Adult
    else if age < 60.0 then MiddleAge
    else Senior
  }

  /** Fare brackets, each open below and closed above. */
  function FareGroupOf(fare: real): (g: FareGroup)
    ensures g == Low <==> fare <= 7.91
    ensures g == Medium <==> 7.91 < fare <= 14.454
    ensures g == High <==> 14.454 < fare <= 31.0
    ensures g == VeryHigh <==> 31.0 < fare
  {
    if fare <= 7.91 then Low
    else if fare <= 14.454 then Medium
    else if fare <= 31.0 then High
    else VeryHigh
  }

  function AgeRank(g: AgeGroup): nat {
    match g
    case Child => 0
    case Adult => 1
    case MiddleAge => 2
    case Senior => 3
  }

  function FareRank(g: FareGroup): nat {
    match g
    case Low => 0
    case Medium => 1
    case High => 2
    case VeryHigh => 3
  }

  /** An older passenger is never put in a younger bracket. */
  lemma AgeGroupMonotone(a: real, b: real)
    requires a <= b
    ensures AgeRank(AgeGroupOf(a)) <= AgeRank(AgeGroupOf(b))
  {
  }

  /** A higher fare is never put in a cheaper bracket. */
  lemma FareGroupMonotone(a: real, b: real)
    requires a <= b
    ensures FareRank(FareGroupOf(a)) <= FareRank(FareGroupOf(b))
  {
  }

  // The one-hot groups of the feature vector, each with its columns in the
  // order the source lists them.

  datatype SexColumns = SexColumns(female: real, male: real)

  datatype PortColumns = PortColumns(c: real, q: real, s: real)

  datatype TitleColumns = TitleColumns(master: real, miss: real, mr: real, mrs: real, rare: real)

  datatype AgeColumns = AgeColumns(adult: real, child: real, middleAge: real, senior: real)

  datatype FareColumns = FareColumns(high: real, low: real, medium: real, veryHigh: real)

  datatype SexClassColumns = SexClassColumns(
    female1: real, female2: real, female3: real, male1: real, male2: real, male3: real)

  /**
   * The derived feature vector: the raw numbers, the derived numbers and the
   * six one-hot groups.
   */
  datatype Features = Features(
    pclass: real, age: real, sibsp: real, parch: real, fare: real,
    familySize: real, isAlone: real, isChild: real, hasCabin: real,
    sex: SexColumns, embarked: PortColumns, title: TitleColumns,
    ageGroup: AgeColumns, fareGroup: FareColumns, sexPclass: SexClassColumns)

  /** A 0/1 feature value. */
  function Indicator(b: bool): real {
    if b then 1.0 else 0.0
  }

  function SexColumnsOf(sex: Choice<Sex>): SexColumns {
    SexColumns(
      female := Indicator(sex == Known(Female)),
      male := Indicator(sex == Known(Male)))
  }

  function PortColumnsOf(port: Choice<Port>): PortColumns {
    PortColumns(
      c := Indicator(port == Known(Cherbourg)),
      q := Indicator(port == Known(Queenstown)),
      s := Indicator(port == Known(Southampton)))
  }

  function TitleColumnsOf(t: Title): TitleColumns {
    TitleColumns(
      master := Indicator(t == Master),
      miss := Indicator(t == Miss),
      mr := Indicator(t == Mr),
      mrs := Indicator(t == Mrs),
      rare := Indicator(t == Rare))
  }

  function AgeColumnsOf(g: AgeGroup): AgeColumns {
    AgeColumns(
      adult := Indicator(g == Adult),
      child := Indicator(g == Child),
      middleAge := Indicator(g == MiddleAge),
      senior := Indicator(g == Senior))
  }

  function FareColumnsOf(g: FareGroup): FareColumns {
    FareColumns(
      high := Indicator(g == High),
      low := Indicator(g == Low),
      medium := Indicator(g == Medium),
      veryHigh := Indicator(g == VeryHigh))
  }

  /** The sex-by-class interaction: the text "<sex>_<class>" matched against its six values. */
  function SexClassColumnsOf(sex: Choice<Sex>, pclass: int): SexClassColumns {
    var female := sex == Known(Female);
    var male := sex == Known(Male);
    SexClassColumns(
      female1 := Indicator(female && pclass == 1),
      female2 := Indicator(female && pclass == 2),
      female3 := Indicator(female && pclass == 3),
      male1 := Indicator(male && pclass == 1),
      male2 := Indicator(male && pclass == 2),
      male3 := Indicator(male && pclass == 3))
  }

  /** The feature vector of a passenger whose numeric entries are present. */
  function Preprocess(d: PassengerData): Features
    requires Parsed(d)
  {
    var age := d.age.value;
    var fare := d.fare.value;
    var pclass := d.pclass.value;
    var familySize := d.sibsp + d.parch + 1;
    Features(
      pclass := pclass as real,
      age := age,
      sibsp := d.sibsp as real,
      parch := d.parch as real,
      fare := fare,
      familySize := familySize as real,
      isAlone := Indicator(familySize == 1),
      isChild := Indicator(age < 16.0),
      hasCabin := Indicator(d.cabin),
      sex := SexColumnsOf(d.sex),
      embarked := PortColumnsOf(d.embarked),
      title := TitleColumnsOf(ExtractTitle(d.name)),
      ageGroup := AgeColumnsOf(AgeGroupOf(age)),
      fareGroup := FareColumnsOf(FareGroupOf(fare)),
      sexPclass := SexClassColumnsOf(d.sex, pclass))
  }

  /**
   * The raw numbers are copied unchanged; the family size counts the
   * passenger with both family counts; the derived flags are set exactly when
   * the passenger travels alone, is a child, has a cabin.
   */
  lemma PreprocessNumbers(d: PassengerData)
    requires Parsed(d)
    ensures var f := Preprocess(d);
      && f.pclass == d.pclass.value as real && f.age == d.age.value && f.fare == d.fare.value
      && f.sibsp == d.sibsp as real && f.parch == d.parch as real
      && f.familySize == (d.sibsp + d.parch + 1) as real
      && f.isAlone == Indicator(f.familySize == 1.0)
      && f.isChild == Indicator(AgeGroupOf(d.age.value) == Child)
      && f.hasCabin == Indicator(d.cabin)
  {
  }

  /** With non-negative family counts, a passenger is alone exactly when both counts are zero. */
  lemma AloneIffNoFamily(d: PassengerData)
    requires Parsed(d) && d.sibsp >= 0 && d.parch >= 0
    ensures Preprocess(d).isAlone == 1.0 <==> d.sibsp == 0 && d.parch == 0
    ensures Preprocess(d).isAlone == 0.0 <==> d.sibsp + d.parch > 0
  {
  }

  // The groups as sequences of indicators, for counting.

  function SexIndicators(c: SexColumns): seq<real> {
    [c.female, c.male]
  }

  function PortIndicators(c: PortColumns): seq<real> {
    [c.c, c.q, c.s]
  }

  function TitleIndicators(c: TitleColumns): seq<real> {
    [c.master, c.miss, c.mr, c.mrs, c.rare]
  }

  function AgeIndicators(c: AgeColumns): seq<real> {
    [c.adult, c.child, c.middleAge, c.senior]
  }

  function FareIndicators(c: FareColumns): seq<real> {
    [c.high, c.low, c.medium, c.veryHigh]
  }

  function SexClassIndicators(c: SexClassColumns): seq<real> {
    [c.female1, c.female2, c.female3, c.male1, c.male2, c.male3]
  }

  // The column each category occupies in its group.

  function SexColumn(s: Sex): nat {
    match s
    case Female => 0
    case Male => 1
  }

  function PortColumn(p: Port): nat {
    match p
    case Cherbourg => 0
    case Queenstown => 1
    case Southampton => 2
  }

  function TitleColumn(t: Title): nat {
    match t
    case Master => 0
    case Miss => 1
    case Mr => 2
    case Mrs => 3
    case Rare => 4
  }

  function AgeColumn(g: AgeGroup): nat {
    match g
    case Adult => 0
    case Child => 1
    case MiddleAge => 2
    case Senior => 3
  }

  function FareColumn(g: FareGroup): nat {
    match g
    case High => 0
    case Low => 1
    case Medium => 2
    case VeryHigh => 3
  }

  /** Column k holds 1 and every other column holds 0. */
  predicate HotAt(xs: seq<real>, k: nat) {
    k < |xs| && forall i :: 0 <= i < |xs| ==> xs[i] == if i == k then 1.0 else 0.0
  }

  predicate AllZero(xs: seq<real>) {
    forall i :: 0 <= i < |xs| ==> xs[i] == 0.0
  }

  /** The number of indicators of a group that are set. */
  function CountOnes(xs: seq<real>): nat {
    if xs == [] then 0
    else CountOnes(xs[..|xs| - 1]) + (if xs[|xs| - 1] == 1.0 then 1 else 0)
  }

  lemma {:induction false} AllZeroCountsNone(xs: seq<real>)
    requires AllZero(xs)
    ensures CountOnes(xs) == 0
  {
    if xs != [] {
      AllZeroCountsNone(xs[..|xs| - 1]);
    }
  }

  /** A group hot at one column has exactly one indicator set. */
  lemma {:induction false} HotAtCountsOne(xs: seq<real>, k: nat)
    requires HotAt(xs, k)
    ensures CountOnes(xs) == 1
  {
    var init := xs[..|xs| - 1];
    if k == |xs| - 1 {
      AllZeroCountsNone(init);
    } else {
      assert HotAt(init, k);
      HotAtCountsOne(init, k);
    }
  }

  // Each group sets the column of a known category and is all zero otherwise.

  lemma SexColumnsHot(sex: Choice<Sex>)
    ensures sex.Known? ==> HotAt(SexIndicators(SexColumnsOf(sex)), SexColumn(sex.value))
    ensures !sex.Known? ==> AllZero(SexIndicators(SexColumnsOf(sex)))
  {
  }

  lemma PortColumnsHot(port: Choice<Port>)
    ensures port.Known? ==> HotAt(PortIndicators(PortColumnsOf(port)), PortColumn(port.value))
    ensures !port.Known? ==> AllZero(PortIndicators(PortColumnsOf(port)))
  {
  }

  lemma TitleColumnsHot(t: Title)
    ensures HotAt(TitleIndicators(TitleColumnsOf(t)), TitleColumn(t))
  {
  }

  lemma AgeColumnsHot(g: AgeGroup)
    ensures HotAt(AgeIndicators(AgeColumnsOf(g)), AgeColumn(g))
  {
  }

  lemma FareColumnsHot(g: FareGroup)
    ensures HotAt(FareIndicators(FareColumnsOf(g)), FareColumn(g))
  {
  }

  /** Column 3 * sex + class - 1, when the sex is known and the class is 1, 2 or 3. */
  lemma SexClassColumnsHot(sex: Choice<Sex>, pclass: int)
    ensures sex.Known? && 1 <= pclass <= 3 ==>
      HotAt(SexClassIndicators(SexClassColumnsOf(sex, pclass)), 3 * SexColumn(sex.value) + pclass - 1)
    ensures !sex.Known? || !(1 <= pclass <= 3) ==> AllZero(SexClassIndicators(SexClassColumnsOf(sex, pclass)))
  {
  }

  /**
   * Exactly one indicator is set in each of the title, age and fare groups;
   * in the sex, port and sex-by-class groups exactly one is set when the
   * entries name known values, and every indicator is zero otherwise. Each
   * group is stated both as its pattern of columns and as its count.
   */
  lemma PreprocessOneHot(d: PassengerData)
    requires Parsed(d)
    ensures var f := Preprocess(d);
      && CountOnes(TitleIndicators(f.title)) == 1
      && CountOnes(AgeIndicators(f.ageGroup)) == 1
      && CountOnes(FareIndicators(f.fareGroup)) == 1
      && CountOnes(SexIndicators(f.sex)) == (if d.sex.Known? then 1 else 0)
      && CountOnes(PortIndicators(f.embarked)) == (if d.embarked.Known? then 1 else 0)
      && CountOnes(SexClassIndicators(f.sexPclass)) ==
         (if d.sex.Known? && 1 <= d.pclass.value <= 3 then 1 else 0)
    ensures var f := Preprocess(d);
      && HotAt(TitleIndicators(f.title), TitleColumn(ExtractTitle(d.name)))
      && HotAt(AgeIndicators(f.ageGroup), AgeColumn(AgeGroupOf(d.age.value)))
      && HotAt(FareIndicators(f.fareGroup), FareColumn(FareGroupOf(d.fare.value)))
      && (d.sex.Known? ==> HotAt(SexIndicators(f.sex), SexColumn(d.sex.value)))
      && (!d.sex.Known? ==> AllZero(SexIndicators(f.sex)))
      && (d.embarked.Known? ==> HotAt(PortIndicators(f.embarked), PortColumn(d.embarked.value)))
      && (!d.embarked.Known? ==> AllZero(PortIndicators(f.embarked)))
      && (d.sex.Known? && 1 <= d.pclass.value <= 3 ==>
            HotAt(SexClassIndicators(f.sexPclass), 3 * SexColumn(d.sex.value) + d.pclass.value - 1))
      && (!d.sex.Known? || !(1 <= d.pclass.value <= 3) ==> AllZero(SexClassIndicators(f.sexPclass)))
  {
    var f := Preprocess(d);
    TitleColumnsHot(ExtractTitle(d.name));
    HotAtCountsOne(TitleIndicators(f.title), TitleColumn(ExtractTitle(d.name)));
    AgeColumnsHot(AgeGroupOf(d.age.value));
    HotAtCountsOne(AgeIndicators(f.ageGroup), AgeColumn(AgeGroupOf(d.age.value)));
    FareColumnsHot(FareGroupOf(d.fare.value));
    HotAtCountsOne(FareIndicators(f.fareGroup), FareColumn(FareGroupOf(d.fare.value)));
    SexColumnsHot(d.sex);
    if d.sex.Known? {
      HotAtCountsOne(SexIndicators(f.sex), SexColumn(d.sex.value));
    } else {
      AllZeroCountsNone(SexIndicators(f.sex));
    }
    PortColumnsHot(d.embarked);
    if d.embarked.Known? {
      HotAtCountsOne(PortIndicators(f.embarked), PortColumn(d.embarked.value));
    } else {
      AllZeroCountsNone(PortIndicators(f.embarked));
    }
    SexClassColumnsHot(d.sex, d.pclass.value);
    if d.sex.Known? && 1 <= d.pclass.value <= 3 {
      HotAtCountsOne(SexClassIndicators(f.sexPclass), 3 * SexColumn(d.sex.value) + d.pclass.value - 1);
    } else {
      AllZeroCountsNone(SexClassIndicators(f.sexPclass));
    }
  }
}
