/**
 * The respondent profile and the threshold classifiers of the rating engine: the BMI
 * table scan, waist and waist/hip-ratio status, blood pressure, glucose, cholesterol
 * and the smoking index, each with the 0/1 score it contributes.
 */
module Medical {
  import opened Options

  /**
   * The profile's gender: 'M', 'F', any other non-blank value the database holds (the
   * form offers only 'M' and 'F', but nothing below the form rejects another letter),
   * or left empty (None or blank).
   */
  datatype Gender = Male | Female | Other | Unset

  datatype Profile = Profile(gender: Gender, height: Option<real>, weight: Option<real>)

  /** The fixed advisory texts, named rather than spelled out. */
  datatype Description =
    | RiskReduced                // "the risk of concomitant diseases is reduced"
    | OvernutritionRisk          // raised risk of diseases of overnutrition
    | ObesityRisk                // high risk: hypertension, diabetes, gallstones, ...
    | UndernutritionRaisedRisk   // raised risk of diseases of undernutrition
    | UndernutritionHighRisk     // high risk: protein-energy deficiency, infections, ...
    | NoCalculationData          // "data for the calculation are missing"
    | NoAssessmentData           // "data for the risk assessment are missing"
    | MetabolicRaisedRisk        // raised risk of metabolic disorders
    | MetabolicHighRisk          // high risk of metabolic disorders

  // ---------------------------------------------------------------- BMI

  /** One row of the BMI table: inclusive range [lo, hi] (no upper bound when hi is None). */
  datatype BmiCategory = BmiCategory(name: string, riskLevel: string, description: Description,
                                     lo: real, hi: Option<real>)

  const NormalBmi: string := "Нормальный ИМТ"
  const NotComputed: string := "Не рассчитан"

  /** The BMI table in the rating engine's order (the normal row first, the malnutrition rows last). */
  const BmiCategories: seq<BmiCategory> := [
    BmiCategory(NormalBmi, "Риск снижен", RiskReduced, 18.5, Some(24.9)),
    BmiCategory("Избыточная масса тела", "Повышенный риск заболеваний", OvernutritionRisk, 25.0, Some(29.9)),
    BmiCategory("Ожирение I ст.", "Высокий риск заболеваний", ObesityRisk, 30.0, Some(34.9)),
    BmiCategory("Ожирение II ст.", "Очень высокий риск заболеваний", ObesityRisk, 35.0, Some(39.9)),
    BmiCategory("Ожирение III ст.", "Крайне высокий риск заболеваний", ObesityRisk, 40.0, None),
    BmiCategory("Недостаточность питания I ст.", "Повышенный риск", UndernutritionRaisedRisk, 17.0, Some(18.49)),
    BmiCategory("Недостаточность питания II ст.", "Высокий риск", UndernutritionHighRisk, 16.0, Some(16.9)),
    BmiCategory("Недостаточность питания III ст.", "Критический риск", UndernutritionHighRisk, 0.0, Some(15.9))
  ]

  predicate Matches(row: BmiCategory, x: real) {
    row.lo <= x && (row.hi.None? || x <= row.hi.value)
  }

  /** Index of the first row at or after `from` whose range contains `x`. */
  function FirstMatch(x: real, from: nat): (r: Option<nat>)
    requires from <= |BmiCategories|
    ensures r.Some? ==> from <= r.value < |BmiCategories| && Matches(BmiCategories[r.value], x)
                        && forall j :: from <= j < r.value ==> !Matches(BmiCategories[j], x)
    ensures r.None? ==> forall j :: from <= j < |BmiCategories| ==> !Matches(BmiCategories[j], x)
    decreases |BmiCategories| - from
  {
    if from == |BmiCategories| then None
    else if Matches(BmiCategories[from], x) then Some(from)
    else FirstMatch(x, from + 1)
  }

  /** What the BMI calculation reports: value, category name, risk level and description. */
  datatype BmiData = BmiData(value: Option<real>, category: string, riskLevel: string,
                             riskDescription: Description)

  const BmiNotComputed: BmiData := BmiData(None, NotComputed, "Не определен", NoCalculationData)

  /** Height and weight are both present and positive. */
  predicate HasBodyMeasures(p: Profile) {
    p.height.Some? && p.weight.Some? && p.height.value > 0.0 && p.weight.value > 0.0
  }

  /** weight / (height in metres)^2. */
  function BmiValue(heightCm: real, weightKg: real): real
    requires heightCm > 0.0
  {
    weightKg / ((heightCm / 100.0) * (heightCm / 100.0))
  }

  /** The BMI record of a profile, as the table scan produces it. */
  function BmiDataOf(p: Profile): BmiData {
    if !HasBodyMeasures(p) then BmiNotComputed
    else
      var v := BmiValue(p.height.value, p.weight.value);
      match FirstMatch(v, 0)
      case None => BmiNotComputed.(value := Some(v))
      case Some(i) =>
        BmiData(Some(v), BmiCategories[i].name, BmiCategories[i].riskLevel, BmiCategories[i].description)
  }

  /**
   * The BMI calculation: start from the "not computed" record; with a positive height
   * and weight store the value and scan the table, stopping at the first row that matches.
   */
  method CalculateBmiData(p: Profile) returns (data: BmiData)
    ensures data == BmiDataOf(p)
  {
    data := BmiNotComputed;
    if p.height.None? || p.weight.None? || p.height.value == 0.0 || p.weight.value == 0.0 {
      return;
    }
    if p.height.value <= 0.0 || p.weight.value <= 0.0 {
      return;
    }
    var v := BmiValue(p.height.value, p.weight.value);
    data := data.(value := Some(v));
    var i := 0;
    while i < |BmiCategories|
      invariant 0 <= i <= |BmiCategories|
      invariant FirstMatch(v, i) == FirstMatch(v, 0)
      invariant data == BmiNotComputed.(value := Some(v))
    {
      var row := BmiCategories[i];
      if Matches(row, v) {
        data := data.(category := row.name, riskLevel := row.riskLevel, riskDescription := row.description);
        return;
      }
      i := i + 1;
    }
  }

  /** The ranges of the table never overlap: the first matching row is the only one. */
  lemma BmiRowsDisjoint(x: real, i: nat, j: nat)
    requires i < j < |BmiCategories|
    ensures !(Matches(BmiCategories[i], x) && Matches(BmiCategories[j], x))
  {
  }

  /** Without a positive height and weight nothing is computed; otherwise a value always is. */
  lemma BmiComputedIff(p: Profile)
    ensures BmiDataOf(p).value.Some? <==> HasBodyMeasures(p)
    ensures !HasBodyMeasures(p) ==> BmiDataOf(p).category == NotComputed
    ensures HasBodyMeasures(p) ==> BmiDataOf(p).value == Some(BmiValue(p.height.value, p.weight.value))
  {
  }

  /** The category is "normal BMI" exactly when the unrounded value lies in [18.5, 24.9]. */
  lemma BmiNormalIff(p: Profile)
    requires HasBodyMeasures(p)
    ensures var v := BmiValue(p.height.value, p.weight.value);
            BmiDataOf(p).category == NormalBmi <==> 18.5 <= v <= 24.9
  {
    var v := BmiValue(p.height.value, p.weight.value);
    var m := FirstMatch(v, 0);
    if m.Some? && m.value != 0 {
      assert BmiCategories[m.value].name != NormalBmi;
    }
  }

  /** A value in a gap between two rows keeps the "not computed" category, yet has a value. */
  lemma BmiGapKeepsDefault(p: Profile)
    requires HasBodyMeasures(p)
    requires 24.9 < BmiValue(p.height.value, p.weight.value) < 25.0
    ensures BmiDataOf(p).category == NotComputed && BmiDataOf(p).value.Some?
  {
  }

  /** 170 cm and 70 kg give a BMI of about 24.2, in the normal row. */
  lemma BmiExample()
    ensures BmiDataOf(Profile(Unset, Some(170.0), Some(70.0))).category == NormalBmi
  {
    BmiNormalIff(Profile(Unset, Some(170.0), Some(70.0)));
  }

  /** The score map: only listed categories have an entry; any other scores 0.0. */
  const BmiScoreMap: map<string, real> := map[
    NormalBmi := 1.0,
    "Избыточная масса тела" := 0.0,
    "Ожирение I ст." := 0.0,
    "Ожирение II ст." := 0.0,
    "Ожирение III ст." := 0.0
  ]

  /** The BMI contribution to the medico-biological category: a lookup defaulting to 0.0. */
  function BmiScore(category: string): (r: real)
    ensures r == 1.0 <==> category == NormalBmi
    ensures r == 0.0 || r == 1.0
  {
    if category in BmiScoreMap then BmiScoreMap[category] else 0.0
  }

  // ---------------------------------------------------------------- waist and hip

  /** Waist and hip answers outside [50, 200] cm are discarded. */
  predicate ValidCircumference(v: real) {
    50.0 <= v <= 200.0
  }

  datatype Level = Norm | Raised | High

  function LevelName(l: Level): string {
    match l
    case Norm => "Норма"
    case Raised => "Повышенное значение"
    case High => "Высокое значение"
  }

  function LevelRank(l: Level): nat {
    match l
    case Norm => 0
    case Raised => 1
    case High => 2
  }

  datatype StatusInfo = StatusInfo(level: Level, description: Description)

  /** The waist score: 1.0 up to 94 cm for men, up to 80 cm for anyone else. */
  function WaistScore(v: real, g: Gender): real {
    if g == Male then (if v <= 94.0 then 1.0 else 0.0)
    else (if v <= 80.0 then 1.0 else 0.0)
  }

  function RaisedWaist(g: Gender): real { if g == Male then 94.0 else 80.0 }
  function HighWaist(g: Gender): real { if g == Male then 102.0 else 88.0 }

  /** The waist status shown to the respondent; None without a waist or without a gender. */
  function WaistStatus(g: Gender, waist: Option<real>): (r: Option<StatusInfo>)
    ensures r.Some? <==> waist.Some? && waist.value != 0.0 && g != Unset
    ensures r.Some? ==> (r.value.level == High <==> waist.value >= HighWaist(g))
    ensures r.Some? ==> (r.value.level == Norm <==> waist.value < RaisedWaist(g))
    ensures r.Some? ==> (r.value.level == Norm <==> r.value.description == RiskReduced)
  {
    if waist.None? || waist.value == 0.0 || g == Unset then None
    else
      var w := waist.value;
      if w >= HighWaist(g) then Some(StatusInfo(High, MetabolicHighRisk))
      else if w >= RaisedWaist(g) then Some(StatusInfo(Raised, MetabolicRaisedRisk))
      else Some(StatusInfo(Norm, RiskReduced))
  }

  /** A larger waist never gets a milder status. */
  lemma {:induction false} WaistStatusMonotone(g: Gender, w1: real, w2: real)
    requires g != Unset && w1 != 0.0 && w2 != 0.0 && w1 <= w2
    ensures LevelRank(WaistStatus(g, Some(w1)).value.level) <= LevelRank(WaistStatus(g, Some(w2)).value.level)
  {
  }

  /**
   * Score and status agree (score 1.0 exactly on "Норма") except at the raised threshold
   * itself, 94 cm for men and 80 cm for women, which scores 1.0 but shows as raised.
   */
  lemma WaistScoreAgreesWithStatus(g: Gender, v: real)
    requires g != Unset && v != 0.0
    ensures v != RaisedWaist(g) ==> (WaistScore(v, g) == 1.0 <==> WaistStatus(g, Some(v)).value.level == Norm)
    ensures v == RaisedWaist(g) ==> WaistScore(v, g) == 1.0 && WaistStatus(g, Some(v)).value.level == Raised
  {
  }

  /** The ratio the scorecard reports: waist / hip when both are non-zero and hip is positive. */
  function WaistHipRatio(waist: Option<real>, hip: Option<real>): (r: Option<real>)
    ensures r.Some? <==> waist.Some? && hip.Some? && waist.value != 0.0 && hip.value > 0.0
  {
    if waist.Some? && hip.Some? && waist.value != 0.0 && hip.value != 0.0 && hip.value > 0.0
    then Some(waist.value / hip.value) else None
  }

  /** The ratio status; None when either measurement or the gender is missing. */
  function RatioStatus(g: Gender, waist: Option<real>, hip: Option<real>): (r: Option<StatusInfo>)
    ensures r.Some? <==> waist.Some? && hip.Some? && waist.value != 0.0 && hip.value != 0.0 && g != Unset
    ensures r.Some? ==> r.value.level != High
    ensures r.Some? ==> (r.value.level == Raised <==>
              (g == Male && waist.value / hip.value >= 0.9) || (g == Female && waist.value / hip.value >= 0.85))
    ensures r.Some? ==> (r.value.level == Raised <==> r.value.description == MetabolicHighRisk)
    ensures r.Some? ==> (r.value.level == Norm <==> r.value.description == RiskReduced)
  {
    if waist.None? || hip.None? || waist.value == 0.0 || hip.value == 0.0 || g == Unset then None
    else
      var ratio := waist.value / hip.value;
      if (g == Male && ratio >= 0.9) || (g == Female && ratio >= 0.85)
      then Some(StatusInfo(Raised, MetabolicHighRisk))
      else Some(StatusInfo(Norm, RiskReduced))
  }

  /** The ratio score appended in post-processing: one value when both measurements exist. */
  function RatioScores(waist: Option<real>, hip: Option<real>, g: Gender): (r: seq<real>)
    ensures |r| <= 1
    ensures |r| == 1 <==> waist.Some? && hip.Some? && hip.value > 0.0
  {
    if waist.Some? && hip.Some? && hip.value > 0.0 then
      var ratio := waist.value / hip.value;
      if g == Male then [if ratio < 0.9 then 1.0 else 0.0]
      else [if ratio < 0.85 then 1.0 else 0.0]
    else []
  }

  /** For a man or a woman, the ratio scores 1.0 exactly when its status is "Норма". */
  lemma RatioScoreAgreesWithStatus(g: Gender, w: real, h: real)
    requires (g == Male || g == Female) && w != 0.0 && h > 0.0
    ensures RatioScores(Some(w), Some(h), g) == [1.0] <==> RatioStatus(g, Some(w), Some(h)).value.level == Norm
  {
  }

  /**
   * Any other gender value is scored with the women's 0.85 threshold, while its status
   * compares against neither threshold and stays "Норма": from 0.85 on, score and status disagree.
   */
  lemma OtherGenderRatioDisagrees(w: real, h: real)
    requires w != 0.0 && h > 0.0 && w / h >= 0.85
    ensures RatioScores(Some(w), Some(h), Other) == [0.0]
    ensures RatioStatus(Other, Some(w), Some(h)) == Some(StatusInfo(Norm, RiskReduced))
  {
  }

  /** The worked examples: women at 75/95 and 85/95, a man at 95/100. */
  lemma RatioExamples()
    ensures RatioStatus(Female, Some(75.0), Some(95.0)).value.level == Norm
    ensures RatioStatus(Female, Some(85.0), Some(95.0)).value.level == Raised
    ensures RatioStatus(Male, Some(95.0), Some(100.0)).value.level == Raised
  {
  }

  // ---------------------------------------------------------------- blood pressure

  /** The blood-pressure slot: the last parsed reading and whether the reading is unknown. */
  datatype BpData = BpData(systolic: Option<int>, diastolic: Option<int>, unknown: bool)

  datatype BpStatus = BpUnknown | BpNormal | BpElevated | BpHigh

  function BpStatusName(s: BpStatus): string {
    match s
    case BpUnknown => "unknown"
    case BpNormal => "normal"
    case BpElevated => "elevated"
    case BpHigh => "high"
  }

  function BpRank(s: BpStatus): nat {
    match s
    case BpUnknown => 0
    case BpNormal => 1
    case BpElevated => 2
    case BpHigh => 3
  }

  /** A reading is usable when the flag is clear and both numbers are present and non-zero. */
  predicate BpKnown(bp: BpData) {
    !bp.unknown && bp.systolic.Some? && bp.diastolic.Some?
    && bp.systolic.value != 0 && bp.diastolic.value != 0
  }

  /**
   * The blood-pressure status: unknown without a usable reading; high from 140 systolic or
   * 90 diastolic; elevated from 130 or 85; normal below both.
   */
  function GetBpStatus(bp: BpData): (r: BpStatus)
    ensures r == BpUnknown <==> !BpKnown(bp)
    ensures r == BpHigh <==> BpKnown(bp) && (bp.systolic.value >= 140 || bp.diastolic.value >= 90)
    ensures r == BpElevated <==> BpKnown(bp) && bp.systolic.value < 140 && bp.diastolic.value < 90
                                 && (bp.systolic.value >= 130 || bp.diastolic.value >= 85)
    ensures r == BpNormal <==> BpKnown(bp) && bp.systolic.value < 130 && bp.diastolic.value < 85
  {
    if !BpKnown(bp) then BpUnknown
    else
      var sys, dia := bp.systolic.value, bp.diastolic.value;
      if sys >= 140 || dia >= 90 then BpHigh
      else if sys >= 130 || dia >= 85 then BpElevated
      else BpNormal
  }

  /** Raising either reading never lowers the status. */
  lemma BpStatusMonotone(s1: int, d1: int, s2: int, d2: int)
    requires s1 != 0 && d1 != 0 && s2 != 0 && d2 != 0 && s1 <= s2 && d1 <= d2
    ensures BpRank(GetBpStatus(BpData(Some(s1), Some(d1), false)))
            <= BpRank(GetBpStatus(BpData(Some(s2), Some(d2), false)))
  {
  }

  /** The blood-pressure score: 1.0 exactly for a usable reading below 130 and below 85. */
  function BpScore(bp: BpData): (r: real)
    ensures r == 1.0 <==> BpKnown(bp) && bp.systolic.value < 130 && bp.diastolic.value < 85
    ensures r == 0.0 || r == 1.0
  {
    if GetBpStatus(bp) == BpNormal then 1.0 else 0.0
  }

  /** The readings of the worked examples. */
  lemma BpExamples()
    ensures GetBpStatus(BpData(Some(120), Some(80), false)) == BpNormal
    ensures GetBpStatus(BpData(Some(135), Some(85), false)) == BpElevated
    ensures GetBpStatus(BpData(Some(150), Some(95), false)) == BpHigh
    ensures GetBpStatus(BpData(None, None, true)) == BpUnknown
  {
  }

  datatype BpText = BpNormalText | BpElevatedText | BpHighText | BpMeasureText

  /** The description table keyed by status; every status has an entry. */
  function BpDescription(s: BpStatus): BpText {
    match s
    case BpNormal => BpNormalText
    case BpElevated => BpElevatedText
    case BpHigh => BpHighText
    case BpUnknown => BpMeasureText
  }

  // ---------------------------------------------------------------- laboratory values

  /** A laboratory slot (cholesterol or glucose): the value and whether it is unknown. */
  datatype LabReading = LabReading(value: Option<real>, unknown: bool)

  const CapillaryExcess: string := "превышение капиллярной нормы (>5.6 ммоль/л)"
  const VenousExcess: string := "превышение венозной нормы (>6.1 ммоль/л)"
  const GlucoseNorm: string := "норма"

  /** The glucose status: the exceeded norms joined with ", ", "норма", or "unknown". */
  function GetGlucoseStatus(value: Option<real>): (r: string)
    ensures r == "unknown" <==> value.None? || value.value == 0.0
  {
    if value.None? || value.value == 0.0 then "unknown"
    else
      var v := value.value;
      var parts := (if v > 5.6 then [CapillaryExcess] else []) + (if v > 6.1 then [VenousExcess] else []);
      if parts == [] then GlucoseNorm
      else if |parts| == 1 then parts[0]
      else parts[0] + ", " + parts[1]
  }

  /** The capillary text appears iff the value exceeds 5.6, the venous one iff it exceeds 6.1. */
  lemma GlucoseStatusCases(v: real)
    requires v != 0.0
    ensures v <= 5.6 ==> GetGlucoseStatus(Some(v)) == GlucoseNorm
    ensures 5.6 < v <= 6.1 ==> GetGlucoseStatus(Some(v)) == CapillaryExcess
    ensures 6.1 < v ==> GetGlucoseStatus(Some(v)) == CapillaryExcess + ", " + VenousExcess
  {
  }

  /** The glucose score: 1.0 exactly for a known value of at most 5.6. */
  function GlucoseScore(g: LabReading): (r: real)
    ensures r == 1.0 <==> !g.unknown && g.value.Some? && g.value.value <= 5.6
    ensures r == 0.0 || r == 1.0
  {
    if !g.unknown && g.value.Some? then
      var v := g.value.value;
      if v > 6.1 then 0.0
      else if v > 5.6 then 0.0
      else 1.0
    else 0.0
  }

  /** For a reading the handler can store (never the value 0), score 1.0 means status "норма". */
  lemma GlucoseScoreAgreesWithStatus(g: LabReading)
    requires g.value != Some(0.0)
    requires !g.unknown
    ensures GlucoseScore(g) == 1.0 <==> GetGlucoseStatus(g.value) == GlucoseNorm
  {
    if g.value.Some? && g.value.value > 5.6 {
      assert |GetGlucoseStatus(g.value)| != |GlucoseNorm|;
    }
  }

  /** The cholesterol score: 1.0 for a value in (0, 5.5]. */
  function CholesterolScore(v: real): (r: real)
    ensures r == 1.0 <==> 0.0 < v <= 5.5
    ensures r == 0.0 || r == 1.0
  {
    if 0.0 < v <= 5.5 then 1.0 else 0.0
  }

  /** The cholesterol status: "high" above 5.5, a missing value counting as 0. */
  function CholesterolStatus(value: Option<real>): (r: string)
    ensures r == "high" <==> value.Some? && value.value > 5.5
  {
    if value.GetOr(0.0) > 5.5 then "high" else "normal"
  }

  /** For a positive value, the score is 1.0 exactly when the status is "normal". */
  lemma CholesterolScoreAgreesWithStatus(v: real)
    requires v > 0.0
    ensures CholesterolScore(v) == 1.0 <==> CholesterolStatus(Some(v)) == "normal"
  {
  }

  // ---------------------------------------------------------------- smoking

  /** The smoking index cigarettes * years / 20, defined only when both are positive. */
  function SmokingIndex(cigarettes: real, years: real): (r: Option<real>)
    ensures r.Some? <==> cigarettes > 0.0 && years > 0.0
    ensures r.Some? ==> r.value > 0.0
  {
    if cigarettes > 0.0 && years > 0.0 then Some(cigarettes * years / 20.0) else None
  }

  /** What the index contributes to the lifestyle category: the index capped at 1.0. */
  function SmokingScores(cigarettes: real, years: real): (r: seq<real>)
    ensures |r| == (if cigarettes > 0.0 && years > 0.0 then 1 else 0)
    ensures forall i :: 0 <= i < |r| ==> 0.0 < r[i] <= 1.0
    ensures SmokingIndex(cigarettes, years).Some? ==>
              var ix := SmokingIndex(cigarettes, years).value;
              r[0] == (if ix > 1.0 then 1.0 else ix)
  {
    match SmokingIndex(cigarettes, years)
    case Some(ix) => [if 1.0 < ix then 1.0 else ix]
    case None => []
  }

  /** Ten cigarettes a day for five years: index 2.5, contribution 1.0. */
  lemma SmokingExample()
    ensures SmokingIndex(10.0, 5.0) == Some(2.5)
    ensures SmokingScores(10.0, 5.0) == [1.0]
  {
  }
}
