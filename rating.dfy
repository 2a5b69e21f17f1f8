/**
 * The rating entry point: with no answers the base scorecard is returned unchanged;
 * otherwise the BMI is computed, the answers are collected and post-processed, the
 * category averages, the total score and the rating are derived and the scorecard is filled.
 */
module Rating {
  import opened Options
  import opened Taxonomy
  import opened Medical
  import opened Flags
  import opened Averaging
  import opened Aggregator

  /** The BMI cell: the base scorecard's "no data" text, or the computed value (possibly None). */
  datatype BmiCell = BmiNoData | BmiAt(value: Option<real>)

  /** Everything the scorecard reports beyond the averages and the BMI. */
  datatype Details = Details(
    existingDiseases: Option<seq<string>>,
    waist: Option<real>, hip: Option<real>, waistHipRatio: Option<real>,
    waistStatus: Option<StatusInfo>, ratioStatus: Option<StatusInfo>,
    bp: BpData, bpStatus: BpStatus, bpDescription: BpText,
    cholesterolValue: Option<real>, cholesterolStatus: string, cholesterolUnknown: bool,
    glucoseValue: Option<real>, glucoseStatus: string, glucoseUnknown: bool,
    smokingIndex: Option<real>, smokingAlert: bool,
    marks: set<Marker>,
    flags: IssueFlags)

  datatype Scorecard = Scorecard(
    averages: map<Category, real>, totalScore: real, rating: Grade,
    bmi: BmiCell, bmiCategory: string, bmiRiskLevel: string, bmiRiskDescription: Description,
    details: Option<Details>)

  /** The scorecard of a respondent without answers. */
  function InitializeBaseResult(): Scorecard {
    Scorecard(map c | c in CategorySet :: 0.0, 0.0, NoData,
              BmiNoData, NotComputed, "Не определен", NoAssessmentData, None)
  }

  /** The reported details of a post-processed record. */
  function DetailsOf(data: Collected, g: Gender): Details {
    var status := GetBpStatus(data.bp);
    Details(
      if data.diseases == [] then None else Some(data.diseases),
      data.waist, data.hip, WaistHipRatio(data.waist, data.hip),
      WaistStatus(g, data.waist), RatioStatus(g, data.waist, data.hip),
      data.bp, status, BpDescription(status),
      data.cholesterol.value, CholesterolStatus(data.cholesterol.value), data.cholesterol.unknown,
      data.glucose.value, GetGlucoseStatus(data.glucose.value),
      data.glucose.unknown || data.glucose.value.None? || data.glucose.value == Some(0.0),
      SmokingIndex(data.cigarettes, data.years), data.smokingAlert,
      data.marks,
      data.flags)
  }

  /** Fills the scorecard: averages merged in, BMI copied, details, total and rating. */
  function UpdateResult(g: Gender, result: Scorecard, bmi: BmiData, averages: map<Category, real>,
                        totalScore: real, data: Collected): Scorecard {
    result.(averages := result.averages + averages,
            bmi := BmiAt(bmi.value), bmiCategory := bmi.category,
            bmiRiskLevel := bmi.riskLevel, bmiRiskDescription := bmi.riskDescription,
            details := Some(DetailsOf(data, g)),
            totalScore := totalScore, rating := DetermineRating(totalScore))
  }

  /** The base scorecard: every category at 0.0, no score, "no data", no BMI assessment and no details. */
  lemma BaseResultEmpty()
    ensures InitializeBaseResult().averages.Keys == CategorySet
    ensures forall c :: c in InitializeBaseResult().averages ==> InitializeBaseResult().averages[c] == 0.0
    ensures InitializeBaseResult().totalScore == 0.0 && InitializeBaseResult().rating == NoData
    ensures InitializeBaseResult().bmi == BmiNoData && InitializeBaseResult().bmiCategory == NotComputed
    ensures InitializeBaseResult().bmiRiskLevel == "Не определен"
    ensures InitializeBaseResult().bmiRiskDescription == NoAssessmentData
    ensures InitializeBaseResult().details.None?
  {
  }

  /**
   * Filling merges the new averages over the old ones (a new value wins, an old one
   * without a new value stays), rates the total and copies the BMI fields.
   */
  lemma UpdateResultFills(g: Gender, result: Scorecard, bmi: BmiData, averages: map<Category, real>,
                          totalScore: real, data: Collected)
    ensures var r := UpdateResult(g, result, bmi, averages, totalScore, data);
      && r.averages.Keys == result.averages.Keys + averages.Keys
      && (forall c :: c in averages ==> r.averages[c] == averages[c])
      && (forall c :: c in result.averages && c !in averages ==> r.averages[c] == result.averages[c])
      && r.totalScore == totalScore && r.rating == DetermineRating(totalScore)
      && r.bmi == BmiAt(bmi.value) && r.bmiCategory == bmi.category
      && r.bmiRiskLevel == bmi.riskLevel && r.bmiRiskDescription == bmi.riskDescription
      && r.details == Some(DetailsOf(data, g))
  {
  }

  function AveragesOf(buckets: map<Category, seq<real>>): map<Category, real> {
    map c | c in buckets :: CategoryAverage(c, buckets[c])
  }

  /** The post-processed record of a non-empty questionnaire. */
  function ProcessedOf(p: Profile, rs: seq<Answer>): Collected {
    PostProcess(Collect(rs, p.gender), BmiDataOf(p), p.gender)
  }

  /** The scorecard filled from a post-processed record. */
  function ScorecardOf(g: Gender, bmi: BmiData, data: Collected): Scorecard {
    var averages := AveragesOf(data.buckets);
    UpdateResult(g, InitializeBaseResult(), bmi, averages, TotalScore(averages), data)
  }

  /** The scorecard of a profile and its answers, in answer order. */
  function RatingOf(p: Profile, rs: seq<Answer>): Scorecard {
    if rs == [] then InitializeBaseResult()
    else ScorecardOf(p.gender, BmiDataOf(p), ProcessedOf(p, rs))
  }

  /** The rating of a respondent. */
  method CalculateUserRating(profile: Profile, responses: seq<Answer>) returns (result: Scorecard)
    ensures result == RatingOf(profile, responses)
    ensures result.rating == NoData <==> responses == []
  {
    result := InitializeBaseResult();
    if |responses| == 0 {
      return;
    }
    var bmiData := CalculateBmiData(profile);
    var processed := ProcessResponses(responses, bmiData, profile.gender);
    var categoryAverages := CalculateCategoryAverages(processed.buckets);
    AveragesOfMatches(processed.buckets, categoryAverages);
    var totalScore := TotalScore(categoryAverages);
    result := UpdateResult(profile.gender, result, bmiData, categoryAverages, totalScore, processed.Snapshot());
  }

  lemma AveragesOfMatches(buckets: map<Category, seq<real>>, averages: map<Category, real>)
    requires averages.Keys == buckets.Keys
    requires forall c :: c in buckets ==> averages[c] == CategoryAverage(c, buckets[c])
    ensures averages == AveragesOf(buckets)
  {
  }

  // ---------------------------------------------------------------- properties of the scorecard

  /** "No data" is the rating exactly of the empty questionnaire, which reports no details. */
  lemma RatingNoDataIff(p: Profile, rs: seq<Answer>)
    ensures RatingOf(p, rs).rating == NoData <==> rs == []
    ensures rs == [] <==> RatingOf(p, rs).details.None?
    ensures rs != [] ==> RatingOf(p, rs).rating == DetermineRating(RatingOf(p, rs).totalScore)
  {
  }

  lemma ProcessedWellFormed(p: Profile, rs: seq<Answer>)
    ensures WellFormed(ProcessedOf(p, rs))
  {
    CollectWellFormed(rs, p.gender);
    PostProcessWellFormed(Collect(rs, p.gender), BmiDataOf(p), p.gender);
  }

  /** Averaging keeps the set of categories. */
  lemma AveragesOfKeys(buckets: map<Category, seq<real>>)
    ensures AveragesOf(buckets).Keys == buckets.Keys
  {
  }

  /** Filling the scorecard from a record with all six buckets reports all six averages. */
  lemma ScorecardAverages(g: Gender, bmi: BmiData, data: Collected)
    requires data.buckets.Keys == CategorySet
    ensures ScorecardOf(g, bmi, data).averages == AveragesOf(data.buckets)
  {
    var averages := AveragesOf(data.buckets);
    AveragesOfKeys(data.buckets);
    var merged := InitializeBaseResult().averages + averages;
    assert merged == averages;
  }

  /** Every category has an average, and the lifestyle average lies in [0, 1]. */
  lemma AveragesComplete(p: Profile, rs: seq<Answer>)
    ensures RatingOf(p, rs).averages.Keys == CategorySet
    ensures 0.0 <= RatingOf(p, rs).averages[Lifestyle] <= 1.0
  {
    if rs != [] {
      var data := ProcessedOf(p, rs);
      ProcessedWellFormed(p, rs);
      ScorecardAverages(p.gender, BmiDataOf(p), data);
      LifestyleAverageAtMostOne(data.buckets[Lifestyle]);
    }
  }

  predicate InUnit(s: seq<real>) {
    forall i :: 0 <= i < |s| ==> 0.0 <= s[i] <= 1.0
  }

  /**
   * The answer's raw values lie in [0, 1] if they are filed as they are: the tag is not
   * intercepted, is listed in the category table and is not a smoking tag. Measurements,
   * lab values and cigarette counts never reach a bucket raw, so they are not constrained.
   */
  predicate FiledInUnit(r: Answer) {
    (SpecialRoute(r.tag).None? && GetResponseCategory(r.tag).Some? && !IsSmokingTag(r.tag))
    ==> InUnit(ResponseValues(r))
  }

  predicate Binary(s: seq<real>) {
    forall i :: 0 <= i < |s| ==> s[i] == 0.0 || s[i] == 1.0
  }

  lemma RoutedContributionInUnit(route: Option<Special>, category: Option<Category>, r: Answer, cat: Category, g: Gender)
    requires route.None? && category.Some? && !IsSmokingTag(r.tag) ==> InUnit(ResponseValues(r))
    requires IsSmokingTag(r.tag) ==> category == Some(Lifestyle)
    ensures InUnit(RoutedContribution(route, category, r, cat, g))
  {
  }

  lemma {:induction false} ContributionsInUnit(rs: seq<Answer>, cat: Category, g: Gender)
    requires forall i :: 0 <= i < |rs| ==> FiledInUnit(rs[i])
    ensures InUnit(Contributions(rs, cat, g))
  {
    if rs != [] {
      var last := rs[|rs| - 1];
      ContributionsInUnit(rs[..|rs| - 1], cat, g);
      if IsSmokingTag(last.tag) {
        SmokingTagsAreLifestyle(last.tag);
      }
      RoutedContributionInUnit(SpecialRoute(last.tag), GetResponseCategory(last.tag), last, cat, g);
    }
  }

  /** Only answers filed directly under the medico-biological category carry non-binary scores there. */
  lemma RoutedContributionBinary(route: Option<Special>, category: Option<Category>, r: Answer, g: Gender)
    requires category == Some(MedicoBiological) ==> route.Some?
    ensures Binary(RoutedContribution(route, category, r, MedicoBiological, g))
  {
  }

  lemma {:induction false} ContributionsBinary(rs: seq<Answer>, g: Gender)
    requires forall i :: 0 <= i < |rs| && GetResponseCategory(rs[i].tag) == Some(MedicoBiological)
                         ==> SpecialRoute(rs[i].tag).Some?
    ensures Binary(Contributions(rs, MedicoBiological, g))
  {
    if rs != [] {
      var last := rs[|rs| - 1];
      ContributionsBinary(rs[..|rs| - 1], g);
      RoutedContributionBinary(SpecialRoute(last.tag), GetResponseCategory(last.tag), last, g);
    }
  }

  lemma UnitAverage(c: Category, s: seq<real>)
    requires InUnit(s)
    ensures 0.0 <= CategoryAverage(c, s) <= 1.0
  {
    var t := if c == Lifestyle then Capped(s) else s;
    assert InUnit(t);
    if exists i :: 0 <= i < |t| && t[i] > 0.0 {
      SafeAverageBounds(t, 0.0, 1.0);
    }
  }

  /** Post-processing keeps a bucket's values within [0, 1]. */
  lemma PostProcessedInUnit(c: Collected, bmi: BmiData, g: Gender, cat: Category)
    requires WellFormed(c) && InUnit(BucketOf(c.buckets, cat))
    ensures InUnit(BucketOf(PostProcess(c, bmi, g).buckets, cat))
  {
    PostProcessScores(c, bmi, g, cat);
    PostScoresInUnit(c, bmi, g, cat);
    InUnitAppend(BucketOf(c.buckets, cat), PostScores(c, bmi, g, cat));
  }

  lemma InUnitAppend(a: seq<real>, b: seq<real>)
    requires InUnit(a) && InUnit(b)
    ensures InUnit(a + b)
  {
  }

  /** The post-processed buckets hold values in [0, 1] when every answer weight does. */
  lemma ProcessedInUnit(p: Profile, rs: seq<Answer>, c: Category)
    requires forall i :: 0 <= i < |rs| ==> FiledInUnit(rs[i])
    ensures InUnit(BucketOf(ProcessedOf(p, rs).buckets, c))
  {
    CollectWellFormed(rs, p.gender);
    CollectBuckets(rs, p.gender, c);
    ContributionsInUnit(rs, c, p.gender);
    PostProcessedInUnit(Collect(rs, p.gender), BmiDataOf(p), p.gender, c);
  }

  /** Averages of buckets in [0, 1] are in [0, 1]; so is their total. */
  lemma ScorecardInUnit(g: Gender, bmi: BmiData, data: Collected)
    requires data.buckets.Keys == CategorySet
    requires forall c :: c in data.buckets ==> InUnit(data.buckets[c])
    ensures forall c :: c in ScorecardOf(g, bmi, data).averages ==> 0.0 <= ScorecardOf(g, bmi, data).averages[c] <= 1.0
    ensures 0.0 <= ScorecardOf(g, bmi, data).totalScore <= 1.0
    ensures ScorecardOf(g, bmi, data).totalScore == 0.0 <==>
              forall c :: c in ScorecardOf(g, bmi, data).averages ==> ScorecardOf(g, bmi, data).averages[c] <= 0.0
  {
    var averages := AveragesOf(data.buckets);
    ScorecardAverages(g, bmi, data);
    forall c | c in averages
      ensures 0.0 <= averages[c] <= 1.0
    {
      UnitAverage(c, data.buckets[c]);
    }
    TotalScoreBounds(averages);
  }

  /**
   * When every answer weight lies in [0, 1], every category average and the total score lie
   * in [0, 1], and the total is 0.0 exactly when no category average is positive.
   */
  lemma TotalScoreInUnit(p: Profile, rs: seq<Answer>)
    requires forall i :: 0 <= i < |rs| ==> FiledInUnit(rs[i])
    ensures forall c :: c in RatingOf(p, rs).averages ==> 0.0 <= RatingOf(p, rs).averages[c] <= 1.0
    ensures 0.0 <= RatingOf(p, rs).totalScore <= 1.0
    ensures RatingOf(p, rs).totalScore == 0.0 <==>
              forall c :: c in RatingOf(p, rs).averages ==> RatingOf(p, rs).averages[c] <= 0.0
  {
    if rs != [] {
      var data := ProcessedOf(p, rs);
      ProcessedWellFormed(p, rs);
      forall c | c in data.buckets
        ensures InUnit(data.buckets[c])
      {
        ProcessedInUnit(p, rs, c);
      }
      ScorecardInUnit(p.gender, BmiDataOf(p), data);
    }
  }

  lemma PostProcessedMedicoBinary(c: Collected, bmi: BmiData, g: Gender)
    requires WellFormed(c) && Binary(BucketOf(c.buckets, MedicoBiological))
    ensures Binary(BucketOf(PostProcess(c, bmi, g).buckets, MedicoBiological))
  {
    PostProcessScores(c, bmi, g, MedicoBiological);
  }

  /** The medico-biological bucket holds only 0.0 and 1.0 when no answer is filed there directly. */
  lemma ProcessedMedicoBinary(p: Profile, rs: seq<Answer>)
    requires forall i :: 0 <= i < |rs| && GetResponseCategory(rs[i].tag) == Some(MedicoBiological)
                         ==> SpecialRoute(rs[i].tag).Some?
    ensures Binary(BucketOf(ProcessedOf(p, rs).buckets, MedicoBiological))
  {
    CollectWellFormed(rs, p.gender);
    CollectBuckets(rs, p.gender, MedicoBiological);
    ContributionsBinary(rs, p.gender);
    PostProcessedMedicoBinary(Collect(rs, p.gender), BmiDataOf(p), p.gender);
  }

  /**
   * Zeros are left out of every average, so when only the intercepted waist, cholesterol
   * and post-processing scores (all 0.0 or 1.0) reach the medico-biological bucket, its
   * average is 0.0 or 1.0: it says whether any indicator is normal, not how many are.
   */
  lemma MedicoAverageIsBinary(p: Profile, rs: seq<Answer>)
    requires forall i :: 0 <= i < |rs| && GetResponseCategory(rs[i].tag) == Some(MedicoBiological)
                         ==> SpecialRoute(rs[i].tag).Some?
    ensures RatingOf(p, rs).averages[MedicoBiological] == 0.0
            || RatingOf(p, rs).averages[MedicoBiological] == 1.0
  {
    if rs != [] {
      var data := ProcessedOf(p, rs);
      ProcessedWellFormed(p, rs);
      ProcessedMedicoBinary(p, rs);
      ScorecardAverages(p.gender, BmiDataOf(p), data);
      BinaryScoresAverage(data.buckets[MedicoBiological]);
    }
  }

  /**
   * Reported details agree with one another: circumferences are within [50, 200] cm, so a
   * ratio is within [0.25, 4]; an "unknown" glucose status is flagged as unknown; a "high"
   * cholesterol status comes with a value; a disease list is reported only when non-empty.
   */
  predicate DetailsAgree(d: Details) {
    && (d.waist.Some? ==> 50.0 <= d.waist.value <= 200.0)
    && (d.hip.Some? ==> 50.0 <= d.hip.value <= 200.0)
    && (d.waistHipRatio.Some? ==> 0.25 <= d.waistHipRatio.value <= 4.0)
    && (d.glucoseStatus == "unknown" ==> d.glucoseUnknown)
    && (d.cholesterolStatus == "high" ==> d.cholesterolValue.Some?)
    && (d.existingDiseases.Some? ==> d.existingDiseases.value != [])
  }

  /** The details of a well-formed record agree with one another. */
  lemma DetailsOfAgree(data: Collected, g: Gender)
    requires WellFormed(data)
    ensures DetailsAgree(DetailsOf(data, g))
  {
    if data.waist.Some? && data.hip.Some? {
      RatioWithinBounds(data.waist.value, data.hip.value);
    }
  }

  /** A non-empty questionnaire reports details, and they agree with one another. */
  lemma DetailsConsistent(p: Profile, rs: seq<Answer>)
    requires rs != []
    ensures RatingOf(p, rs).details.Some? && DetailsAgree(RatingOf(p, rs).details.value)
  {
    ProcessedWellFormed(p, rs);
    DetailsOfAgree(ProcessedOf(p, rs), p.gender);
  }

  lemma RatioWithinBounds(w: real, h: real)
    requires 50.0 <= w <= 200.0 && 50.0 <= h <= 200.0
    ensures 0.25 <= w / h <= 4.0
  {
    DivisionBounds(w, h, 0.25, 4.0);
  }
}
