/**
 * Collection of the answers: every answer is routed (intercepted tag, category bucket, or
 * nothing) and folded into one mutable record, which is then post-processed (smoking index,
 * BMI, waist/hip ratio, blood-pressure and glucose scores, issue flags).
 *
 * The pure functions (Step, Collect, PostProcess) say what each operation does to the record;
 * the class ResponseData does it in place, and each of its methods is proved against them.
 */
module Aggregator {
  import opened Options
  import opened Taxonomy
  import opened PyText
  import opened Medical
  import opened Flags
  import Averaging

  /** A selected answer option: its text and its weight (None when it carries none). */
  datatype Choice = Choice(text: string, weight: Option<real>)

  /** One stored answer to one question. */
  datatype Answer = Answer(tag: string, isNumeric: bool, numeric: Option<real>,
                           selected: seq<Choice>, freeText: string)

  /** The weights of the selected options, skipping those without one. */
  function Weights(cs: seq<Choice>): (r: seq<real>)
    ensures |r| <= |cs|
    ensures forall x :: x in r <==> exists i :: 0 <= i < |cs| && cs[i].weight == Some(x)
  {
    if cs == [] then []
    else (if cs[0].weight.Some? then [cs[0].weight.value] else []) + Weights(cs[1..])
  }

  lemma WeightsCons(c: Choice, cs: seq<Choice>)
    ensures Weights([c] + cs) == (if c.weight.Some? then [c.weight.value] else []) + Weights(cs)
  {
    assert ([c] + cs)[1..] == cs;
  }

  lemma WeightsAppendStep(c: Choice, a: seq<Choice>, b: seq<Choice>)
    requires Weights(a + b) == Weights(a) + Weights(b)
    ensures Weights([c] + a + b) == Weights([c] + a) + Weights(b)
  {
    var w := if c.weight.Some? then [c.weight.value] else [];
    Averaging.ConcatAssoc([c], a, b);
    WeightsCons(c, a + b);
    WeightsCons(c, a);
    Averaging.ConcatAssoc(w, Weights(a), Weights(b));
  }

  /** The weights keep the order of the options: the weights of a concatenation are concatenated. */
  lemma {:induction false} WeightsAppend(a: seq<Choice>, b: seq<Choice>)
    ensures Weights(a + b) == Weights(a) + Weights(b)
  {
    if a == [] {
      assert a + b == b;
    } else {
      WeightsAppend(a[1..], b);
      WeightsAppendStep(a[0], a[1..], b);
      assert a == [a[0]] + a[1..];
    }
  }

  function Texts(cs: seq<Choice>): (r: seq<string>)
    ensures |r| == |cs| && forall i :: 0 <= i < |cs| ==> r[i] == cs[i].text
  {
    seq(|cs|, i requires 0 <= i < |cs| => cs[i].text)
  }

  /** The values an answer contributes: the numeric answer, or the weights of the selection. */
  function ResponseValues(r: Answer): seq<real> {
    if r.isNumeric then (if r.numeric.Some? then [r.numeric.value] else [])
    else Weights(r.selected)
  }

  /** The record being filled, as a value. */
  datatype Collected = Collected(
    buckets: map<Category, seq<real>>,
    topics: map<Topic, seq<real>>,
    diseases: seq<string>,
    waist: Option<real>, hip: Option<real>,
    bp: BpData, cholesterol: LabReading, glucose: LabReading,
    cigarettes: real, years: real,
    marks: set<Marker>, smokingAlert: bool,
    flags: IssueFlags)

  /** One category's bucket; a category without a bucket reads as empty. */
  function BucketOf(buckets: map<Category, seq<real>>, c: Category): seq<real> {
    if c in buckets then buckets[c] else []
  }

  /** Appends scores to one category bucket. */
  function ExtendBucket(buckets: map<Category, seq<real>>, c: Category, values: seq<real>)
    : (r: map<Category, seq<real>>)
    ensures BucketOf(r, c) == BucketOf(buckets, c) + values
    ensures forall d :: d != c ==> BucketOf(r, d) == BucketOf(buckets, d)
    ensures r.Keys == buckets.Keys + {c}
  {
    buckets[c := BucketOf(buckets, c) + values]
  }

  /** One empty bucket per category. */
  const EmptyBuckets: map<Category, seq<real>> := map c | c in CategorySet :: []

  const Initial: Collected := Collected(
    EmptyBuckets, map[], [], None, None, BpData(None, None, false),
    LabReading(None, false), LabReading(None, false), 0.0, 0.0, {}, false, NoFlags)

  // ---------------------------------------------------------------- the handlers

  /** A waist in [50, 200] cm scores and is stored; anything else is ignored. */
  function WaistStep(c: Collected, numeric: Option<real>, g: Gender): Collected {
    if numeric.None? || !ValidCircumference(numeric.value) then c
    else c.(buckets := ExtendBucket(c.buckets, MedicoBiological, [WaistScore(numeric.value, g)]),
            waist := numeric)
  }

  /** A hip in [50, 200] cm is stored (it is scored with the waist in post-processing). */
  function HipStep(c: Collected, numeric: Option<real>): Collected {
    if numeric.None? || !ValidCircumference(numeric.value) then c
    else c.(hip := numeric)
  }

  /** No value marks cholesterol unknown; 0 means "unknown" too; every value is scored. */
  function CholesterolStep(c: Collected, numeric: Option<real>): Collected {
    match numeric
    case None => c.(cholesterol := c.cholesterol.(unknown := true))
    case Some(v) =>
      c.(cholesterol := if v == 0.0 then LabReading(None, true) else LabReading(Some(v), false),
         buckets := ExtendBucket(c.buckets, MedicoBiological, [CholesterolScore(v)]))
  }

  /** As for cholesterol, but glucose is scored only in post-processing. */
  function GlucoseStep(c: Collected, numeric: Option<real>): Collected {
    match numeric
    case None => c.(glucose := c.glucose.(unknown := true))
    case Some(v) => c.(glucose := if v == 0.0 then LabReading(None, true) else LabReading(Some(v), false))
  }

  /** Every selected option's text, then the free text when there is one. */
  function DiseasesStep(c: Collected, selected: seq<Choice>, freeText: string): Collected {
    c.(diseases := c.diseases + Texts(selected) + (if freeText != "" then [freeText] else []))
  }

  /** A "systolic/diastolic" text replaces the reading; anything else only marks it unknown. */
  function BloodPressureStep(c: Collected, text: string): Collected {
    if text == "" then c.(bp := c.bp.(unknown := true))
    else if '/' in text then
      match ParseBloodPressure(text)
      case Some(reading) => c.(bp := BpData(Some(reading.0), Some(reading.1), false))
      case None => c.(bp := c.bp.(unknown := true))
    else c.(bp := c.bp.(unknown := true))
  }

  predicate IsSmokingTag(tag: string) {
    tag == SmokingCigarettesTag || tag == SmokingYearsTag
  }

  /** The smoking score is the index capped exactly as lifestyle values are capped before averaging. */
  lemma SmokingScoreIsCapped(cigarettes: real, years: real)
    requires SmokingIndex(cigarettes, years).Some?
    ensures SmokingScores(cigarettes, years) == Averaging.Capped([SmokingIndex(cigarettes, years).value])
  {
    var ix := SmokingIndex(cigarettes, years).value;
    assert Averaging.Capped([ix])[0] == SmokingScores(cigarettes, years)[0];
  }

  /** Smoking answers overwrite their slot (first value or 0); other lifestyle answers are pooled. */
  function LifestyleStep(c: Collected, tag: string, values: seq<real>): Collected {
    var first := if |values| > 0 then values[0] else 0.0;
    if tag == SmokingCigarettesTag then c.(cigarettes := first, smokingAlert := true)
    else if tag == SmokingYearsTag then c.(years := first, smokingAlert := true)
    else c.(buckets := ExtendBucket(c.buckets, Lifestyle, values))
  }

  /** What an intercepted answer does. */
  function SpecialStep(c: Collected, sp: Special, r: Answer, values: seq<real>, g: Gender): Collected {
    match sp
    case Waist => WaistStep(c, r.numeric, g)
    case Hip => HipStep(c, r.numeric)
    case Cholesterol => CholesterolStep(c, r.numeric)
    case Glucose => GlucoseStep(c, r.numeric)
    case Diseases => DiseasesStep(c, r.selected, r.freeText)
    case BloodPressure => BloodPressureStep(c, r.freeText)
    case Side(t) => c.(topics := ExtendTopic(c.topics, t, values))
    case Mark(m) => c.(marks := c.marks + {m})
  }

  /** One answer, once its tag has been looked up in both tables. */
  function Dispatch(c: Collected, route: Option<Special>, category: Option<Category>, r: Answer, g: Gender)
    : Collected
  {
    var values := ResponseValues(r);
    match route
    case Some(sp) => SpecialStep(c, sp, r, values, g)
    case None =>
      match category
      case None => c
      case Some(cat) =>
        if cat == Lifestyle then LifestyleStep(c, r.tag, values)
        else c.(buckets := ExtendBucket(c.buckets, cat, values))
  }

  /** One answer: intercepted tags first, then the category table; unknown tags change nothing. */
  function Step(c: Collected, r: Answer, g: Gender): Collected {
    Dispatch(c, SpecialRoute(r.tag), GetResponseCategory(r.tag), r, g)
  }

  /** The record after the answers, in order. */
  function Collect(rs: seq<Answer>, g: Gender): Collected {
    if rs == [] then Initial else Step(Collect(rs[..|rs| - 1], g), rs[|rs| - 1], g)
  }

  /** The medico-biological scores of post-processing: BMI, waist/hip ratio, blood pressure, glucose. */
  function MedicoScores(c: Collected, bmi: BmiData, g: Gender): (r: seq<real>)
    ensures |r| == (if c.waist.Some? && c.hip.Some? && c.hip.value > 0.0 then 4 else 3)
    ensures forall i :: 0 <= i < |r| ==> r[i] == 0.0 || r[i] == 1.0
  {
    var ratio := RatioScores(c.waist, c.hip, g);
    assert forall i :: 0 <= i < |ratio| ==> ratio[i] == 0.0 || ratio[i] == 1.0;
    [BmiScore(bmi.category)] + ratio + [BpScore(c.bp)] + [GlucoseScore(c.glucose)]
  }

  /** Post-processing: smoking index, then BMI, ratio, blood-pressure and glucose scores, then flags. */
  function PostProcess(c: Collected, bmi: BmiData, g: Gender): Collected {
    var withSmoking := ExtendBucket(c.buckets, Lifestyle, SmokingScores(c.cigarettes, c.years));
    c.(buckets := ExtendBucket(withSmoking, MedicoBiological, MedicoScores(c, bmi, g)),
       flags := ComputeFlags(c.topics))
  }

  // ---------------------------------------------------------------- an independent account of the buckets

  /** The scores an answer routed as given puts into bucket `cat`. */
  function RoutedContribution(route: Option<Special>, category: Option<Category>, r: Answer, cat: Category, g: Gender)
    : seq<real>
  {
    match route
    case Some(Waist) =>
      if cat == MedicoBiological && r.numeric.Some? && ValidCircumference(r.numeric.value)
      then [WaistScore(r.numeric.value, g)] else []
    case Some(Cholesterol) =>
      if cat == MedicoBiological && r.numeric.Some? then [CholesterolScore(r.numeric.value)] else []
    case Some(_) => []
    case None =>
      if category == Some(cat) && !(cat == Lifestyle && IsSmokingTag(r.tag))
      then ResponseValues(r) else []
  }

  /** The scores one answer puts into bucket `cat`, whatever was collected before it. */
  function Contribution(r: Answer, cat: Category, g: Gender): seq<real> {
    RoutedContribution(SpecialRoute(r.tag), GetResponseCategory(r.tag), r, cat, g)
  }

  function Contributions(rs: seq<Answer>, cat: Category, g: Gender): seq<real> {
    if rs == [] then [] else Contributions(rs[..|rs| - 1], cat, g) + Contribution(rs[|rs| - 1], cat, g)
  }

  lemma SpecialStepBucket(c: Collected, sp: Special, r: Answer, g: Gender, cat: Category)
    ensures BucketOf(SpecialStep(c, sp, r, ResponseValues(r), g).buckets, cat)
            == BucketOf(c.buckets, cat) + RoutedContribution(Some(sp), None, r, cat, g)
  {
  }

  /** A lifestyle answer pools its values unless it is one of the two smoking answers. */
  lemma LifestyleStepBucket(c: Collected, tag: string, values: seq<real>, cat: Category)
    ensures BucketOf(LifestyleStep(c, tag, values).buckets, cat)
            == BucketOf(c.buckets, cat) + (if cat == Lifestyle && !IsSmokingTag(tag) then values else [])
  {
  }

  lemma CategoryStepBucket(c: Collected, category: Option<Category>, r: Answer, g: Gender, cat: Category)
    ensures BucketOf(Dispatch(c, None, category, r, g).buckets, cat)
            == BucketOf(c.buckets, cat) + RoutedContribution(None, category, r, cat, g)
  {
    if category == Some(Lifestyle) {
      LifestyleStepBucket(c, r.tag, ResponseValues(r), cat);
    }
  }

  /** One answer adds exactly its contribution to every bucket. */
  lemma StepBucket(c: Collected, r: Answer, g: Gender, cat: Category)
    ensures BucketOf(Step(c, r, g).buckets, cat) == BucketOf(c.buckets, cat) + Contribution(r, cat, g)
  {
    var route, category := SpecialRoute(r.tag), GetResponseCategory(r.tag);
    if route.Some? {
      SpecialStepBucket(c, route.value, r, g, cat);
    } else {
      CategoryStepBucket(c, category, r, g, cat);
    }
  }

  /**
   * The buckets after any sequence of answers are the concatenation, in answer order, of
   * what each answer contributes: no answer's scores depend on what came before it.
   */
  lemma {:induction false} CollectBuckets(rs: seq<Answer>, g: Gender, cat: Category)
    ensures BucketOf(Collect(rs, g).buckets, cat) == Contributions(rs, cat, g)
  {
    if rs != [] {
      CollectBuckets(rs[..|rs| - 1], g, cat);
      StepBucket(Collect(rs[..|rs| - 1], g), rs[|rs| - 1], g, cat);
    }
  }

  /** Intercepted answers other than waist and cholesterol never reach a bucket. */
  lemma InterceptedLeaveBuckets(r: Answer, g: Gender, cat: Category)
    requires SpecialRoute(r.tag).Some?
    requires SpecialRoute(r.tag) != Some(Waist) && SpecialRoute(r.tag) != Some(Cholesterol)
    ensures Contribution(r, cat, g) == []
  {
  }

  /** A tag neither intercepted nor listed in any category changes nothing. */
  lemma UnknownTagChangesNothing(c: Collected, r: Answer, g: Gender)
    requires SpecialRoute(r.tag).None? && GetResponseCategory(r.tag).None?
    ensures Step(c, r, g) == c
  {
  }

  /**
   * A listed tag that is not intercepted (and is not a smoking answer) extends exactly its
   * own bucket, by the answer's values, and changes nothing else.
   */
  lemma CategorisedTagExtendsOwnBucket(c: Collected, r: Answer, g: Gender, cat: Category)
    requires SpecialRoute(r.tag).None? && GetResponseCategory(r.tag) == Some(cat)
    requires !IsSmokingTag(r.tag)
    ensures BucketOf(Step(c, r, g).buckets, cat) == BucketOf(c.buckets, cat) + ResponseValues(r)
    ensures forall d :: d != cat ==> BucketOf(Step(c, r, g).buckets, d) == BucketOf(c.buckets, d)
    ensures Step(c, r, g) == c.(buckets := Step(c, r, g).buckets)
  {
  }

  /**
   * A smoking answer overwrites its slot with its first value (0 without one), whatever was
   * stored before, raises the smoking alert and leaves the buckets alone.
   */
  lemma SmokingAnswerOverwrites(c: Collected, r: Answer, g: Gender)
    requires IsSmokingTag(r.tag)
    ensures var first := if |ResponseValues(r)| > 0 then ResponseValues(r)[0] else 0.0;
            Step(c, r, g) == if r.tag == SmokingCigarettesTag
                             then c.(cigarettes := first, smokingAlert := true)
                             else c.(years := first, smokingAlert := true)
  {
    SmokingTagsNotIntercepted(r.tag);
    SmokingTagsAreLifestyle(r.tag);
    DispatchLifestyle(c, SpecialRoute(r.tag), GetResponseCategory(r.tag), r, g);
  }

  /** An answer the lifestyle row takes (not intercepted) goes through the lifestyle step. */
  lemma DispatchLifestyle(c: Collected, route: Option<Special>, category: Option<Category>, r: Answer, g: Gender)
    requires route.None? && category == Some(Lifestyle)
    ensures Dispatch(c, route, category, r, g) == LifestyleStep(c, r.tag, ResponseValues(r))
  {
  }

  /** A cholesterol answer of 0 is recorded as unknown, without a value, and still scores 0.0. */
  lemma CholesterolZeroIsUnknown(c: Collected)
    ensures CholesterolStep(c, Some(0.0)).cholesterol == LabReading(None, true)
    ensures BucketOf(CholesterolStep(c, Some(0.0)).buckets, MedicoBiological)
            == BucketOf(c.buckets, MedicoBiological) + [0.0]
  {
  }

  /**
   * The diseases step appends the texts of the selected options, in order, then the free
   * text when there is one; the earlier entries and the rest of the record are kept.
   */
  lemma DiseasesStepAppends(c: Collected, selected: seq<Choice>, freeText: string)
    ensures var d := DiseasesStep(c, selected, freeText).diseases;
            && |d| == |c.diseases| + |selected| + (if freeText != "" then 1 else 0)
            && d[..|c.diseases|] == c.diseases
            && (forall i :: 0 <= i < |selected| ==> d[|c.diseases| + i] == selected[i].text)
            && (freeText != "" ==> d[|d| - 1] == freeText)
    ensures DiseasesStep(c, selected, freeText) == c.(diseases := DiseasesStep(c, selected, freeText).diseases)
  {
    var d := DiseasesStep(c, selected, freeText).diseases;
    assert d[..|c.diseases|] == c.diseases;
  }

  /**
   * The blood-pressure step clears the unknown flag exactly when the text parses as a
   * "systolic/diastolic" reading, which it then stores; otherwise the previous readings stay
   * and only the flag is raised. Nothing but the blood-pressure slot changes.
   */
  lemma BloodPressureStepReading(c: Collected, text: string)
    ensures BloodPressureStep(c, text).bp.unknown <==> ParseBloodPressure(text).None?
    ensures ParseBloodPressure(text).None? ==> BloodPressureStep(c, text).bp == c.bp.(unknown := true)
    ensures ParseBloodPressure(text).Some? ==>
              var reading := ParseBloodPressure(text).value;
              BloodPressureStep(c, text).bp == BpData(Some(reading.0), Some(reading.1), false)
    ensures BloodPressureStep(c, text) == c.(bp := BloodPressureStep(c, text).bp)
  {
    CountZero(text, '/');
  }

  // ---------------------------------------------------------------- the per-topic lists

  /** The weights an answer adds to the list of topic `t`. */
  function TopicContribution(r: Answer, t: Topic): seq<real> {
    if SpecialRoute(r.tag) == Some(Side(t)) then ResponseValues(r) else []
  }

  function TopicContributions(rs: seq<Answer>, t: Topic): seq<real> {
    if rs == [] then [] else TopicContributions(rs[..|rs| - 1], t) + TopicContribution(rs[|rs| - 1], t)
  }

  lemma SpecialStepTopic(c: Collected, sp: Special, r: Answer, g: Gender, t: Topic)
    ensures TopicValues(SpecialStep(c, sp, r, ResponseValues(r), g).topics, t)
            == TopicValues(c.topics, t) + (if sp == Side(t) then ResponseValues(r) else [])
  {
  }

  /** A tag that is not intercepted leaves the per-topic lists alone. */
  lemma CategoryStepTopics(c: Collected, category: Option<Category>, r: Answer, g: Gender)
    ensures Dispatch(c, None, category, r, g).topics == c.topics
  {
  }

  /** One answer adds exactly its own weights to the list of every topic. */
  lemma StepTopic(c: Collected, r: Answer, g: Gender, t: Topic)
    ensures TopicValues(Step(c, r, g).topics, t) == TopicValues(c.topics, t) + TopicContribution(r, t)
  {
    var route, category := SpecialRoute(r.tag), GetResponseCategory(r.tag);
    if route.Some? {
      SpecialStepTopic(c, route.value, r, g, t);
    } else {
      CategoryStepTopics(c, category, r, g);
    }
  }

  /** Each topic's list is the concatenation, in answer order, of what each answer adds to it. */
  lemma {:induction false} CollectTopics(rs: seq<Answer>, g: Gender, t: Topic)
    ensures TopicValues(Collect(rs, g).topics, t) == TopicContributions(rs, t)
  {
    if rs != [] {
      CollectTopics(rs[..|rs| - 1], g, t);
      StepTopic(Collect(rs[..|rs| - 1], g), rs[|rs| - 1], g, t);
    }
  }

  /** Some answer routed to topic `t` carries a weight in `targets`. */
  predicate SomeAnswerIn(rs: seq<Answer>, t: Topic, targets: set<real>) {
    exists i :: 0 <= i < |rs| && AnyIn(TopicContribution(rs[i], t), targets)
  }

  /** `SomeAnswerIn` for any way `f` of reading values off an answer. */
  predicate SomeAnswerHas(rs: seq<Answer>, f: Answer -> seq<real>, targets: set<real>) {
    exists i :: 0 <= i < |rs| && AnyIn(f(rs[i]), targets)
  }

  lemma SomeAnswerHasLast(rs: seq<Answer>, f: Answer -> seq<real>, targets: set<real>)
    requires rs != []
    ensures SomeAnswerHas(rs, f, targets)
            <==> SomeAnswerHas(rs[..|rs| - 1], f, targets) || AnyIn(f(rs[|rs| - 1]), targets)
  {
    var init := rs[..|rs| - 1];
    if SomeAnswerHas(rs, f, targets) {
      var i :| 0 <= i < |rs| && AnyIn(f(rs[i]), targets);
      if i < |init| {
        assert rs[i] == init[i];
      }
    }
    if SomeAnswerHas(init, f, targets) {
      var i :| 0 <= i < |init| && AnyIn(f(init[i]), targets);
      assert rs[i] == init[i];
    }
  }

  lemma SomeAnswerInIsHas(rs: seq<Answer>, t: Topic, targets: set<real>)
    ensures SomeAnswerIn(rs, t, targets) <==> SomeAnswerHas(rs, r => TopicContribution(r, t), targets)
  {
  }

  lemma {:induction false} TopicContributionsAnyIn(rs: seq<Answer>, t: Topic, targets: set<real>)
    ensures AnyIn(TopicContributions(rs, t), targets) <==> SomeAnswerIn(rs, t, targets)
  {
    var f := r => TopicContribution(r, t);
    SomeAnswerInIsHas(rs, t, targets);
    if rs != [] {
      var init, last := rs[..|rs| - 1], rs[|rs| - 1];
      TopicContributionsAnyIn(init, t, targets);
      SomeAnswerInIsHas(init, t, targets);
      AnyInAppend(TopicContributions(init, t), TopicContribution(last, t), targets);
      SomeAnswerHasLast(rs, f, targets);
    }
  }

  lemma PostProcessIssues(c: Collected, bmi: BmiData, g: Gender)
    ensures PostProcess(c, bmi, g).flags.issues == IssueTopics(c.topics)
  {
  }

  /**
   * After all answers are collected and post-processed, a single-flag topic is reported as an
   * issue exactly when some answer routed to it carries a weight of its issue set.
   */
  lemma IssueRaisedIff(rs: seq<Answer>, bmi: BmiData, g: Gender, t: Topic)
    ensures t in PostProcess(Collect(rs, g), bmi, g).flags.issues
            <==> t in PlainTopics && SomeAnswerIn(rs, t, IssueSet(t))
  {
    var c := Collect(rs, g);
    PostProcessIssues(c, bmi, g);
    CollectTopics(rs, g, t);
    IssueOfTopicList(c.topics, rs, t);
  }

  lemma IssueOfTopicList(topics: map<Topic, seq<real>>, rs: seq<Answer>, t: Topic)
    requires TopicValues(topics, t) == TopicContributions(rs, t)
    ensures t in IssueTopics(topics) <==> t in PlainTopics && SomeAnswerIn(rs, t, IssueSet(t))
  {
    TopicContributionsAnyIn(rs, t, IssueSet(t));
  }

  // ---------------------------------------------------------------- what every reachable record satisfies

  /**
   * Every category has its bucket, stored circumferences are in [50, 200] and a stored
   * laboratory value is never 0 (a 0 answer is recorded as unknown instead).
   */
  predicate WellFormed(c: Collected) {
    && c.buckets.Keys == CategorySet
    && (c.waist.Some? ==> ValidCircumference(c.waist.value))
    && (c.hip.Some? ==> ValidCircumference(c.hip.value))
    && c.cholesterol.value != Some(0.0)
    && c.glucose.value != Some(0.0)
  }

  lemma SpecialStepWellFormed(c: Collected, sp: Special, r: Answer, values: seq<real>, g: Gender)
    requires WellFormed(c)
    ensures WellFormed(SpecialStep(c, sp, r, values, g))
  {
    match sp
    case Waist =>
    case Hip =>
    case Cholesterol =>
    case Glucose =>
    case Diseases =>
    case BloodPressure =>
    case Side(_) =>
    case Mark(_) =>
  }

  lemma ExtendWellFormed(c: Collected, cat: Category, values: seq<real>)
    requires WellFormed(c)
    ensures WellFormed(c.(buckets := ExtendBucket(c.buckets, cat, values)))
  {
    assert cat in CategorySet by {
      match cat
      case Stress =>
      case Nutrition =>
      case EatingBehavior =>
      case WorkAssessment =>
      case Lifestyle =>
      case MedicoBiological =>
    }
  }

  lemma DispatchWellFormed(c: Collected, route: Option<Special>, category: Option<Category>, r: Answer, g: Gender)
    requires WellFormed(c)
    ensures WellFormed(Dispatch(c, route, category, r, g))
  {
    if route.Some? {
      SpecialStepWellFormed(c, route.value, r, ResponseValues(r), g);
    } else if category.Some? {
      ExtendWellFormed(c, category.value, ResponseValues(r));
    }
  }

  lemma StepWellFormed(c: Collected, r: Answer, g: Gender)
    requires WellFormed(c)
    ensures WellFormed(Step(c, r, g))
  {
    DispatchWellFormed(c, SpecialRoute(r.tag), GetResponseCategory(r.tag), r, g);
  }

  lemma {:induction false} CollectWellFormed(rs: seq<Answer>, g: Gender)
    ensures WellFormed(Collect(rs, g))
  {
    if rs == [] {
      assert Initial.buckets.Keys == CategorySet;
    } else {
      CollectWellFormed(rs[..|rs| - 1], g);
      StepWellFormed(Collect(rs[..|rs| - 1], g), rs[|rs| - 1], g);
    }
  }

  /** What post-processing appends to bucket `cat`. */
  function PostScores(c: Collected, bmi: BmiData, g: Gender, cat: Category): seq<real> {
    if cat == MedicoBiological then MedicoScores(c, bmi, g)
    else if cat == Lifestyle then SmokingScores(c.cigarettes, c.years)
    else []
  }

  /** Each post-processing score is within [0, 1], and at most four are added to one bucket. */
  lemma PostScoresInUnit(c: Collected, bmi: BmiData, g: Gender, cat: Category)
    ensures |PostScores(c, bmi, g, cat)| <= 4
    ensures forall i :: 0 <= i < |PostScores(c, bmi, g, cat)| ==> 0.0 <= PostScores(c, bmi, g, cat)[i] <= 1.0
  {
  }

  /** Post-processing keeps the record well formed. */
  lemma PostProcessWellFormed(c: Collected, bmi: BmiData, g: Gender)
    requires WellFormed(c)
    ensures WellFormed(PostProcess(c, bmi, g))
  {
    var withSmoking := ExtendBucket(c.buckets, Lifestyle, SmokingScores(c.cigarettes, c.years));
    assert withSmoking.Keys == CategorySet;
  }

  /**
   * Post-processing appends the smoking score to the lifestyle bucket and the medico-biological
   * scores to that bucket, and leaves the other buckets as they were.
   */
  lemma PostProcessScores(c: Collected, bmi: BmiData, g: Gender, cat: Category)
    ensures BucketOf(PostProcess(c, bmi, g).buckets, cat) == BucketOf(c.buckets, cat) + PostScores(c, bmi, g, cat)
  {
    if cat != MedicoBiological && cat != Lifestyle {
      assert PostScores(c, bmi, g, cat) == [];
    }
  }

  // ---------------------------------------------------------------- the record, updated in place

  class ResponseData {
    var buckets: map<Category, seq<real>>
    var topics: map<Topic, seq<real>>
    var diseases: seq<string>
    var waist: Option<real>
    var hip: Option<real>
    var bp: BpData
    var cholesterol: LabReading
    var glucose: LabReading
    var cigarettes: real
    var years: real
    var marks: set<Marker>
    var smokingAlert: bool
    var flags: IssueFlags

    /** The record's current contents as a value. */
    function Snapshot(): Collected
      reads this
    {
      Collected(buckets, topics, diseases, waist, hip, bp, cholesterol, glucose,
                cigarettes, years, marks, smokingAlert, flags)
    }

    constructor ()
      ensures Snapshot() == Initial
    {
      buckets := EmptyBuckets;
      topics := map[];
      diseases := [];
      waist := None;
      hip := None;
      bp := BpData(None, None, false);
      cholesterol := LabReading(None, false);
      glucose := LabReading(None, false);
      cigarettes := 0.0;
      years := 0.0;
      marks := {};
      smokingAlert := false;
      flags := NoFlags;
    }

    method HandleWaistMeasurement(response: Answer, gender: Gender)
      modifies this
      ensures Snapshot() == WaistStep(old(Snapshot()), response.numeric, gender)
    {
      if response.numeric.None? {
        return;
      }
      var waistValue := response.numeric.value;
      if 50.0 <= waistValue <= 200.0 {
        var waistScore: real;
        if gender == Male {
          waistScore := if waistValue <= 94.0 then 1.0 else 0.0;
        } else {
          waistScore := if waistValue <= 80.0 then 1.0 else 0.0;
        }
        buckets := ExtendBucket(buckets, MedicoBiological, [waistScore]);
        waist := Some(waistValue);
      }
    }

    method HandleHipMeasurement(response: Answer)
      modifies this
      ensures Snapshot() == HipStep(old(Snapshot()), response.numeric)
    {
      if response.numeric.None? {
        return;
      }
      var hipValue := response.numeric.value;
      if 50.0 <= hipValue <= 200.0 {
        hip := Some(hipValue);
      }
    }

    method HandleCholesterol(response: Answer)
      modifies this
      ensures Snapshot() == CholesterolStep(old(Snapshot()), response.numeric)
    {
      if response.numeric.Some? {
        var value := response.numeric.value;
        if value == 0.0 {
          cholesterol := LabReading(None, true);
        } else {
          cholesterol := LabReading(Some(value), false);
        }
        var cholesterolScore := if 0.0 < value <= 5.5 then 1.0 else 0.0;
        buckets := ExtendBucket(buckets, MedicoBiological, [cholesterolScore]);
      } else {
        cholesterol := cholesterol.(unknown := true);
      }
    }

    method HandleGlucose(response: Answer)
      modifies this
      ensures Snapshot() == GlucoseStep(old(Snapshot()), response.numeric)
    {
      if response.numeric.Some? {
        var value := response.numeric.value;
        if value == 0.0 {
          glucose := LabReading(None, true);
        } else {
          glucose := LabReading(Some(value), false);
        }
      } else {
        glucose := glucose.(unknown := true);
      }
    }

    method HandleDiseases(response: Answer)
      modifies this
      ensures Snapshot() == DiseasesStep(old(Snapshot()), response.selected, response.freeText)
    {
      diseases := diseases + Texts(response.selected);
      if response.freeText != "" {
        diseases := diseases + [response.freeText];
      }
    }

    method HandleBloodPressure(response: Answer)
      modifies this
      ensures Snapshot() == BloodPressureStep(old(Snapshot()), response.freeText)
    {
      var text := response.freeText;
      if text == "" {
        bp := bp.(unknown := true);
        return;
      }
      if '/' in text {
        var reading := ParseBloodPressure(text);
        if reading.Some? {
          bp := BpData(Some(reading.value.0), Some(reading.value.1), false);
        } else {
          bp := bp.(unknown := true);
        }
      } else {
        bp := bp.(unknown := true);
      }
    }

    method HandleLifestyleResponse(response: Answer, values: seq<real>)
      modifies this
      ensures Snapshot() == LifestyleStep(old(Snapshot()), response.tag, values)
    {
      var tag := response.tag;
      if tag == SmokingCigarettesTag {
        cigarettes := if |values| > 0 then values[0] else 0.0;
        smokingAlert := true;
      } else if tag == SmokingYearsTag {
        years := if |values| > 0 then values[0] else 0.0;
        smokingAlert := true;
      } else {
        buckets := ExtendBucket(buckets, Lifestyle, values);
      }
    }

    /** Handles an intercepted tag and reports whether the tag was one. */
    method HandleSpecialQuestions(response: Answer, values: seq<real>, gender: Gender)
      returns (handled: bool)
      modifies this
      ensures handled <==> SpecialRoute(response.tag).Some?
      ensures handled ==> Snapshot() == SpecialStep(old(Snapshot()), SpecialRoute(response.tag).value, response, values, gender)
      ensures !handled ==> Snapshot() == old(Snapshot())
    {
      var route := SpecialRoute(response.tag);
      if route.None? {
        return false;
      }
      match route.value {
        case Waist => HandleWaistMeasurement(response, gender);
        case Hip => HandleHipMeasurement(response);
        case Cholesterol => HandleCholesterol(response);
        case Glucose => HandleGlucose(response);
        case Diseases => HandleDiseases(response);
        case BloodPressure => HandleBloodPressure(response);
        case Side(t) => topics := ExtendTopic(topics, t, values);
        case Mark(m) => marks := marks + {m};
      }
      return true;
    }

    method ProcessSingleResponse(response: Answer, gender: Gender)
      modifies this
      ensures Snapshot() == Step(old(Snapshot()), response, gender)
    {
      ghost var before := Snapshot();
      var category := GetResponseCategory(response.tag);
      var values := ResponseValues(response);
      var handled := HandleSpecialQuestions(response, values, gender);
      if handled {
        return;
      }
      if category == Some(Lifestyle) {
        DispatchLifestyle(before, SpecialRoute(response.tag), category, response, gender);
        HandleLifestyleResponse(response, values);
      } else if category.Some? {
        buckets := ExtendBucket(buckets, category.value, values);
      }
    }

    /** Appends the capped smoking index when both smoking answers are positive. */
    method AddSmokingScore()
      modifies this
      ensures Snapshot() == old(Snapshot()).(buckets := ExtendBucket(old(buckets), Lifestyle, SmokingScores(cigarettes, years)))
    {
      var scores: seq<real> := [];
      if cigarettes > 0.0 && years > 0.0 {
        var smokingIndex := cigarettes * years / 20.0;
        scores := [if 1.0 < smokingIndex then 1.0 else smokingIndex];
      }
      assert scores == SmokingScores(cigarettes, years);
      buckets := ExtendBucket(buckets, Lifestyle, scores);
    }

    /** Appends the BMI, ratio, blood-pressure and glucose scores. */
    method AddMedicoScores(bmi: BmiData, gender: Gender)
      modifies this
      ensures Snapshot() == old(Snapshot()).(buckets := ExtendBucket(old(buckets), MedicoBiological, MedicoScores(old(Snapshot()), bmi, gender)))
    {
      var medico := [BmiScore(bmi.category)];
      if waist.Some? && hip.Some? && hip.value > 0.0 {
        var ratio := waist.value / hip.value;
        var ratioScore: real;
        if gender == Male {
          ratioScore := if ratio < 0.9 then 1.0 else 0.0;
        } else {
          ratioScore := if ratio < 0.85 then 1.0 else 0.0;
        }
        medico := medico + [ratioScore];
      }
      assert medico == [BmiScore(bmi.category)] + RatioScores(waist, hip, gender);
      var bpScore := if GetBpStatus(bp) == BpNormal then 1.0 else 0.0;
      assert bpScore == BpScore(bp);
      var glucoseScore: real;
      if !glucose.unknown && glucose.value.Some? {
        var value := glucose.value.value;
        if value > 6.1 {
          glucoseScore := 0.0;
        } else if value > 5.6 {
          glucoseScore := 0.0;
        } else {
          glucoseScore := 1.0;
        }
      } else {
        glucoseScore := 0.0;
      }
      assert glucoseScore == GlucoseScore(glucose);
      medico := medico + [bpScore] + [glucoseScore];
      assert medico == MedicoScores(Snapshot(), bmi, gender);
      buckets := ExtendBucket(buckets, MedicoBiological, medico);
    }

    method PostProcessData(bmi: BmiData, gender: Gender)
      modifies this
      ensures Snapshot() == PostProcess(old(Snapshot()), bmi, gender)
    {
      AddSmokingScore();
      AddMedicoScores(bmi, gender);
      flags := ComputeFlags(topics);
    }
  }

  /** Folds every answer into a fresh record, then post-processes it. */
  method ProcessResponses(responses: seq<Answer>, bmi: BmiData, gender: Gender)
    returns (data: ResponseData)
    ensures fresh(data)
    ensures data.Snapshot() == PostProcess(Collect(responses, gender), bmi, gender)
  {
    data := new ResponseData();
    for i := 0 to |responses|
      invariant data.Snapshot() == Collect(responses[..i], gender)
    {
      data.ProcessSingleResponse(responses[i], gender);
      assert responses[..i + 1][..i] == responses[..i];
    }
    assert responses[..|responses|] == responses;
    data.PostProcessData(bmi, gender);
  }
}
