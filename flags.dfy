/**
 * The issue flags derived after all answers are collected: for each per-topic list of
 * answer weights, whether a low weight (0, 0.5 and for some topics 0.79) was chosen.
 */
module Flags {
  import opened Taxonomy

  /** The per-topic lists; a topic nobody answered reads as the empty list. */
  function TopicValues(topics: map<Topic, seq<real>>, t: Topic): seq<real> {
    if t in topics then topics[t] else []
  }

  /** Appends answer weights to one topic's list. */
  function ExtendTopic(topics: map<Topic, seq<real>>, t: Topic, values: seq<real>): (r: map<Topic, seq<real>>)
    ensures TopicValues(r, t) == TopicValues(topics, t) + values
    ensures forall u :: u != t ==> TopicValues(r, u) == TopicValues(topics, u)
  {
    topics[t := TopicValues(topics, t) + values]
  }

  predicate AnyIn(values: seq<real>, targets: set<real>) {
    exists i :: 0 <= i < |values| && values[i] in targets
  }

  predicate AnyEq(values: seq<real>, x: real) {
    exists i :: 0 <= i < |values| && values[i] == x
  }

  predicate AllEqual(values: seq<real>, x: real) {
    forall i :: 0 <= i < |values| ==> values[i] == x
  }

  const CommonIssues: set<real> := {0.0, 0.5}
  const WideIssues: set<real> := {0.0, 0.5, 0.79}

  /** The topics summarised by a single flag (the other ten get a record of flags). */
  const PlainTopics: set<Topic> := {
    PhysicalActivity, Sleep, DigitalHygiene,
    Workplace, PhysicalLoad, WorkPace, EmotionalLoad, Fatigue, Schedule, DigitalWork,
    Breaks, LunchBreak,
    EveningMeal, Fat, Hunger, FoodReward,
    Snack, Soda, Sausage, Smoked, FatProduct, Sauce, FriedPotato, Salted, HighFatDairy, Baking,
    Grain, Legume, LeanMeat, Seafood, Liquid, SaltAddition, SpecialFood, Supplements
  }

  /** The weights that count as an issue: 0.79 as well for six topics. */
  function IssueSet(t: Topic): set<real> {
    match t
    case Breaks => WideIssues
    case Hunger => WideIssues
    case Snack => WideIssues
    case Soda => WideIssues
    case Grain => WideIssues
    case LeanMeat => WideIssues
    case _ => CommonIssues
  }

  datatype Trio = Trio(has0: bool, has05: bool, has079: bool)
  datatype Pair = Pair(has05: bool, has0: bool)
  datatype DairyFlags = DairyFlags(low: bool, has0: bool)
  datatype EmotionalFlags = EmotionalFlags(has0: bool, has05: bool, has079: bool, allHealthy: bool)

  datatype IssueFlags = IssueFlags(
    issues: set<Topic>,
    critical: Trio, extraEffort: Pair, remoteWork: Pair,
    meal: Pair, interval: Pair, breakfast: Trio, density: Pair,
    emotionalEating: EmotionalFlags, fastFood: Trio, dairy: DairyFlags)

  /** The flags before post-processing: nothing raised. */
  const NoFlags: IssueFlags := IssueFlags(
    {}, Trio(false, false, false), Pair(false, false), Pair(false, false),
    Pair(false, false), Pair(false, false), Trio(false, false, false), Pair(false, false),
    EmotionalFlags(false, false, false, false), Trio(false, false, false), DairyFlags(false, false))

  function TrioOf(values: seq<real>): Trio {
    Trio(AnyEq(values, 0.0), AnyEq(values, 0.5), AnyEq(values, 0.79))
  }

  function PairOf(values: seq<real>): Pair {
    Pair(AnyEq(values, 0.5), AnyEq(values, 0.0))
  }

  function DairyOf(values: seq<real>): DairyFlags {
    DairyFlags(AnyIn(values, {0.5, 0.79}), AnyEq(values, 0.0))
  }

  /**
   * Emotional eating reports only the worst level present: 0 hides 0.5, and either hides 0.79.
   */
  function EmotionalOf(values: seq<real>): (r: EmotionalFlags)
    ensures r.has0 <==> AnyEq(values, 0.0)
    ensures r.has05 <==> AnyEq(values, 0.5) && !AnyEq(values, 0.0)
    ensures r.has079 <==> AnyEq(values, 0.79) && !AnyEq(values, 0.0) && !AnyEq(values, 0.5)
    ensures r.allHealthy <==> AllEqual(values, 1.0)
    ensures !(r.has0 && r.has05) && !(r.has0 && r.has079) && !(r.has05 && r.has079)
    ensures (r.has0 || r.has05 || r.has079) <==> AnyIn(values, {0.0, 0.5, 0.79})
    ensures r.allHealthy ==> !(r.has0 || r.has05 || r.has079)
  {
    var has0 := AnyEq(values, 0.0);
    var has05 := AnyEq(values, 0.5) && !has0;
    var has079 := AnyEq(values, 0.79) && !(has0 || has05);
    EmotionalFlags(has0, has05, has079, AllEqual(values, 1.0))
  }

  /** A single-flag topic has an issue when one of its weights is in its issue set. */
  predicate HasIssue(topics: map<Topic, seq<real>>, t: Topic) {
    AnyIn(TopicValues(topics, t), IssueSet(t))
  }

  function IssueTopics(topics: map<Topic, seq<real>>): (r: set<Topic>)
    ensures forall t :: t in r <==> t in PlainTopics && HasIssue(topics, t)
  {
    set t | t in PlainTopics && HasIssue(topics, t)
  }

  /** All flags, computed from the per-topic lists. */
  function ComputeFlags(topics: map<Topic, seq<real>>): (r: IssueFlags)
    ensures r.issues <= PlainTopics
  {
    IssueFlags(
      IssueTopics(topics),
      TrioOf(TopicValues(topics, Critical)),
      PairOf(TopicValues(topics, ExtraEffort)),
      PairOf(TopicValues(topics, RemoteWork)),
      PairOf(TopicValues(topics, Meal)),
      PairOf(TopicValues(topics, Interval)),
      TrioOf(TopicValues(topics, Breakfast)),
      PairOf(TopicValues(topics, Density)),
      EmotionalOf(TopicValues(topics, EmotionalEating)),
      TrioOf(TopicValues(topics, FastFood)),
      DairyOf(TopicValues(topics, Dairy)))
  }

  /** With no answers at all, no issue is raised and emotional eating counts as healthy. */
  lemma NoAnswersNoIssues()
    ensures ComputeFlags(map[]).issues == {}
    ensures ComputeFlags(map[]).emotionalEating == EmotionalFlags(false, false, false, true)
    ensures ComputeFlags(map[]).dairy == DairyFlags(false, false)
  {
  }

  lemma AnyInPrefix(values: seq<real>, more: seq<real>, targets: set<real>)
    ensures AnyIn(values, targets) ==> AnyIn(values + more, targets)
  {
    if AnyIn(values, targets) {
      var k :| 0 <= k < |values| && values[k] in targets;
      assert (values + more)[k] == values[k];
    }
  }

  /** A concatenation holds a target value exactly when one of its parts does. */
  lemma AnyInAppend(a: seq<real>, b: seq<real>, targets: set<real>)
    ensures AnyIn(a + b, targets) <==> AnyIn(a, targets) || AnyIn(b, targets)
  {
    AnyInPrefix(a, b, targets);
    if AnyIn(b, targets) {
      var k :| 0 <= k < |b| && b[k] in targets;
      assert (a + b)[|a| + k] == b[k];
    }
    if AnyIn(a + b, targets) {
      var k :| 0 <= k < |a + b| && (a + b)[k] in targets;
      if k < |a| {
        assert a[k] == (a + b)[k];
      } else {
        assert b[k - |a|] == (a + b)[k];
      }
    }
  }

  /** More answers never clear a flag: appending weights to a topic keeps every raised issue. */
  lemma IssuesPersist(topics: map<Topic, seq<real>>, t: Topic, values: seq<real>)
    ensures IssueTopics(topics) <= IssueTopics(ExtendTopic(topics, t, values))
  {
    var extended := ExtendTopic(topics, t, values);
    AnyInPrefix(TopicValues(topics, t), values, IssueSet(t));
  }

  /** Likewise for the 0 / 0.5 / 0.79 records: appended weights keep every raised flag. */
  lemma TrioPersists(values: seq<real>, more: seq<real>)
    ensures var before, after := TrioOf(values), TrioOf(values + more);
            (before.has0 ==> after.has0) && (before.has05 ==> after.has05) && (before.has079 ==> after.has079)
  {
    AnyInPrefix(values, more, {0.0});
    AnyInPrefix(values, more, {0.5});
    AnyInPrefix(values, more, {0.79});
  }

  /** A lone answer of weight 1.0 raises nothing; a lone 0.79 is an issue only for the wide topics. */
  lemma SingleAnswerIssues(t: Topic)
    ensures !HasIssue(map[t := [1.0]], t)
    ensures HasIssue(map[t := [0.79]], t) <==> IssueSet(t) == WideIssues
  {
    assert TopicValues(map[t := [0.79]], t) == [0.79];
    assert TopicValues(map[t := [1.0]], t) == [1.0];
    if IssueSet(t) == WideIssues {
      assert TopicValues(map[t := [0.79]], t)[0] in IssueSet(t);
    } else {
      assert IssueSet(t) == CommonIssues;
      assert 0.79 !in IssueSet(t);
    }
  }
}
