/**
 * Averaging of the collected scores: the non-zero average of one bucket, the per-category
 * averages (lifestyle values capped at 1.0), the total score and the rating label.
 */
module Averaging {
  import opened Taxonomy

  function Sum(s: seq<real>): real {
    if s == [] then 0.0 else s[0] + Sum(s[1..])
  }

  /** The strictly positive elements of `s`, in order. */
  function Positives(s: seq<real>): (r: seq<real>)
    ensures |r| <= |s|
    ensures forall i :: 0 <= i < |r| ==> r[i] > 0.0
    ensures forall x :: x in r <==> x in s && x > 0.0
  {
    if s == [] then []
    else if s[0] > 0.0 then [s[0]] + Positives(s[1..])
    else Positives(s[1..])
  }

  /** Each positive value is kept as often as it occurs, and every other value is dropped. */
  lemma {:induction false} PositivesCount(s: seq<real>)
    ensures forall x :: multiset(Positives(s))[x] == if x > 0.0 then multiset(s)[x] else 0
  {
    if s != [] {
      PositivesCount(s[1..]);
      assert s == [s[0]] + s[1..];
    }
  }

  lemma PositivesCons(x: real, t: seq<real>)
    ensures Positives([x] + t) == (if x > 0.0 then [x] else []) + Positives(t)
  {
    assert ([x] + t)[1..] == t;
  }

  /** The inductive step of `PositivesAppend`: one more value in front of `a`. */
  lemma PositivesAppendStep(x: real, a: seq<real>, b: seq<real>)
    requires Positives(a + b) == Positives(a) + Positives(b)
    ensures Positives([x] + a + b) == Positives([x] + a) + Positives(b)
  {
    var c := if x > 0.0 then [x] else [];
    ConcatAssoc([x], a, b);
    PositivesCons(x, a + b);
    PositivesCons(x, a);
    ConcatAssoc(c, Positives(a), Positives(b));
  }

  lemma ConcatAssoc<T>(a: seq<T>, b: seq<T>, c: seq<T>)
    ensures a + (b + c) == a + b + c
  {
  }

  /** The filter keeps the order of the values: filtering a concatenation filters each part. */
  lemma {:induction false} PositivesAppend(a: seq<real>, b: seq<real>)
    ensures Positives(a + b) == Positives(a) + Positives(b)
  {
    if a == [] {
      assert a + b == b;
    } else {
      PositivesAppend(a[1..], b);
      PositivesAppendStep(a[0], a[1..], b);
      assert a == [a[0]] + a[1..];
    }
  }

  /** Filtering twice changes nothing. */
  lemma {:induction false} PositivesIdempotent(s: seq<real>)
    ensures Positives(Positives(s)) == Positives(s)
  {
    if s != [] {
      PositivesIdempotent(s[1..]);
      if s[0] > 0.0 {
        assert ([s[0]] + Positives(s[1..]))[1..] == Positives(s[1..]);
      }
    }
  }

  /** The mean of the positive values; 0.0 when there are none, and never negative. */
  function SafeAverage(s: seq<real>): (r: real)
    ensures r >= 0.0
    ensures r == 0.0 <==> forall i :: 0 <= i < |s| ==> s[i] <= 0.0
  {
    var p := Positives(s);
    if |p| == 0 then
      assert forall i :: 0 <= i < |s| ==> s[i] <= 0.0 by {
        forall i | 0 <= i < |s| ensures s[i] <= 0.0 {
          assert s[i] in s;
        }
      }
      0.0
    else
      SumPositive(p);
      assert p[0] in s;
      Sum(p) / (|p| as real)
  }

  /** Values at or below zero are ignored: averaging the positive values alone gives the same result. */
  lemma SafeAverageIgnoresNonPositive(s: seq<real>)
    ensures SafeAverage(s) == SafeAverage(Positives(s))
  {
    PositivesIdempotent(s);
  }

  /** A zero is skipped, so 1.0 and 0.5 average to 0.75. */
  lemma SafeAverageExample()
    ensures SafeAverage([0.0, 1.0, 0.5]) == 0.75
  {
    assert [0.0, 1.0, 0.5][1..] == [1.0, 0.5];
    assert [1.0, 0.5][1..] == [0.5];
    assert [0.5][1..] == [];
    assert Positives([0.0, 1.0, 0.5]) == [1.0, 0.5];
    assert Sum([1.0, 0.5]) == 1.5;
  }

  lemma {:induction false} SumBounds(s: seq<real>, lo: real, hi: real)
    requires forall i :: 0 <= i < |s| ==> lo <= s[i] <= hi
    ensures (|s| as real) * lo <= Sum(s) <= (|s| as real) * hi
  {
    if s != [] {
      SumBounds(s[1..], lo, hi);
    }
  }

  lemma DivisionBounds(total: real, n: real, lo: real, hi: real)
    requires n > 0.0 && n * lo <= total <= n * hi
    ensures lo <= total / n <= hi
  {
    var a := total / n;
    assert a * n == total;
    assert (a - lo) * n >= 0.0;
    assert (hi - a) * n >= 0.0;
  }

  /** With at least one positive value, the average lies within any bounds of those values. */
  lemma SafeAverageBounds(s: seq<real>, lo: real, hi: real)
    requires exists i :: 0 <= i < |s| && s[i] > 0.0
    requires forall i :: 0 <= i < |s| && s[i] > 0.0 ==> lo <= s[i] <= hi
    ensures lo <= SafeAverage(s) <= hi
  {
    var p := Positives(s);
    var k :| 0 <= k < |s| && s[k] > 0.0;
    assert s[k] in p;
    forall i | 0 <= i < |p|
      ensures lo <= p[i] <= hi
    {
      assert p[i] in s;
    }
    MeanBounds(p, lo, hi);
  }

  /** The mean of a non-empty sequence lies within any bounds of its elements. */
  lemma MeanBounds(p: seq<real>, lo: real, hi: real)
    requires |p| > 0
    requires forall i :: 0 <= i < |p| ==> lo <= p[i] <= hi
    ensures lo <= Sum(p) / (|p| as real) <= hi
  {
    SumBounds(p, lo, hi);
    DivisionBounds(Sum(p), |p| as real, lo, hi);
  }

  lemma {:induction false} NoPositives(s: seq<real>)
    requires forall i :: 0 <= i < |s| ==> s[i] <= 0.0
    ensures Positives(s) == []
  {
    if s != [] {
      NoPositives(s[1..]);
    }
  }

  lemma {:induction false} SumPositive(p: seq<real>)
    requires |p| > 0
    requires forall i :: 0 <= i < |p| ==> p[i] > 0.0
    ensures Sum(p) / (|p| as real) > 0.0
  {
    SumNonNegative(p[1..]);
  }

  lemma {:induction false} SumNonNegative(p: seq<real>)
    requires forall i :: 0 <= i < |p| ==> p[i] > 0.0
    ensures Sum(p) >= 0.0
  {
    if p != [] {
      SumNonNegative(p[1..]);
    }
  }

  /** Scores that are all 0.0 or 1.0 average to 0.0 or 1.0: zeros are skipped, not counted. */
  lemma BinaryScoresAverage(s: seq<real>)
    requires forall i :: 0 <= i < |s| ==> s[i] == 0.0 || s[i] == 1.0
    ensures SafeAverage(s) == 0.0 || SafeAverage(s) == 1.0
  {
    if exists i :: 0 <= i < |s| && s[i] > 0.0 {
      SafeAverageBounds(s, 1.0, 1.0);
    }
  }

  /** Lifestyle values are capped at 1.0 before averaging. */
  function Capped(s: seq<real>): (r: seq<real>)
    ensures |r| == |s|
    ensures forall i :: 0 <= i < |s| ==> r[i] <= 1.0 && (s[i] <= 1.0 ==> r[i] == s[i])
    ensures forall i :: 0 <= i < |s| ==> (s[i] > 1.0 ==> r[i] == 1.0)
  {
    seq(|s|, i requires 0 <= i < |s| => if 1.0 < s[i] then 1.0 else s[i])
  }

  /** What one category's average is: lifestyle values capped first, then the non-zero mean. */
  function CategoryAverage(c: Category, values: seq<real>): real {
    SafeAverage(if c == Lifestyle then Capped(values) else values)
  }

  /** The lifestyle average never exceeds 1.0, whatever its values. */
  lemma LifestyleAverageAtMostOne(values: seq<real>)
    ensures 0.0 <= CategoryAverage(Lifestyle, values) <= 1.0
  {
    var capped := Capped(values);
    if exists i :: 0 <= i < |capped| && capped[i] > 0.0 {
      var k :| 0 <= k < |capped| && capped[k] > 0.0;
      SafeAverageBounds(capped, 0.0, 1.0);
    }
  }

  /** Averages of every category, keyed as the input is. */
  method CalculateCategoryAverages(categoryValues: map<Category, seq<real>>)
    returns (averages: map<Category, real>)
    ensures averages.Keys == categoryValues.Keys
    ensures forall c :: c in categoryValues ==> averages[c] == CategoryAverage(c, categoryValues[c])
  {
    averages := map[];
    var todo := categoryValues.Keys;
    while todo != {}
      invariant todo <= categoryValues.Keys
      invariant averages.Keys == categoryValues.Keys - todo
      invariant forall c :: c in averages ==> averages[c] == CategoryAverage(c, categoryValues[c])
      decreases todo
    {
      var c :| c in todo;
      var values := categoryValues[c];
      if c == Lifestyle {
        values := Capped(values);
      }
      var avg := if |values| > 0 then SafeAverage(values) else 0.0;
      averages := averages[c := avg];
      todo := todo - {c};
    }
  }

  /** The averages in category order, skipping categories the map does not hold. */
  function AverageValues(averages: map<Category, real>, cs: seq<Category>): (r: seq<real>)
    ensures |r| <= |cs|
    ensures forall x :: x in r ==> exists c :: c in cs && c in averages && averages[c] == x
    ensures forall c :: c in cs && c in averages ==> averages[c] in r
    ensures (forall c :: c in cs ==> c in averages) ==>
              |r| == |cs| && forall i :: 0 <= i < |r| ==> r[i] == averages[cs[i]]
  {
    if cs == [] then []
    else (if cs[0] in averages then [averages[cs[0]]] else []) + AverageValues(averages, cs[1..])
  }

  /**
   * The total score: the mean of the positive category averages, 0.0 if there are none.
   * Its pre-filter is redundant, so it is the non-zero mean of the averages.
   */
  function TotalScore(averages: map<Category, real>): (r: real)
    ensures r == SafeAverage(AverageValues(averages, AllCategories))
  {
    var values := AverageValues(averages, AllCategories);
    PositivesIdempotent(values);
    var totalValues := Positives(values);
    if |totalValues| > 0 then SafeAverage(totalValues) else 0.0
  }

  /** With every category average in [0, 1], the total is in [0, 1]; it is 0.0 iff none is positive. */
  lemma TotalScoreBounds(averages: map<Category, real>)
    requires forall c :: c in averages ==> 0.0 <= averages[c] <= 1.0
    ensures 0.0 <= TotalScore(averages) <= 1.0
    ensures TotalScore(averages) == 0.0 <==> forall c :: c in averages ==> averages[c] <= 0.0
  {
    var vs := AverageValues(averages, AllCategories);
    forall c | c in averages
      ensures averages[c] in vs
    {
      assert c in AllCategories by {
        match c
        case Stress => assert AllCategories[0] == c;
        case Nutrition => assert AllCategories[1] == c;
        case EatingBehavior => assert AllCategories[2] == c;
        case WorkAssessment => assert AllCategories[3] == c;
        case Lifestyle => assert AllCategories[4] == c;
        case MedicoBiological => assert AllCategories[5] == c;
      }
    }
    forall i | 0 <= i < |vs|
      ensures 0.0 <= vs[i] <= 1.0
    {
      assert vs[i] in vs;
    }
    if exists i :: 0 <= i < |vs| && vs[i] > 0.0 {
      SafeAverageBounds(vs, 0.0, 1.0);
      var k :| 0 <= k < |vs| && vs[k] > 0.0;
      assert vs[k] in vs;
      var c :| c in AllCategories && c in averages && averages[c] == vs[k];
    }
  }

  /** The rating labels, lowest first; NoData is the label of an empty questionnaire. */
  datatype Grade = NoData | Unsatisfactory | Satisfactory | Acceptable | Optimal

  function GradeLabel(g: Grade): string {
    match g
    case NoData => "Нет данных"
    case Unsatisfactory => "Неудовлетворительный"
    case Satisfactory => "Удовлетворительный"
    case Acceptable => "Допустимый"
    case Optimal => "Оптимальный"
  }

  function GradeRank(g: Grade): nat {
    match g
    case NoData => 0
    case Unsatisfactory => 1
    case Satisfactory => 2
    case Acceptable => 3
    case Optimal => 4
  }

  /** The rating of a total score: upper bounds 0.47, 0.67 and 0.89, inclusive. */
  function DetermineRating(totalScore: real): (r: Grade)
    ensures r != NoData
    ensures r == Unsatisfactory <==> totalScore <= 0.47
    ensures r == Satisfactory <==> 0.47 < totalScore <= 0.67
    ensures r == Acceptable <==> 0.67 < totalScore <= 0.89
    ensures r == Optimal <==> 0.89 < totalScore
  {
    if totalScore <= 0.47 then Unsatisfactory
    else if totalScore <= 0.67 then Satisfactory
    else if totalScore <= 0.89 then Acceptable
    else Optimal
  }

  /** A higher score never gets a lower rating. */
  lemma RatingMonotone(x: real, y: real)
    requires x <= y
    ensures GradeRank(DetermineRating(x)) <= GradeRank(DetermineRating(y))
  {
  }
}
