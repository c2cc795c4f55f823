/** The alternative routing classifier `classify_model` of `temp.py`: each
    feature of one query row scores a point for stacking, voting or elastic
    by its distance to the median, normalised by the interquartile range.
    The quartiles are computed by numpy and arrive as inputs. */
module IqrRouter {
  import opened Wrappers
  import Classify

  /** The `scores` dictionary, its keys in insertion order. */
  datatype Scores = Scores(stacking: nat, voting: nat, elastic: nat)

  function Total(s: Scores): nat
  {
    s.stacking + s.voting + s.elastic
  }

  /** `zip(x0, q1, q2, q3, iqr)` stops at the shortest argument. */
  function Paired(x0: seq<real>, q1: seq<real>, q2: seq<real>, q3: seq<real>): (n: nat)
    ensures n <= |x0| && n <= |q1| && n <= |q2| && n <= |q3|
    ensures n == |x0| || n == |q1| || n == |q2| || n == |q3|
  {
    var a := if |x0| <= |q1| then |x0| else |q1|;
    var b := if |q2| <= |q3| then |q2| else |q3|;
    if a <= b then a else b
  }

  datatype Point = ToStacking | ToVoting | ToElastic

  /** The point one feature earns from its normalised distance to the
      median: at most 0.25 goes to stacking, at most 0.75 to voting, anything
      larger to elastic. numpy divides by a zero range without raising, giving
      inf or nan, and both fail both comparisons; for quartiles numpy itself
      computed (Q1 <= Q3) the range is positive and that branch is dead. */
  function PointOf(xi: real, q1i: real, q2i: real, q3i: real): Point
  {
    var iqr := q3i - q1i + 0.00000001;
    if iqr == 0.0 then ToElastic
    else
      var dist := Abs(xi - q2i) / iqr;
      if dist <= 0.25 then ToStacking
      else if dist <= 0.75 then ToVoting
      else ToElastic
  }

  function Score(s: Scores, p: Point): Scores
  {
    match p
    case ToStacking => s.(stacking := s.stacking + 1)
    case ToVoting => s.(voting := s.voting + 1)
    case ToElastic => s.(elastic := s.elastic + 1)
  }

  /** The scores after the first n paired features. */
  function ScoresOf(x0: seq<real>, q1: seq<real>, q2: seq<real>, q3: seq<real>, n: nat): (s: Scores)
    requires n <= |x0| && n <= |q1| && n <= |q2| && n <= |q3|
  {
    if n == 0 then Scores(0, 0, 0)
    else Score(ScoresOf(x0, q1, q2, q3, n - 1), PointOf(x0[n - 1], q1[n - 1], q2[n - 1], q3[n - 1]))
  }

  /** Each of the first n paired features scores exactly one point. */
  lemma {:induction false} ScoresOfTotal(x0: seq<real>, q1: seq<real>, q2: seq<real>, q3: seq<real>, n: nat)
    requires n <= |x0| && n <= |q1| && n <= |q2| && n <= |q3|
    ensures Total(ScoresOf(x0, q1, q2, q3, n)) == n
  {
    if n > 0 {
      ScoresOfTotal(x0, q1, q2, q3, n - 1);
      ScoreAddsOne(ScoresOf(x0, q1, q2, q3, n - 1), PointOf(x0[n - 1], q1[n - 1], q2[n - 1], q3[n - 1]));
    }
  }

  lemma ScoreAddsOne(s: Scores, p: Point)
    ensures Total(Score(s, p)) == Total(s) + 1
  {
  }

  /** The final decision: decision_tree when there are voting and elastic
      points but no stacking point; otherwise the key with the highest score,
      ties going to the earlier key (stacking, voting, elastic). */
  function Decide(s: Scores): (name: string)
    ensures Classify.IsLabel(name)
    ensures name == Classify.DecisionTree <==> s.voting > 0 && s.elastic > 0 && s.stacking == 0
    ensures name == Classify.Stacking ==> s.stacking >= s.voting && s.stacking >= s.elastic
    ensures name == Classify.Voting ==> s.voting > s.stacking && s.voting >= s.elastic
    ensures name == Classify.Elastic ==> s.elastic > s.stacking && s.elastic > s.voting
  {
    if s.voting > 0 && s.elastic > 0 && s.stacking == 0 then Classify.DecisionTree
    else if s.stacking >= s.voting && s.stacking >= s.elastic then Classify.Stacking
    else if s.voting >= s.elastic then Classify.Voting
    else Classify.Elastic
  }

  /** The keys of `scores`, in insertion order, and their values. */
  const Keys: seq<string> := [Classify.Stacking, Classify.Voting, Classify.Elastic]

  function Values(s: Scores): (v: seq<nat>)
    ensures |v| == |Keys|
  {
    [s.stacking, s.voting, s.elastic]
  }

  /** The position of the first largest of the first n values: what `max`
      with a key function returns, since it replaces its candidate only on a
      strictly larger key. */
  function FirstArgMax(vals: seq<nat>, n: nat): (k: nat)
    requires 1 <= n <= |vals|
    ensures k < n
    ensures forall j :: 0 <= j < n ==> vals[j] <= vals[k]
    ensures forall j :: 0 <= j < k ==> vals[j] < vals[k]
  {
    if n == 1 then 0
    else
      var k := FirstArgMax(vals, n - 1);
      if vals[n - 1] > vals[k] then n - 1 else k
  }

  /** Outside the decision_tree case, the decision is the first key of
      highest score. */
  lemma DecideIsFirstMax(s: Scores)
    requires !(s.voting > 0 && s.elastic > 0 && s.stacking == 0)
    ensures Decide(s) == Keys[FirstArgMax(Values(s), |Keys|)]
  {
    var k := FirstArgMax(Values(s), |Keys|);
    assert Values(s)[0] == s.stacking && Values(s)[1] == s.voting && Values(s)[2] == s.elastic;
  }

  /** The body of the scoring loop for one feature: the range, the
      normalised distance and the bucket it falls in. */
  method Bucket(xi: real, q1i: real, q2i: real, q3i: real) returns (p: Point)
    ensures p == PointOf(xi, q1i, q2i, q3i)
  {
    var iqr := q3i - q1i + 0.00000001;
    if iqr == 0.0 {
      return ToElastic;
    }
    var dist := Abs(xi - q2i) / iqr;
    if dist <= 0.25 {
      p := ToStacking;
    } else if dist <= 0.75 {
      p := ToVoting;
    } else {
      p := ToElastic;
    }
  }

  /** `classify_model` for one query row. */
  method ClassifyModel(x0: seq<real>, q1: seq<real>, q2: seq<real>, q3: seq<real>) returns (name: string)
    ensures name == Decide(ScoresOf(x0, q1, q2, q3, Paired(x0, q1, q2, q3)))
  {
    var n := Paired(x0, q1, q2, q3);
    var stacking: nat, voting: nat, elastic: nat := 0, 0, 0;
    for i := 0 to n
      invariant Scores(stacking, voting, elastic) == ScoresOf(x0, q1, q2, q3, i)
    {
      var p := Bucket(x0[i], q1[i], q2[i], q3[i]);
      match p {
        case ToStacking => stacking := stacking + 1;
        case ToVoting => voting := voting + 1;
        case ToElastic => elastic := elastic + 1;
      }
    }
    name := Decision(Scores(stacking, voting, elastic));
  }

  /** The decision at the end of `classify_model`: decision_tree, or else
      `max(scores, key=scores.get)`, a scan of the keys in insertion order
      that keeps the first strictly larger score. */
  method Decision(s: Scores) returns (name: string)
    ensures name == Decide(s)
    ensures name != Classify.DecisionTree ==> name == Keys[FirstArgMax(Values(s), |Keys|)]
  {
    if s.voting > 0 && s.elastic > 0 && s.stacking == 0 {
      return Classify.DecisionTree;
    }
    var vals := Values(s);
    var best := 0;
    for i := 1 to |Keys|
      invariant best == FirstArgMax(vals, i)
    {
      if vals[i] > vals[best] {
        best := i;
      }
    }
    name := Keys[best];
    DecideIsFirstMax(s);
  }

  /** A row with no paired feature routes to stacking. */
  lemma NoFeatureIsStacking(x0: seq<real>, q1: seq<real>, q2: seq<real>, q3: seq<real>)
    requires Paired(x0, q1, q2, q3) == 0
    ensures Decide(ScoresOf(x0, q1, q2, q3, 0)) == Classify.Stacking
  {
  }

  /** Each paired feature scores exactly one point, and features beyond the
      shortest argument are ignored: appending to the longer arguments does
      not change the scores. */
  lemma {:induction false} ScoresIgnoreUnpaired(x0: seq<real>, q1: seq<real>, q2: seq<real>, q3: seq<real>,
                                               extra: seq<real>, n: nat)
    requires n <= |x0| && n <= |q1| && n <= |q2| && n <= |q3|
    ensures n <= |x0 + extra|
    ensures ScoresOf(x0 + extra, q1, q2, q3, n) == ScoresOf(x0, q1, q2, q3, n)
  {
    if n > 0 {
      ScoresIgnoreUnpaired(x0, q1, q2, q3, extra, n - 1);
      assert (x0 + extra)[n - 1] == x0[n - 1];
    }
  }

  /** The two routers disagree: one feature at distance 0.5·IQR from the
      median, with the standard deviation equal to the IQR, is near the
      median for `classify` (threshold 0.5·σ) but earns a voting point here. */
  lemma RoutersDisagree()
    ensures Classify.RowLabel([2.0], [Classify.FeatureStats(0.0, 1.0, 2.0, 2.0)]) == Classify.Stacking
    ensures Decide(ScoresOf([2.0], [0.0], [1.0], [2.0], 1)) == Classify.Voting
  {
    assert [2.0][..0] == [];
    var d := Abs(2.0 - 1.0) / (2.0 - 0.0 + 0.00000001);
    assert 0.25 < d <= 0.75;
    assert PointOf(2.0, 0.0, 1.0, 2.0) == ToVoting;
  }
}
