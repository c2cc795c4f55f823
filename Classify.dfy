/** The routing classifier of the stacking endpoint (`classify.py`): each
    feature of a query row is counted as near the median, near a quartile, or
    far, and a per-row decision table turns the three counts into the name of
    the sub-model that predicts the row. The quartiles and the standard
    deviation of every feature are computed by numpy and arrive as inputs. */
module Classify {
  import opened Wrappers

  const Stacking := "stacking"
  const Voting := "voting"
  const Elastic := "elastic"
  const DecisionTree := "decision_tree"

  /** The closed set of routing labels. */
  predicate IsLabel(s: string)
  {
    s == Stacking || s == Voting || s == Elastic || s == DecisionTree
  }

  /** Q1, Q2, Q3 and the standard deviation of one training feature. */
  datatype FeatureStats = FeatureStats(q1: real, q2: real, q3: real, std: real)

  datatype Closeness = NearMedian | NearQuartile | Far

  /** One feature value against its statistics, with threshold 0.5·σ; the
      median is tested first. */
  function Bucket(v: real, st: FeatureStats): Closeness
  {
    var thresh := 0.5 * st.std;
    if Abs(v - st.q2) <= thresh then NearMedian
    else if Abs(v - st.q1) <= thresh || Abs(v - st.q3) <= thresh then NearQuartile
    else Far
  }

  /** The counters near_Q2, near_Q13 and far. */
  datatype Counts = Counts(nearQ2: nat, nearQ13: nat, far: nat)

  function Add(c: Counts, b: Closeness): Counts
  {
    match b
    case NearMedian => c.(nearQ2 := c.nearQ2 + 1)
    case NearQuartile => c.(nearQ13 := c.nearQ13 + 1)
    case Far => c.(far := c.far + 1)
  }

  /** The counters after the features of `row`, taken in order. Each
      feature adds to exactly one counter. */
  function Tally(row: seq<real>, stats: seq<FeatureStats>): (c: Counts)
    requires |row| <= |stats|
    ensures c.nearQ2 + c.nearQ13 + c.far == |row|
  {
    if row == [] then Counts(0, 0, 0)
    else
      var k := |row| - 1;
      Add(Tally(row[..k], stats), Bucket(row[k], stats[k]))
  }

  /** The decision table for a row of k features. */
  function DecideLabel(k: nat, c: Counts): (name: string)
    ensures IsLabel(name)
    ensures k <= 2 ==> name != DecisionTree
    ensures k != 1 && k != 2 && c.nearQ2 >= 2 * k / 3 ==> name == Stacking
    ensures name == DecisionTree ==>
      k >= 3 && c.nearQ13 >= k / 3 && c.far >= k / 3 &&
      c.nearQ2 < 2 * k / 3 && !(c.nearQ2 >= k / 3 && c.nearQ13 >= k / 3) &&
      c.nearQ13 < 2 * k / 3 && !(c.nearQ2 >= k / 3 && c.far >= k / 3)
  {
    if k == 1 then
      if c.nearQ2 == 1 then Stacking
      else if c.nearQ13 == 1 then Voting
      else Elastic
    else if k == 2 then
      if c.nearQ2 == 2 then Stacking
      else if c.nearQ2 == 1 && c.nearQ13 == 1 then Stacking
      else if c.nearQ13 == 2 then Voting
      else if c.nearQ2 == 1 && c.far == 1 then Voting
      else if c.nearQ13 == 1 && c.far == 1 then Elastic
      else Elastic
    else
      var third := k / 3;
      var twoThirds := 2 * k / 3;
      if c.nearQ2 >= twoThirds then Stacking
      else if c.nearQ2 >= third && c.nearQ13 >= third then Stacking
      else if c.nearQ13 >= twoThirds then Voting
      else if c.nearQ2 >= third && c.far >= third then Voting
      else if c.nearQ13 >= third && c.far >= third then DecisionTree
      else if c.far >= twoThirds then Elastic
      else Plurality(c)
  }

  /** The plurality vote of the k >= 3 table. */
  function Plurality(c: Counts): string
  {
    if c.nearQ2 >= c.nearQ13 && c.nearQ2 >= c.far then Stacking
    else if c.nearQ13 >= c.nearQ2 && c.nearQ13 >= c.far then Voting
    else Elastic
  }

  /** Whether a row of k >= 3 features passes every threshold rule and falls
      through to the plurality vote. */
  predicate ReachesPlurality(k: nat, c: Counts)
  {
    var third := k / 3;
    var twoThirds := 2 * k / 3;
    k >= 3 &&
    c.nearQ2 < twoThirds && !(c.nearQ2 >= third && c.nearQ13 >= third) &&
    c.nearQ13 < twoThirds && !(c.nearQ2 >= third && c.far >= third) &&
    !(c.nearQ13 >= third && c.far >= third) && c.far < twoThirds
  }

  /** The label of one query row. */
  function RowLabel(row: seq<real>, stats: seq<FeatureStats>): string
    requires |row| <= |stats|
  {
    DecideLabel(|row|, Tally(row, stats))
  }

  /** `classify`: one label per query row, in row order. Every row must be no
      wider than the statistics, which hold one entry per training feature. */
  method ClassifyRows(x0: seq<seq<real>>, stats: seq<FeatureStats>) returns (labels: seq<string>)
    requires forall i :: 0 <= i < |x0| ==> |x0[i]| <= |stats|
    ensures |labels| == |x0|
    ensures forall i :: 0 <= i < |x0| ==> labels[i] == RowLabel(x0[i], stats)
    ensures forall i :: 0 <= i < |labels| ==> IsLabel(labels[i])
  {
    labels := [];
    for r := 0 to |x0|
      invariant |labels| == r
      invariant forall i :: 0 <= i < r ==> labels[i] == RowLabel(x0[i], stats)
      invariant forall i :: 0 <= i < r ==> IsLabel(labels[i])
    {
      var row := x0[r];
      var nearQ2, nearQ13, far := 0, 0, 0;
      for j := 0 to |row|
        invariant Counts(nearQ2, nearQ13, far) == Tally(row[..j], stats)
      {
        var thresh := 0.5 * stats[j].std;
        if Abs(row[j] - stats[j].q2) <= thresh {
          nearQ2 := nearQ2 + 1;
        } else if Abs(row[j] - stats[j].q1) <= thresh || Abs(row[j] - stats[j].q3) <= thresh {
          nearQ13 := nearQ13 + 1;
        } else {
          far := far + 1;
        }
        assert row[..j + 1][..j] == row[..j];
      }
      assert row[..|row|] == row;
      labels := labels + [DecideLabel(|row|, Counts(nearQ2, nearQ13, far))];
    }
  }

  /** With one feature: near the median routes to stacking, near a quartile
      to voting, anything else to elastic. */
  lemma OneFeature(v: real, st: FeatureStats)
    ensures RowLabel([v], [st]) == match Bucket(v, st)
      case NearMedian => Stacking
      case NearQuartile => Voting
      case Far => Elastic
  {
    assert [v][..0] == [];
  }

  /** With two features the table decides every split of the two counts
      explicitly; the last case is exactly "both far". */
  lemma TwoFeatures(c: Counts)
    requires c.nearQ2 + c.nearQ13 + c.far == 2
    ensures DecideLabel(2, c) == Stacking <==> c.nearQ2 == 2 || (c.nearQ2 == 1 && c.nearQ13 == 1)
    ensures DecideLabel(2, c) == Voting <==> c.nearQ13 == 2 || (c.nearQ2 == 1 && c.far == 1)
    ensures DecideLabel(2, c) == Elastic <==> (c.nearQ13 == 1 && c.far == 1) || c.far == 2
  {
  }

  /** In the plurality vote ties go to stacking, then to voting: elastic wins
      only when the far count exceeds both others. */
  lemma PluralityTieBreak(k: nat, c: Counts)
    requires ReachesPlurality(k, c)
    ensures DecideLabel(k, c) == Stacking <==> c.nearQ2 >= c.nearQ13 && c.nearQ2 >= c.far
    ensures DecideLabel(k, c) == Voting <==> c.nearQ13 > c.nearQ2 && c.nearQ13 >= c.far
    ensures DecideLabel(k, c) == Elastic <==> c.far > c.nearQ2 && c.far > c.nearQ13
  {
  }

  /** When the three counts add up to k, the plurality vote is only reached
      for rows of at least nine features: below that, two counts below k/3
      leave at least 2k/3 for the third. */
  lemma PluralityNeedsNineFeatures(k: nat, c: Counts)
    requires 3 <= k <= 8
    requires c.nearQ2 + c.nearQ13 + c.far == k
    ensures !ReachesPlurality(k, c)
  {
  }

  /** From nine features on, the plurality vote is reachable: two counts of
      2 and five far features route to elastic by plurality. */
  lemma PluralityReachableAtNine()
    ensures ReachesPlurality(9, Counts(2, 2, 5))
    ensures DecideLabel(9, Counts(2, 2, 5)) == Elastic
  {
  }
}
