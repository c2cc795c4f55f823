/** Scoring of one trained model (`model_index.py`): the qualitative status,
    the composite generalization score, the data-size label and the result
    record. The metric values themselves (RMSE, MAE, R²) are computed by
    scikit-learn and arrive here as reals. */
module ModelIndex {
  import opened Wrappers
  import opened Preprocessing

  // ---------------------------------------------------------------------
  // status_of_model
  // ---------------------------------------------------------------------

  datatype Status = WeakModel | Overfit | Stable | Uncertain

  /** The default thresholds of `status_of_model`. */
  const R2Threshold: real := 0.5
  const RmseGapThreshold: real := 0.2
  const R2GapThreshold: real := 0.2

  /** `status_of_model` with its default thresholds. The RMSE gap is the raw
      difference of the two RMSEs, not a normalised one. */
  function StatusOfModel(r2Train: real, r2Test: real, rmseTrain: real, rmseTest: real): (s: Status)
    ensures r2Train < 0.5 && r2Test < 0.5 ==> s == WeakModel
    ensures s == WeakModel ==> r2Train < 0.5 && r2Test < 0.5
    ensures s == Overfit <==>
      !(r2Train < 0.5 && r2Test < 0.5) && Abs(r2Train - r2Test) > 0.2 && Abs(rmseTest - rmseTrain) > 0.2
    ensures s == Stable <==>
      !(r2Train < 0.5 && r2Test < 0.5) && Abs(r2Train - r2Test) < 0.2 && Abs(rmseTest - rmseTrain) < 0.2
    ensures s == Uncertain <==>
      !(r2Train < 0.5 && r2Test < 0.5) &&
      !(Abs(r2Train - r2Test) > 0.2 && Abs(rmseTest - rmseTrain) > 0.2) &&
      !(Abs(r2Train - r2Test) < 0.2 && Abs(rmseTest - rmseTrain) < 0.2)
  {
    var r2Gap := Abs(r2Train - r2Test);
    var rmseGap := Abs(rmseTest - rmseTrain);
    if r2Train < R2Threshold && r2Test < R2Threshold then WeakModel
    else if r2Gap > R2GapThreshold && rmseGap > RmseGapThreshold then Overfit
    else if r2Gap < R2GapThreshold && rmseGap < RmseGapThreshold then Stable
    else Uncertain
  }

  /** A gap of exactly 0.2 is neither over nor under the threshold: such a
      model is never Stable or Overfit on that account. */
  lemma GapAtThresholdIsUncertain(r2Train: real, r2Test: real, rmseTrain: real, rmseTest: real)
    requires r2Train >= 0.5
    requires Abs(r2Train - r2Test) == 0.2
    ensures StatusOfModel(r2Train, r2Test, rmseTrain, rmseTest) == Uncertain
  {
  }

  // ---------------------------------------------------------------------
  // composite_score
  // ---------------------------------------------------------------------

  /** The normalised RMSE term of `composite_score`, 0 when the two RMSEs sum
      to less than 1e-4. */
  function RmseTerm(rmseTrain: real, rmseTest: real): (t: real)
    ensures t >= 0.0
    ensures rmseTrain + rmseTest < 0.0001 ==> t == 0.0
    ensures rmseTrain == rmseTest ==> t == 0.0
  {
    var sum := rmseTrain + rmseTest;
    if sum >= 0.0001 then Abs(rmseTrain / sum - rmseTest / sum) else 0.0
  }

  /** `composite_score`: the mean of the normalised RMSE gap and the R² gap.
      Lower is better. */
  function CompositeScore(rmseTrain: real, rmseTest: real, r2Train: real, r2Test: real): (g: real)
    ensures g >= 0.0
    ensures rmseTrain == rmseTest && r2Train == r2Test ==> g == 0.0
  {
    (RmseTerm(rmseTrain, rmseTest) + Abs(r2Train - r2Test)) / 2.0
  }

  /** Exchanging the train and the test metrics leaves the score unchanged. */
  lemma CompositeScoreSymmetric(rmseTrain: real, rmseTest: real, r2Train: real, r2Test: real)
    ensures CompositeScore(rmseTrain, rmseTest, r2Train, r2Test) == CompositeScore(rmseTest, rmseTrain, r2Test, r2Train)
  {
    assert Abs(r2Train - r2Test) == Abs(r2Test - r2Train);
    var sum := rmseTrain + rmseTest;
    if sum >= 0.0001 {
      assert Abs(rmseTrain / sum - rmseTest / sum) == Abs(rmseTest / sum - rmseTrain / sum);
    }
    assert RmseTerm(rmseTrain, rmseTest) == RmseTerm(rmseTest, rmseTrain);
  }

  /** For non-negative RMSEs the normalised RMSE term is at most 1. */
  lemma RmseTermAtMostOne(rmseTrain: real, rmseTest: real)
    requires rmseTrain >= 0.0 && rmseTest >= 0.0
    ensures RmseTerm(rmseTrain, rmseTest) <= 1.0
  {
    var sum := rmseTrain + rmseTest;
    if sum >= 0.0001 {
      var d := rmseTrain / sum - rmseTest / sum;
      assert d * sum == rmseTrain - rmseTest;
      assert Abs(rmseTrain - rmseTest) <= sum;
    }
  }

  /** The documented range [0, 1] of the score holds when the RMSEs are
      non-negative and the R² values differ by at most 1. */
  lemma CompositeScoreInUnitInterval(rmseTrain: real, rmseTest: real, r2Train: real, r2Test: real)
    requires rmseTrain >= 0.0 && rmseTest >= 0.0
    requires Abs(r2Train - r2Test) <= 1.0
    ensures 0.0 <= CompositeScore(rmseTrain, rmseTest, r2Train, r2Test) <= 1.0
  {
    RmseTermAtMostOne(rmseTrain, rmseTest);
  }

  /** Without the R² condition the documented bound fails: R² has no lower
      limit, so its gap alone can exceed 2. */
  lemma CompositeScoreCanExceedOne()
    ensures CompositeScore(1.0, 1.0, 0.9, -2.0) > 1.0
  {
    assert RmseTerm(1.0, 1.0) == 0.0;
  }

  // ---------------------------------------------------------------------
  // get_data_size_label
  // ---------------------------------------------------------------------

  datatype SizeLabel = Tiny | Small | Normal | Big | Enormous

  function Rank(l: SizeLabel): nat
  {
    match l
    case Tiny => 0
    case Small => 1
    case Normal => 2
    case Big => 3
    case Enormous => 4
  }

  /** `get_data_size_label`. */
  function DataSizeLabel(n: int): (l: SizeLabel)
    ensures l == Tiny <==> n < 50
    ensures l == Small <==> 50 <= n < 100
    ensures l == Normal <==> 100 <= n < 1000
    ensures l == Big <==> 1000 <= n < 10000
    ensures l == Enormous <==> 10000 <= n
  {
    if n < 50 then Tiny
    else if n < 100 then Small
    else if n < 1000 then Normal
    else if n < 10000 then Big
    else Enormous
  }

  /** More rows never give a smaller label. */
  lemma DataSizeLabelMonotone(n: int, m: int)
    requires n <= m
    ensures Rank(DataSizeLabel(n)) <= Rank(DataSizeLabel(m))
  {
  }

  // ---------------------------------------------------------------------
  // predicting_result
  // ---------------------------------------------------------------------

  /** The metrics scikit-learn computes from the train and test predictions. */
  datatype Metrics = Metrics(rmseTrain: real, rmseTest: real, mae: real, r2Train: real, r2Test: real)

  /** The result record. `x0` and `y0` are the two optional keys. */
  datatype Record = Record(
    model: string,
    dataSize: nat,
    dataSizeLabel: SizeLabel,
    rmseTrain: real,
    rmseTest: real,
    mae: real,
    r2Train: real,
    r2Test: real,
    r2Status: Status,
    generalizationError: real,
    generalizationStatus: Status,
    x0: Option<Matrix>,
    y0: Option<seq<real>>)

  /** `to_float_round` with four places, by the kind of its argument: a
      scalar goes through `round(float(v), 4)`, a list or array through a
      float32 cast followed by numpy's elementwise rounding, so the two can
      differ on the same number. */
  datatype Rounding = Rounding(scalar: real -> real, element: real -> real)

  /** Elementwise rounding of a vector of predictions. */
  function RoundAll(round: Rounding, ys: seq<real>): (r: seq<real>)
    ensures |r| == |ys| && forall i :: 0 <= i < |ys| ==> r[i] == round.element(ys[i])
  {
    seq(|ys|, i requires 0 <= i < |ys| => round.element(ys[i]))
  }

  /** `predicting_result`. `round` stands for `to_float_round`: every number
      leaving the record is rounded (the metrics as scalars, y0 as a list),
      while both statuses are computed from the unrounded metrics. */
  function PredictingResult(model: string, split: SplitData, m: Metrics,
                            x0: Option<Matrix>, y0: Option<seq<real>>, round: Rounding): (r: Record)
    ensures r.model == model
    ensures r.dataSize == |split.xTrain.rows| + |split.xTest.rows|
    ensures r.dataSizeLabel == DataSizeLabel(r.dataSize)
    ensures r.rmseTrain == round.scalar(m.rmseTrain) && r.rmseTest == round.scalar(m.rmseTest) && r.mae == round.scalar(m.mae)
    ensures r.r2Train == round.scalar(m.r2Train) && r.r2Test == round.scalar(m.r2Test)
    ensures r.generalizationError == round.scalar(CompositeScore(m.rmseTrain, m.rmseTest, m.r2Train, m.r2Test))
    ensures r.r2Status == r.generalizationStatus == StatusOfModel(m.r2Train, m.r2Test, m.rmseTrain, m.rmseTest)
    ensures r.x0.Some? <==> x0.Some? && y0.Some?
    ensures r.y0.Some? <==> x0.Some? && y0.Some?
    ensures r.x0.Some? ==> r.x0 == x0 && r.y0.value == RoundAll(round, y0.value)
  {
    var dataSize := |split.xTrain.rows| + |split.xTest.rows|;
    var status := StatusOfModel(m.r2Train, m.r2Test, m.rmseTrain, m.rmseTest);
    var result := Record(
      model, dataSize, DataSizeLabel(dataSize),
      round.scalar(m.rmseTrain), round.scalar(m.rmseTest), round.scalar(m.mae), round.scalar(m.r2Train), round.scalar(m.r2Test),
      status,
      round.scalar(CompositeScore(m.rmseTrain, m.rmseTest, m.r2Train, m.r2Test)),
      status,
      None, None);
    if x0.Some? && y0.Some? then result.(x0 := x0, y0 := Some(RoundAll(round, y0.value)))
    else result
  }

  /** Below 10 rows the split hands back the whole data twice, so the record
      reports twice the number of rows. */
  lemma SmallDataCountedTwice(x: Matrix, y: seq<real>, mask: seq<bool>, model: string, m: Metrics,
                              x0: Option<Matrix>, y0: Option<seq<real>>, round: Rounding)
    requires WellShaped(x) && |y| < 10 && |x.rows| == |y|
    ensures SplittingData(x, y, mask).Success?
    ensures PredictingResult(model, SplittingData(x, y, mask).value, m, x0, y0, round).dataSize == 2 * |y|
  {
  }
}
