/** The stacking endpoint (`run_stack_model`): the ensemble is configured
    from the number of rows and features, every row of x0 is routed by the
    quartile classifier to one of four sub-models, and the record is scored
    on the stacking model's predictions. The regressors are the library's:
    their metrics and predictions are inputs. */
module StackModel {
  import opened Wrappers
  import opened Preprocessing
  import opened ModelIndex
  import opened Classify

  function Pow2(k: nat): (p: nat)
    ensures p >= 1
  {
    if k == 0 then 1 else 2 * Pow2(k - 1)
  }

  /** `int(np.log2(n))` for n >= 1: the largest k with 2^k <= n. */
  function Log2Floor(n: nat): (k: nat)
    requires n >= 1
    ensures Pow2(k) <= n < Pow2(k + 1)
  {
    if n < 2 then 0 else 1 + Log2Floor(n / 2)
  }

  /** `cv_splits`: no value below 5 rows, 2 folds below 50, ⌊log2 n⌋ from
      50 rows on. n is the number of rows of the whole data, not of the
      training set. */
  function CvSplits(n: nat): (cv: Option<nat>)
    ensures cv.None? <==> n < 5
    ensures 5 <= n < 50 ==> cv == Some(2)
    ensures n >= 50 ==> cv.Some? && Pow2(cv.value) <= n < Pow2(cv.value + 1)
  {
    if n < 5 then None
    else if n < 50 then Some(2)
    else Some(Log2Floor(n))
  }

  lemma {:induction false} Pow2Monotone(a: nat, b: nat)
    requires a <= b
    ensures Pow2(a) <= Pow2(b)
    decreases b
  {
    if a < b {
      Pow2Monotone(a, b - 1);
    }
  }

  lemma {:induction false} Pow2Exceeds(k: nat)
    ensures k < Pow2(k)
  {
    if k > 0 {
      Pow2Exceeds(k - 1);
    }
  }

  /** From 50 rows on there are at least 5 folds, and never more folds than
      rows. */
  lemma CvSplitsBounds(n: nat)
    requires n >= 50
    ensures 5 <= CvSplits(n).value <= n
  {
    var k := CvSplits(n).value;
    assert Pow2(5) == 32;
    if k < 5 {
      Pow2Monotone(k + 1, 5);
    }
    Pow2Exceeds(k);
  }

  /** More rows never give fewer folds. */
  lemma CvSplitsMonotone(n: nat, m: nat)
    requires 50 <= n <= m
    ensures CvSplits(n).value <= CvSplits(m).value
  {
    var a := CvSplits(n).value;
    var b := CvSplits(m).value;
    if b < a {
      Pow2Monotone(b + 1, a);
    }
  }

  datatype ElasticVariant = FixedElasticNet | CrossValidatedElasticNet
  datatype SubModel = SubElastic | SubDecisionTree
  datatype FinalEstimator = FinalLinear | FinalGradientBoosting

  /** The ensemble's configuration. */
  datatype StackConfig = StackConfig(cv: Option<nat>, elastic: ElasticVariant,
                                     estimators: seq<SubModel>, final: FinalEstimator)

  /** The configuration for n rows of `features` features: `ElasticNet`
      below 100 rows and `ElasticNetCV` from 100 on; with at most three
      features stacking and voting use the elastic estimator alone and a
      linear final estimator, otherwise both estimators and gradient
      boosting. */
  function ConfigFor(n: nat, features: nat): (c: StackConfig)
    ensures c.cv == CvSplits(n)
    ensures c.elastic == FixedElasticNet <==> n < 100
    ensures features <= 3 ==> c.estimators == [SubElastic] && c.final == FinalLinear
    ensures features > 3 ==> c.estimators == [SubElastic, SubDecisionTree] && c.final == FinalGradientBoosting
    ensures c.estimators[0] == SubElastic
  {
    var elastic := if n < 100 then FixedElasticNet else CrossValidatedElasticNet;
    if features <= 3 then StackConfig(CvSplits(n), elastic, [SubElastic], FinalLinear)
    else StackConfig(CvSplits(n), elastic, [SubElastic, SubDecisionTree], FinalGradientBoosting)
  }

  /** The four fitted models a row can be routed to. */
  datatype Predictor = ElasticPredictor | TreePredictor | VotingPredictor | StackingPredictor

  const UnknownLabel := "unreachable label"

  /** The `match label` of the prediction loop, its default a Panic. */
  function Dispatch(name: string): (r: Result<Predictor>)
    ensures r.Success? <==> IsLabel(name)
    ensures r.Failure? ==> r.error == Panic(UnknownLabel)
    ensures r == Success(ElasticPredictor) <==> name == Elastic
    ensures r == Success(TreePredictor) <==> name == DecisionTree
    ensures r == Success(VotingPredictor) <==> name == Voting
    ensures r == Success(StackingPredictor) <==> name == Stacking
  {
    if name == Elastic then Success(ElasticPredictor)
    else if name == DecisionTree then Success(TreePredictor)
    else if name == Voting then Success(VotingPredictor)
    else if name == Stacking then Success(StackingPredictor)
    else Failure(Panic(UnknownLabel))
  }

  /** Column j of a matrix. */
  function Column(x: Matrix, j: nat): (col: seq<real>)
    requires WellShaped(x) && j < x.cols
    ensures |col| == |x.rows| && forall i :: 0 <= i < |x.rows| ==> col[i] == x.rows[i][j]
  {
    seq(|x.rows|, i requires 0 <= i < |x.rows| => x.rows[i][j])
  }

  /** The per-feature statistics of `classify`: `stat` stands for the
      percentiles and the standard deviation numpy computes from a column. */
  function StatsOf(x: Matrix, stat: seq<real> -> FeatureStats): (st: seq<FeatureStats>)
    requires WellShaped(x)
    ensures |st| == x.cols && forall j :: 0 <= j < x.cols ==> st[j] == stat(Column(x, j))
  {
    seq(x.cols, j requires 0 <= j < x.cols => stat(Column(x, j)))
  }

  const StackName := "Stacking + Voting + Elastic + DecisionTree"

  /** The unrounded prediction for every query row: each row goes to the
      fitted model its classifier label names. */
  function RoutedPredictions(x0: Matrix, stats: seq<FeatureStats>, config: StackConfig,
                             predict: (StackConfig, Predictor, seq<real>) -> real): (ys: seq<real>)
    requires WellShaped(x0) && x0.cols <= |stats|
    ensures |ys| == |x0.rows|
    ensures forall i :: 0 <= i < |x0.rows| ==> Dispatch(RowLabel(x0.rows[i], stats)).Success?
  {
    seq(|x0.rows|, i requires 0 <= i < |x0.rows| => predict(config, Dispatch(RowLabel(x0.rows[i], stats)).value, x0.rows[i]))
  }

  /** `run_stack_model`. `stat` gives a column's statistics, `metrics` the
      train and test metrics of the fitted stacking model (`None` when one of
      the four fits raises, which the function does not catch), `predict` a
      fitted model's prediction for one row, `mask` the shuffle of the split
      and `round` `to_float_round`. */
  method RunStackModel(x: NumArray, y: NumArray, x0: Option<NumArray>, mask: seq<bool>,
                       stat: seq<real> -> FeatureStats, metrics: StackConfig -> Option<Metrics>,
                       predict: (StackConfig, Predictor, seq<real>) -> real, round: Rounding)
    returns (r: Result<Record>)
    ensures PrepareInput(x, y, x0).Failure? ==> r == Failure(PrepareInput(x, y, x0).error)
    ensures PrepareInput(x, y, x0).Success? ==>
      var p := PrepareInput(x, y, x0).value;
      var s := SplittingData(p.x, p.y, mask);
      var config := ConfigFor(|p.x.rows|, p.x.cols);
      (s.Failure? ==> r == Failure(s.error)) &&
      (s.Success? && metrics(config).None? ==> r == Failure(FitError(StackName))) &&
      (s.Success? && metrics(config).Some? ==> r.Success?)
    ensures r.Success? ==>
      var p := PrepareInput(x, y, x0);
      var s := if p.Success? then SplittingData(p.value.x, p.value.y, mask) else Failure(Panic(""));
      var config := ConfigFor(|p.value.x.rows|, p.value.x.cols);
      p.Success? && s.Success? && metrics(config).Some? &&
      r.value == PredictingResult(StackName, s.value, metrics(config).value, p.value.x0,
                                  if x0.Some? then Some(RoutedPredictions(p.value.x0.value, StatsOf(p.value.x, stat), config, predict)) else None,
                                  round) &&
      r.value.model == StackName &&
      r.value.rmseTest == round.scalar(metrics(config).value.rmseTest) &&
      r.value.r2Test == round.scalar(metrics(config).value.r2Test) &&
      (r.value.y0.Some? <==> x0.Some?) &&
      (x0.Some? ==>
        var rows := p.value.x0.value.rows;
        var stats := StatsOf(p.value.x, stat);
        |r.value.y0.value| == |rows| &&
        forall i :: 0 <= i < |rows| ==>
          r.value.y0.value[i] == round.element(predict(config, Dispatch(RowLabel(rows[i], stats)).value, rows[i])))
    ensures r.Failure? && r.error.FitError? ==> r.error == FitError(StackName)
    ensures r.Failure? ==> !r.error.Panic?
  {
    var p := PrepareInput(x, y, x0);
    if p.Failure? {
      return Failure(p.error);
    }
    var xm := p.value.x;
    var s := SplittingData(xm, p.value.y, mask);
    if s.Failure? {
      return Failure(s.error);
    }
    var config := ConfigFor(|xm.rows|, xm.cols);
    var m := metrics(config);
    if m.None? {
      return Failure(FitError(StackName));
    }
    var y0: Option<seq<real>> := None;
    if p.value.x0.Some? {
      var rows := p.value.x0.value.rows;
      var stats := StatsOf(xm, stat);
      var labels := ClassifyRows(rows, stats);
      var ys: seq<real> := [];
      for i := 0 to |rows|
        invariant |ys| == i
        invariant forall k :: 0 <= k < i ==> ys[k] == predict(config, Dispatch(RowLabel(rows[k], stats)).value, rows[k])
      {
        var route := Dispatch(labels[i]);
        ys := ys + [predict(config, route.value, rows[i])];
      }
      assert ys == RoutedPredictions(p.value.x0.value, stats, config, predict);
      y0 := Some(ys);
      RoutedRecordRows(s.value, m.value, p.value.x0.value, stats, config, predict, round);
    }
    return Success(PredictingResult(StackName, s.value, m.value, p.value.x0, y0, round));
  }

  /** The record of routed predictions holds, row by row, the rounded
      prediction of the model the row's label names. */
  lemma RoutedRecordRows(split: SplitData, m: Metrics, x0: Matrix, stats: seq<FeatureStats>, config: StackConfig,
                         predict: (StackConfig, Predictor, seq<real>) -> real, round: Rounding)
    requires WellShaped(x0) && x0.cols <= |stats|
    ensures var rec := PredictingResult(StackName, split, m, Some(x0), Some(RoutedPredictions(x0, stats, config, predict)), round);
      rec.y0.Some? && |rec.y0.value| == |x0.rows| &&
      forall i :: 0 <= i < |x0.rows| ==>
        rec.y0.value[i] == round.element(predict(config, Dispatch(RowLabel(x0.rows[i], stats)).value, x0.rows[i]))
  {
  }

  /** Every label the classifier produces has a sub-model: the Panic default
      of the dispatch is unreachable from `classify`'s output. */
  lemma DispatchCoversClassifier(row: seq<real>, stats: seq<FeatureStats>)
    requires |row| <= |stats|
    ensures Dispatch(RowLabel(row, stats)).Success?
  {
  }
}
