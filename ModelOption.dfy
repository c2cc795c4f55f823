/** Training one model chosen by name (`run_option_model`, present both in
    `run_option.py` and in `main.py`): the input is normalised and split, the
    name is looked up in a closed alias table, and the chosen regressor is
    fitted and scored. The regressor is the library's: its behaviour on the
    split data is an input. */
module ModelOption {
  import opened Wrappers
  import opened Preprocessing
  import opened ModelIndex

  /** The keys of the `MODELS` registry that the alias table can reach. */
  datatype ModelKey =
    | Linear | Lasso | Ridge | ElasticNet | Bayesian | DecisionTree | ExtraTree
    | RandomForest | Svr | NuSvr | Knn | Huber | Ransac | TheilSen

  /** The registry key of each model. */
  function KeyName(k: ModelKey): string
  {
    match k
    case Linear => "linear"
    case Lasso => "lasso"
    case Ridge => "ridge"
    case ElasticNet => "elastic"
    case Bayesian => "bayesian"
    case DecisionTree => "decision_tree"
    case ExtraTree => "extra_tree"
    case RandomForest => "random_forest"
    case Svr => "svr"
    case NuSvr => "nu_svr"
    case Knn => "knn"
    case Huber => "huber"
    case Ransac => "ransac"
    case TheilSen => "theilsen"
  }

  function LowerChar(c: char): char
  {
    if 'A' <= c <= 'Z' then (c as int - 'A' as int + 'a' as int) as char else c
  }

  /** `str.lower()` on the ASCII letters. */
  function Lower(s: string): (r: string)
    ensures |r| == |s| && forall i :: 0 <= i < |s| ==> r[i] == LowerChar(s[i])
  {
    seq(|s|, i requires 0 <= i < |s| => LowerChar(s[i]))
  }

  const UnknownModel := "no such model"

  /** `match model_name.lower()`. Any name outside the table is a Panic. */
  function Select(name: string): (r: Result<ModelKey>)
    ensures r.Failure? ==> r.error == Panic(UnknownModel)
  {
    Match(Lower(name))
  }

  /** The cases of the `match`, tried in order on the lower-cased name. */
  function Match(n: string): (r: Result<ModelKey>)
    ensures r.Failure? ==> r.error == Panic(UnknownModel)
  {
    if n in {"linear", "linear_regression", ""} then Success(Linear)
    else if n in {"lasso", "lasso_regression"} then Success(Lasso)
    else if n in {"ridge", "ridge_regression"} then Success(Ridge)
    else if n in {"elastic", "elastic_regression"} then Success(ElasticNet)
    else if n in {"polynomial", "polynomial_regression"} then Success(Linear)
    else if n == "bayesian" then Success(Bayesian)
    else if n == "decision_tree" then Success(DecisionTree)
    else if n == "extra_tree" then Success(ExtraTree)
    else if n == "random_forest" then Success(RandomForest)
    else if n == "svm" then Success(Svr)
    else if n == "nu_svm" then Success(NuSvr)
    else if n == "knn" then Success(Knn)
    else if n == "huber" then Success(Huber)
    else if n == "ransac" then Success(Ransac)
    else if n in {"theilsen", "theil_sen"} then Success(TheilSen)
    else Failure(Panic(UnknownModel))
  }

  /** The alias table as a dictionary from lower-case name to model. */
  const Aliases: map<string, ModelKey> := map[
    "linear" := Linear, "linear_regression" := Linear, "" := Linear,
    "polynomial" := Linear, "polynomial_regression" := Linear,
    "lasso" := Lasso, "lasso_regression" := Lasso,
    "ridge" := Ridge, "ridge_regression" := Ridge,
    "elastic" := ElasticNet, "elastic_regression" := ElasticNet,
    "bayesian" := Bayesian, "decision_tree" := DecisionTree, "extra_tree" := ExtraTree,
    "random_forest" := RandomForest, "svm" := Svr, "nu_svm" := NuSvr, "knn" := Knn,
    "huber" := Huber, "ransac" := Ransac, "theilsen" := TheilSen, "theil_sen" := TheilSen]

  /** The selector accepts exactly the names whose lower-case form is in the
      alias table, and picks the model the table names. */
  lemma SelectIsAliasLookup(name: string)
    ensures Select(name).Success? <==> Lower(name) in Aliases
    ensures Select(name).Success? ==> Select(name).value == Aliases[Lower(name)]
  {
    MatchIsAliasLookup(Lower(name));
  }

  lemma MatchIsAliasLookup(n: string)
    ensures Match(n).Success? <==> n in Aliases
    ensures Match(n).Success? ==> Match(n).value == Aliases[n]
  {
    if Match(n).Success? {
      MatchedIsAlias(n);
    } else {
      UnmatchedIsNoAlias(n);
    }
  }

  lemma MatchedIsAlias(n: string)
    requires Match(n).Success?
    ensures n in Aliases && Aliases[n] == Match(n).value
  {
  }

  lemma UnmatchedIsNoAlias(n: string)
    requires Match(n).Failure?
    ensures n !in Aliases
  {
  }

  lemma {:induction false} LowerIdempotent(s: string)
    ensures Lower(Lower(s)) == Lower(s)
  {
    var l := Lower(s);
    forall i | 0 <= i < |s|
      ensures Lower(l)[i] == l[i]
    {
      assert LowerChar(LowerChar(s[i])) == LowerChar(s[i]);
    }
  }

  /** Matching ignores case: a name and its lower-case form select the same
      model, or both fail. */
  lemma SelectCaseInsensitive(name: string)
    ensures Select(Lower(name)) == Select(name)
  {
    LowerIdempotent(name);
  }

  /** "Linear_Regression" and "POLYNOMIAL" both reach the linear model, while
      "theil-sen" is not an alias. */
  lemma SelectExamples()
    ensures Select("Linear_Regression") == Success(Linear)
    ensures Select("POLYNOMIAL") == Success(Linear)
    ensures Select("theil-sen").Failure?
  {
    assert Lower("Linear_Regression") == "linear_regression";
    assert Lower("POLYNOMIAL") == "polynomial";
    assert Lower("theil-sen") == "theil-sen";
  }

  /** The names of the model test suite, and the model each one selects. */
  const TestModelNames: seq<string> := ["linear", "ridge", "lasso", "elastic", "bayesian", "svm",
    "nu_svm", "decision_tree", "extra_tree", "random_forest", "knn", "huber", "ransac", "theilsen"]
  const TestModelKeys: seq<ModelKey> := [Linear, Ridge, Lasso, ElasticNet, Bayesian, Svr,
    NuSvr, DecisionTree, ExtraTree, RandomForest, Knn, Huber, Ransac, TheilSen]

  predicate NoUpperCase(s: string)
  {
    forall k :: 0 <= k < |s| ==> !('A' <= s[k] <= 'Z')
  }

  lemma LowerOfLowerCase(s: string)
    requires NoUpperCase(s)
    ensures Lower(s) == s
  {
  }

  /** Each of the fourteen tested names is accepted, and they reach fourteen
      different models. */
  lemma TestNamesAccepted()
    ensures |TestModelNames| == |TestModelKeys| == 14
    ensures forall i :: 0 <= i < |TestModelNames| ==> Select(TestModelNames[i]) == Success(TestModelKeys[i])
    ensures forall i, j :: 0 <= i < j < |TestModelKeys| ==> TestModelKeys[i] != TestModelKeys[j]
  {
    TestNamesLowerCase();
    TestNamesAreAliases();
    forall i | 0 <= i < |TestModelNames|
      ensures Select(TestModelNames[i]) == Success(TestModelKeys[i])
    {
      var s := TestModelNames[i];
      LowerOfLowerCase(s);
      SelectIsAliasLookup(s);
    }
  }

  lemma TestNamesLowerCase()
    ensures forall i :: 0 <= i < |TestModelNames| ==> NoUpperCase(TestModelNames[i])
  {
  }

  lemma TestNamesAreAliases()
    ensures forall i :: 0 <= i < |TestModelNames| ==>
      TestModelNames[i] in Aliases && Aliases[TestModelNames[i]] == TestModelKeys[i]
  {
  }

  /** What the library's regressor does on the split data: `fit` (or one of
      the two train/test `predict` calls) raises, or it yields the metrics of
      the two predictions and the prediction on x0, `None` when `predict(x0)`
      raised. */
  datatype Fit = FitCrashed | Fitted(metrics: Metrics, query: Option<seq<real>>)

  /** `run_option_model`. `fit` stands for fitting the selected regressor on
      the training set, `mask` for the shuffle of the split and `round` for
      `to_float_round`. The steps run in the source's order, so invalid data
      is reported before an unknown name. */
  function RunOptionModel(x: NumArray, y: NumArray, x0: Option<NumArray>, name: string,
                          mask: seq<bool>, fit: ModelKey -> Fit, round: Rounding): (r: Result<Record>)
    ensures PrepareInput(x, y, x0).Failure? ==> r == Failure(PrepareInput(x, y, x0).error)
    ensures PrepareInput(x, y, x0).Success? ==>
      var p := PrepareInput(x, y, x0).value;
      var s := SplittingData(p.x, p.y, mask);
      (s.Failure? ==> r == Failure(s.error)) &&
      (s.Success? && Select(name).Failure? ==> r == Failure(Select(name).error)) &&
      (s.Success? && Select(name).Success? && fit(Select(name).value).FitCrashed? ==> r == Failure(FitError(name))) &&
      (s.Success? && Select(name).Success? && fit(Select(name).value).Fitted? ==> r.Success?)
    ensures r.Success? ==>
      var p := PrepareInput(x, y, x0).value;
      var s := SplittingData(p.x, p.y, mask);
      PrepareInput(x, y, x0).Success? && s.Success? && Select(name).Success? &&
      fit(Select(name).value).Fitted? &&
      var f := fit(Select(name).value);
      r.value == PredictingResult(name, s.value, f.metrics, p.x0, if p.x0.Some? then f.query else None, round)
    ensures r.Success? ==> r.value.model == name
    ensures r.Success? ==> (r.value.y0.Some? <==> x0.Some? && fit(Select(name).value).query.Some?)
    ensures PrepareInput(x, y, x0).Success? &&
            SplittingData(PrepareInput(x, y, x0).value.x, PrepareInput(x, y, x0).value.y, mask).Success? ==>
      (r.Failure? && r.error.Panic? <==> Select(name).Failure?)
    ensures r.Failure? && r.error.FitError? ==>
      r.error == FitError(name) && Select(name).Success? && fit(Select(name).value).FitCrashed?
  {
    var p := PrepareInput(x, y, x0);
    if p.Failure? then Failure(p.error)
    else
      var s := SplittingData(p.value.x, p.value.y, mask);
      if s.Failure? then Failure(s.error)
      else
        var key := Select(name);
        if key.Failure? then Failure(key.error)
        else
          match fit(key.value)
          case FitCrashed => Failure(FitError(name))
          case Fitted(m, query) =>
            var y0 := if p.value.x0.Some? then query else None;
            Success(PredictingResult(name, s.value, m, p.value.x0, y0, round))
  }

  /** A prediction on x0 that raised does not fail the call: the record
      comes back without x0 and y0. */
  lemma FailedQueryStillAnswers(x: NumArray, y: NumArray, x0: NumArray, name: string,
                                mask: seq<bool>, fit: ModelKey -> Fit, round: Rounding)
    requires PrepareInput(x, y, Some(x0)).Success?
    requires SplittingData(PrepareInput(x, y, Some(x0)).value.x, PrepareInput(x, y, Some(x0)).value.y, mask).Success?
    requires Select(name).Success? && fit(Select(name).value).Fitted? && fit(Select(name).value).query.None?
    ensures RunOptionModel(x, y, Some(x0), name, mask, fit, round).Success?
    ensures RunOptionModel(x, y, Some(x0), name, mask, fit, round).value.x0.None?
    ensures RunOptionModel(x, y, Some(x0), name, mask, fit, round).value.y0.None?
  {
  }

  /** With x0 given, a successful fit whose prediction on x0 succeeds gives a
      record holding x0, y0 and the generalization error, as the model test
      suite requires of every tested name. */
  lemma TestedRecordHasQueryKeys(x: NumArray, y: NumArray, x0: NumArray, i: nat,
                                 mask: seq<bool>, fit: ModelKey -> Fit, round: Rounding)
    requires i < |TestModelNames|
    requires PrepareInput(x, y, Some(x0)).Success?
    requires SplittingData(PrepareInput(x, y, Some(x0)).value.x, PrepareInput(x, y, Some(x0)).value.y, mask).Success?
    requires forall k :: fit(k).Fitted? && fit(k).query.Some?
    ensures RunOptionModel(x, y, Some(x0), TestModelNames[i], mask, fit, round).Success?
    ensures RunOptionModel(x, y, Some(x0), TestModelNames[i], mask, fit, round).value.x0.Some?
    ensures RunOptionModel(x, y, Some(x0), TestModelNames[i], mask, fit, round).value.y0.Some?
  {
    TestNamesAccepted();
  }
}
