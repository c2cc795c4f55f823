# RegressionAPI core in Dafny

This project models the machine-learning core of RegressionAPI, a web service
that trains scikit-learn regressors on a user's data and reports which of
them generalises best. The following parts are modelled:

- **Request validators.** The two input schemas, `InputBestModel` and
  `InputStackModelData`, turn `X_array` and `x0` into matrices.
- **Input preparation and the adaptive split.**
  - `prepare_input` turns X into a matrix, Y into a vector and x0 into a
    matrix.
  - `splitting_data` chooses the train fraction from the number of rows.
- **Scoring of one trained model.** This covers the qualitative status, the
  composite generalization score, the data-size label and the result record.
- **Training one model chosen by name** (`run_option_model`). The name is
  looked up in a closed alias table.
- **The candidate roster.** `run_all_model` trains six models on one split
  and skips any model that raises. `fallback_to_linear` reuses the linear
  model's prediction.
- **Two selection policies.**
  - `find_best_model` takes the first record with the highest test R².
  - `run_best_model` replaces the incumbent on a higher R², or on a close R²
    with a lower RMSE or generalization error.
- **The stacking endpoint** (`run_stack_model`). Each query row is routed by
  the quartile classifier `classify` to one of four sub-models.
- **The alternative router `classify_model`.** It scores each feature by its
  distance to the median over the interquartile range.

`run_option_model`, `run_all_model` and `fallback_to_linear` each appear
twice in the source, in `main.py` and in `run_option.py`/`run_best_model.py`.
The two copies are identical and are modelled once. The two request schemas
share the same `ensure_2d` and `check_columns_match` validators, which are
also modelled once.

The regressors, the metrics scikit-learn computes, numpy's percentiles and
standard deviation, and the rounding `to_float_round` all come from
libraries. They are parameters of the model:

| parameter | stands for |
|---|---|
| `fit: ModelKey -> Fit` | one roster model on the split |
| `metrics` | the stacking ensemble |
| `predict` | one sub-model's prediction for one row |
| `stat` | a column's quartiles and standard deviation |
| `round` | `to_float_round`, as a `Rounding`: `scalar` for a number, `element` for each entry of a list |

The random shuffle of `train_test_split` is a mask that says, for each row,
whether it goes to the training set. Python exceptions are values of a
`Result` type:

| exception | `Error` variant |
|---|---|
| `ValueError` | `ValueError` |
| `KeyError` | `KeyError` |
| `UnboundLocalError` | `UnboundLocal` |
| `Panic.unreachable` | `Panic` |
| a regressor that raises | `FitError` |
| a pydantic rejection | `ValidationError` |

Positive and negative infinity (`np.inf`, `-np.inf`) are the `ExtReal` values
`PosInf` and `NegInf`.

The loops of the source are methods proved against recursive specification
functions over prefixes:

| method | specification |
|---|---|
| `Classify.ClassifyRows` | `RowLabel` |
| `IqrRouter.ClassifyModel` | `ScoresOf`/`Decide` |
| `Roster.RunAllModel` | `AllModels` |
| `Roster.FallbackToLinear` | `FirstLinearY0` |
| `SimpleSelection.SelectBest` | `ScanRecords` |
| `RobustSelection.SelectBest` | `ScanRecords` |
| `StackModel.RunStackModel` | `RoutedPredictions` and `PredictingResult` |

The lemmas state what the source promises about those functions.

Both selection loops read `record["y0"]`, and `find_best_model` binds
`best_result` only inside its loop. Their specification functions take a
flag, `getY0`:

- `getY0` false is the code as written.
- `getY0` true reads `record.get("y0")`, and in `find_best_model` also binds
  `best_result = None` before the loop. This is the corrected behaviour
  described under "## Findings".

## Model

| member | source | states |
|---|---|---|
| Schemas.Ensure2d | app/schemas/best_model.py:36-54 | a missing or null value passes through as None; a non-list or empty list is a ValueError; a flat list of numbers becomes one single-element row per element; a list of lists passes unchanged (its encoding is the input) exactly when every element is a number, and is otherwise the not-a-number ValueError; any other list is a ValueError; every accepted matrix is non-empty and numeric |
| Schemas.CheckColumnsMatch | app/schemas/best_model.py:59-71 | rejects exactly when x0 and a validated X_array are both present and their first rows differ in length; otherwise x0 is returned unchanged |
| Schemas.CheckXYAlignment | app/schemas/stack_model.py:39-45 | rejects exactly when a validated X_array and Y_array differ in row count; otherwise Y_array is unchanged |
| Schemas.ValidateBestModel | app/schemas/best_model.py:29-71 | the body is rejected exactly when X_array fails its validators or is null, or x0 fails its validators, listing the failing fields in declaration order; an accepted body holds the validated matrices, and its x0 has as many columns as X_array |
| Schemas.ValidateStackModel | app/schemas/stack_model.py:9-62 | accepted exactly when the best-model validators accept and X_array and Y_array have the same number of rows, with the same validated value; otherwise rejected with the failing fields |
| Preprocessing.ToArray | app/utils/machine_learning/data_preprocessing.py:35-36 | a flat list, and the empty list, is one-dimensional; a non-empty list of rows is two-dimensional exactly when rectangular, else ValueError |
| Preprocessing.PrepareInput | app/utils/machine_learning/data_preprocessing.py:11-52 | fails (with ValueError) exactly when X, Y or x0 is ragged or x0's column count differs from X's; on success X is a well-shaped matrix (a flat X becomes one column), Y is the flattened Y, a flat x0 becomes one row, and x0 has X's column count |
| Preprocessing.FlattenAt | app/utils/machine_learning/data_preprocessing.py:36 | `ravel` puts element (i, j) of a c-column matrix at position i·c + j |
| Preprocessing.RowCountNotChecked | app/utils/machine_learning/data_preprocessing.py:24-52 | X with two rows and Y with one are accepted although the documentation lists that error |
| Preprocessing.FlatX0Disagreement | app/utils/machine_learning/data_preprocessing.py:44-45 | a flat x0 of m numbers is m one-feature rows for the schema but one m-feature row for `prepare_input` |
| Preprocessing.SplitPlanFor | app/utils/machine_learning/data_preprocessing.py:87-98 | below 10 rows no split; train fraction 1 − min(5/n, 0.2) up to 100 rows (0.8 up to 25, 0.95 at 100), 0.9 up to 500, 0.85 up to 1000, 0.8 beyond; the Panic branch is unreachable |
| Preprocessing.PickPartition | app/utils/machine_learning/data_preprocessing.py:89-96 | the train and test sides together hold every row exactly once |
| Preprocessing.PickPairs | app/utils/machine_learning/data_preprocessing.py:89-96 | X and Y are split with the same shuffle, so every row stays paired with its target |
| Preprocessing.SplittingData | app/utils/machine_learning/data_preprocessing.py:58-98 | below 10 rows train and test are both the whole data; otherwise it fails exactly when X and Y differ in length, and the (row, target) pairs of the two sides form a partition of the input pairs; both sides keep X's column count |
| ModelIndex.StatusOfModel | app/utils/machine_learning/model_index.py:6-35 | Weak model exactly when both R² are below 0.5; otherwise Overfit exactly when both gaps exceed 0.2, Stable exactly when both are below 0.2, Uncertain in every other case |
| ModelIndex.GapAtThresholdIsUncertain | app/utils/machine_learning/model_index.py:30-35 | an R² gap of exactly 0.2 is Uncertain |
| ModelIndex.RmseTerm | app/utils/machine_learning/model_index.py:59-62 | the normalised RMSE gap is non-negative, 0 for equal RMSEs and 0 below the 1e-4 guard |
| ModelIndex.CompositeScore | app/utils/machine_learning/model_index.py:38-64 | the score is non-negative and 0 when train and test metrics agree |
| ModelIndex.CompositeScoreSymmetric | app/utils/machine_learning/model_index.py:38-64 | exchanging train and test metrics does not change the score |
| ModelIndex.RmseTermAtMostOne | app/utils/machine_learning/model_index.py:58-62 | for non-negative RMSEs the normalised term is at most 1 |
| ModelIndex.CompositeScoreInUnitInterval | app/utils/machine_learning/model_index.py:50-51 | the documented range [0, 1] holds when the R² values differ by at most 1 |
| ModelIndex.CompositeScoreCanExceedOne | app/utils/machine_learning/model_index.py:50-51 | without that condition the documented bound fails (R² of 0.9 and −2 give more than 1) |
| ModelIndex.DataSizeLabel | app/utils/machine_learning/model_index.py:89-102 | each label holds exactly on its interval: tiny below 50, small below 100, normal below 1000, big below 10000, enormous beyond |
| ModelIndex.DataSizeLabelMonotone | app/utils/machine_learning/model_index.py:89-102 | more rows never give a smaller label |
| ModelIndex.RoundAll | app/utils/machine_learning/model_index.py:80-84 | a list is rounded elementwise with the list rounding, keeping its length |
| ModelIndex.PredictingResult | app/utils/machine_learning/model_index.py:105-167 | the record holds the model name, the train+test row count and its label, the metrics and score rounded as scalars, both statuses from the unrounded metrics, and x0/y0 exactly when both were given (y0 rounded elementwise) |
| ModelIndex.SmallDataCountedTwice | app/utils/machine_learning/model_index.py:138 | below 10 rows the reported data size is twice the number of rows |
| Classify.Tally | app/utils/machine_learning/classify.py:30-40 | every feature of a row adds to exactly one of the three counters |
| Classify.DecideLabel | app/utils/machine_learning/classify.py:45-86 | the label is one of the four; rows of one or two features never get decision_tree; from three features on, two thirds near the median give stacking, and decision_tree needs the quartile and far counts at k/3 each after every earlier rule failed |
| Classify.ClassifyRows | app/utils/machine_learning/classify.py:4-87 | one label per query row, in order, each equal to the row's decision-table label and one of the four labels |
| Classify.OneFeature | app/utils/machine_learning/classify.py:45-51 | one feature: near median gives stacking, near a quartile voting, otherwise elastic |
| Classify.TwoFeatures | app/utils/machine_learning/classify.py:53-65 | two features: each label holds exactly for its listed count splits |
| Classify.PluralityTieBreak | app/utils/machine_learning/classify.py:80-86 | in the fallback vote ties go to stacking, then voting; elastic needs a strict majority of far features |
| Classify.PluralityNeedsNineFeatures | app/utils/machine_learning/classify.py:67-86 | with 3 to 8 features the fallback vote is never reached |
| Classify.PluralityReachableAtNine | app/utils/machine_learning/classify.py:67-86 | with 9 features the fallback vote is reached (counts 2, 2, 5 give elastic) |
| IqrRouter.Paired | temp.py:15 | `zip` stops at the shortest of its arguments |
| IqrRouter.ScoresOfTotal | temp.py:15-23 | each paired feature scores exactly one point, so the scores total the paired count |
| IqrRouter.Decide | temp.py:26-29 | decision_tree exactly when voting and elastic scored and stacking did not; otherwise the highest score, ties to the earlier key |
| IqrRouter.ClassifyModel | temp.py:4-29 | the loop computes the scores of the paired features and returns their decision |
| IqrRouter.FirstArgMax | temp.py:29 | the index found is a maximum of the first n values, and every earlier value is strictly smaller (the first maximum) |
| IqrRouter.DecideIsFirstMax | temp.py:26-29 | outside the decision_tree case the decision is the key of the first maximal score in dict order stacking, voting, elastic |
| IqrRouter.Decision | temp.py:26-29 | the decision_tree test, then the `max` over the keys in dict order: the name returned is the decision, and otherwise the key of the first maximal score |
| IqrRouter.NoFeatureIsStacking | temp.py:26-29 | a row with no paired feature routes to stacking |
| IqrRouter.ScoresIgnoreUnpaired | temp.py:15 | features beyond the shortest argument do not change the scores |
| IqrRouter.RoutersDisagree | temp.py:16-21 | one feature at half an IQR from the median is stacking for `classify` but voting here |
| ModelOption.Lower | app/utils/machine_learning/run_option.py:21 | lower-casing keeps the length and maps each character |
| ModelOption.Match | app/utils/machine_learning/run_option.py:22-53 | the chain of alias comparisons: a string that matches none is a Panic |
| ModelOption.MatchIsAliasLookup | app/utils/machine_learning/run_option.py:22-53 | the chain accepts exactly the aliases of the table and returns the model the table names |
| ModelOption.Select | app/utils/machine_learning/run_option.py:21-53 | any name outside the alias table is a Panic |
| ModelOption.SelectIsAliasLookup | app/utils/machine_learning/run_option.py:21-53 | a name is accepted exactly when its lower-case form is an alias, and selects the model the alias table names |
| ModelOption.LowerIdempotent | app/utils/machine_learning/run_option.py:21 | lower-casing twice is lower-casing once |
| ModelOption.SelectCaseInsensitive | app/utils/machine_learning/run_option.py:21 | a name and its lower-case form select the same model |
| ModelOption.SelectExamples | app/utils/machine_learning/run_option.py:22-31 | mixed-case aliases are accepted; "theil-sen" is not |
| ModelOption.TestNamesAccepted | test/test_model.py:15-30 | the fourteen tested names are accepted and select fourteen different models |
| ModelOption.RunOptionModel | app/utils/machine_learning/run_option.py:7-75 | preparation errors come first, then split errors, then the Panic of an unknown name, then the fit error of a selected model that raised; a selected model that fitted always gives a record; a success is the record of the selected model on the split, named as requested, with y0 exactly when x0 was given and its prediction succeeded; after preparation and the split, a Panic is returned exactly for unknown names, and a fit error only when the selected model raised |
| ModelOption.FailedQueryStillAnswers | app/utils/machine_learning/run_option.py:59-75 | a prediction on x0 that raised still gives a record, without x0 and y0 |
| ModelOption.TestedRecordHasQueryKeys | test/test_model.py:33-47 | each tested name, given x0, yields a record with x0 and y0 |
| Roster.CandidateRecord | app/utils/machine_learning/main.py:108-128 | a candidate's record carries its name and holds y0 exactly when x0 was given and predict(x0) succeeded |
| Roster.AllModels | app/utils/machine_learning/main.py:81-135 | at most one record per roster entry |
| Roster.RunAllModel | app/utils/machine_learning/main.py:81-135 | the loop returns the records of the roster models that trained, at most six |
| Roster.Trained | app/utils/machine_learning/main.py:99-133 | a model is kept exactly when it is in the roster and trained |
| Roster.TrainedIsSubsequence | app/utils/machine_learning/main.py:99-133 | the trained models keep roster order |
| Roster.AllModelsFollowTrained | app/utils/machine_learning/main.py:99-133 | record i belongs to the i-th trained model, with its name, and holds y0 exactly when x0 was given and its prediction succeeded |
| Roster.RosterNamesDistinct | app/utils/machine_learning/main.py:96 | the six roster names are distinct |
| Roster.RunAllModelIsRosterSubsequence | app/utils/machine_learning/main.py:81-135 | the output is at most six records, one per trained model, in roster order |
| Roster.FirstLinearY0 | app/utils/machine_learning/main.py:138-153 | a prediction exists exactly when some linear record has y0, and it is the first such record's |
| Roster.FallbackToLinear | app/utils/machine_learning/main.py:138-153 | the loop returns the first linear record's prediction, or None |
| SimpleSelection.ScanPicksFirstMax | app/utils/machine_learning/main.py:178-184 | a scan that does not raise ends on the first record of highest test R², taking model, score, error and prediction from it |
| SimpleSelection.FailurePersists | app/utils/machine_learning/main.py:178-184 | an exception ends the loop with that error |
| SimpleSelection.ScanFailsIff | app/utils/machine_learning/main.py:178-184 | as written, the loop raises KeyError exactly when a record that beats all before it has no y0 |
| SimpleSelection.PrefixMaxBeatsIncumbent | app/utils/machine_learning/main.py:180 | a record replaces the incumbent exactly when it beats every earlier record |
| SimpleSelection.ScanWithGetSucceeds | app/utils/machine_learning/main.py:184 | reading y0 with `get` the loop never raises |
| SimpleSelection.SelectBest | app/utils/machine_learning/main.py:171-184 | the written loop computes the as-written scan |
| SimpleSelection.Finish | app/utils/machine_learning/main.py:186-194 | an unbound `best_result` raises; with x0 an empty prediction is replaced by the linear fallback; the other fields are the scan's |
| SimpleSelection.FindBestModel | app/utils/machine_learning/main.py:156-194 | the function as written computes the as-written specification |
| SimpleSelection.FinishPicksFirstMax | app/utils/machine_learning/main.py:171-194 | a returned answer reports the first record of highest test R², with its prediction or, if that is empty and x0 was given, the fallback |
| SimpleSelection.BestIsFirstMaximum | app/utils/machine_learning/main.py:156-194 | a successful call reports the model, test R² and generalization error of the first record of highest test R² among the roster's records |
| SimpleSelection.FinishIsFirstMax | app/utils/machine_learning/main.py:171-194 | the epilogue's answer after a non-raising scan carries the first maximal record's model, score and error |
| SimpleSelection.NoRecordIsUnbound | app/utils/machine_learning/main.py:186-194 | with no record the function raises on `best_result` |
| SimpleSelection.WithoutQueryAlwaysFails | app/utils/machine_learning/main.py:156-194 | as written, a call without x0 always fails |
| SimpleSelection.WithGetAlwaysAnswers | app/utils/machine_learning/main.py:156-194 | corrected, every call that survives preparation and the split answers, without a prediction when x0 is absent |
| SimpleSelection.WithGetAgrees | app/utils/machine_learning/main.py:178-184 | whenever the written version answers, the corrected one gives the same answer |
| SimpleSelection.SameWinner | app/utils/machine_learning/main.py:178-184 | the two scans agree on every prefix where the written one succeeds |
| RobustSelection.ScanKeepsOneRecord | app/utils/machine_learning/run_best_model.py:100-113 | the four reported values and the prediction come from one record that no later record would replace |
| RobustSelection.NoLaterHigherR2 | app/utils/machine_learning/run_best_model.py:106-108 | no record after the winner has a higher test R² |
| RobustSelection.WinnerMayTrailOnR2 | app/utils/machine_learning/run_best_model.py:107 | a record with R² within tolerance and lower RMSE wins although its R² is lower |
| RobustSelection.FailurePersists | app/utils/machine_learning/run_best_model.py:100-113 | an exception ends the loop with that error |
| RobustSelection.ScanWithGetSucceeds | app/utils/machine_learning/run_best_model.py:113 | reading y0 with `get` the loop never raises |
| RobustSelection.SelectBest | app/utils/machine_learning/run_best_model.py:92-113 | the written loop computes the as-written scan |
| RobustSelection.Finish | app/utils/machine_learning/run_best_model.py:116-128 | with x0 and no prediction the first linear prediction is used; the other fields are the scan's |
| RobustSelection.RunBestModel | app/utils/machine_learning/run_best_model.py:84-128 | the function as written computes the as-written specification |
| RobustSelection.NoRecordGivesInitialValues | app/utils/machine_learning/run_best_model.py:92-96 | with no record the answer is ("", −inf, +inf, +inf, None) |
| RobustSelection.FallbackIsDead | app/utils/machine_learning/run_best_model.py:116-120 | as written, with real-valued R², the fallback never changes the answer |
| RobustSelection.WinnerHasPrediction | app/utils/machine_learning/run_best_model.py:100-113 | once a record is chosen in a non-raising scan, the incumbent has a prediction |
| RobustSelection.ScanFailsIff | app/utils/machine_learning/run_best_model.py:100-113 | as written, the loop raises exactly when some record replaces the incumbent left by the records before it and has no y0, and it raises KeyError("y0") |
| RobustSelection.WithoutQueryFailsOnceTrained | app/utils/machine_learning/run_best_model.py:84-128 | as written, a call without x0 succeeds exactly when preparation and the split succeed and no candidate trained |
| RobustSelection.WinnerDependsOnOrder | app/utils/machine_learning/run_best_model.py:105-108 | records with R² 0.9 (RMSE 1) and 0.90005 (RMSE 2): the later of the two wins in either order |
| RobustSelection.WinnerWithoutPredictionRaises | app/utils/machine_learning/run_best_model.py:113-120 | as written, a winner whose prediction failed raises KeyError instead of falling back to linear |
| RobustSelection.WithGetFallsBackToLinear | app/utils/machine_learning/run_best_model.py:116-120 | corrected, the scan never raises and a winner without prediction reports the first linear prediction |
| RobustSelection.WithGetExample | app/utils/machine_learning/run_best_model.py:116-120 | corrected, the example above reports the winner with the linear prediction |
| StackModel.Log2Floor | app/utils/machine_learning/run_stack_model.py:25 | the largest k with 2^k ≤ n |
| StackModel.CvSplits | app/utils/machine_learning/run_stack_model.py:18-25 | no folds below 5 rows, 2 below 50, ⌊log2 n⌋ from 50 |
| StackModel.CvSplitsBounds | app/utils/machine_learning/run_stack_model.py:24-25 | from 50 rows: at least 5 folds, never more than the rows |
| StackModel.CvSplitsMonotone | app/utils/machine_learning/run_stack_model.py:24-25 | more rows never give fewer folds |
| StackModel.ConfigFor | app/utils/machine_learning/run_stack_model.py:29-67 | ElasticNet below 100 rows, ElasticNetCV from 100; up to three features only elastic with a linear final estimator, otherwise both estimators and gradient boosting; cv from the row count |
| StackModel.Dispatch | app/utils/machine_learning/run_stack_model.py:91-101 | each label maps to its own sub-model, any other string is a Panic |
| StackModel.StatsOf | app/utils/machine_learning/classify.py:22-25 | one statistics entry per training feature, computed from that column |
| StackModel.RoutedPredictions | app/utils/machine_learning/run_stack_model.py:82-101 | one prediction per query row, and every row's classifier label has a sub-model |
| StackModel.RunStackModel | app/utils/machine_learning/run_stack_model.py:12-114 | preparation and split errors propagate; when the split succeeds, a fit that raised gives the ensemble's fit error and otherwise the call succeeds; a success is the result record of the ensemble on the split with its metrics and, exactly when x0 was given, the routed predictions, so that entry i is the rounded prediction of the sub-model row i's label names; a fit error carries the ensemble's name; the Panic default is never reached |
| StackModel.RoutedRecordRows | app/utils/machine_learning/run_stack_model.py:82-114 | the record's y0 holds, row by row, the rounded prediction of the routed sub-model |
| StackModel.DispatchCoversClassifier | app/utils/machine_learning/run_stack_model.py:91-101 | every label the classifier produces has a sub-model |

## Left out

- Floating point: numbers are exact reals. `to_float_round` rounds a scalar with `round(float(v), 4)` and a list or array by a cast to float32 followed by numpy's rounding to 4 places; the two are the `scalar` and `element` halves of the parameter `round`, whose values are not modelled.
- NaN is not modelled. scikit-learn's R² of a single test row is NaN, and NaN compares false with everything.
- `str.lower()` is modelled on ASCII letters only.
- pydantic's coercion of the validated lists to `float` is not modelled. The schemas are modelled on JSON values up to validation.
- The stack-model schema declares `x0` without a default, so pydantic refuses a body that omits the key. The model treats an omitted `x0` like `null`.
- The sizes `train_test_split` gives each side, and its random shuffle, are left out. The split is an arbitrary mask, and the train fraction is stated only by `SplitPlanFor`.
- The regressors, `fit`/`predict`, the metric functions, `np.percentile` and `std` come from scikit-learn and numpy. They are parameters.
- StackModel.RunStackModel: a fit that raises is returned as `FitError` instead of propagating an exception, and scikit-learn's own handling of `cv=None` is not modelled.
- StackModel.Log2Floor: `np.log2` is computed in floating point. The model uses the exact floor. With a correctly rounded logarithm the two differ for n just below a power of two from 2^49 on: for n = 2^50 − 1 the rounded logarithm is 50.0, where the exact floor is 49.
- Error messages are paraphrased in English. Only the error kind is stated in the contracts.
- Printing, logging, the database, the HTTP routers, the middleware and the demo part of `temp.py` (lines 32-41) are not modelled. The routers are what call the modelled functions.
- IqrRouter.PointOf: numpy yields inf or nan for a zero range. The model sends that case to elastic, which is what both comparisons failing does. For numpy's own quartiles the range is never zero.
- Classify.ClassifyRows requires every query row to be no wider than the statistics. `prepare_input` guarantees this.
- Where the source's documentation and its code disagree, the model follows the code:
  - `classify` gives a three-way tie in the fallback vote to stacking, not elastic (`Classify.PluralityTieBreak`).
  - The robust policy's closeness test is `np.isclose`, which adds a relative tolerance (`RobustSelection.IsClose`).
  - `prepare_input` never compares the row counts of X and Y (`Preprocessing.RowCountNotChecked`).
  - The robust policy's comment promises the highest R², with ties broken by the lower RMSE. The winner depends on the order of the records: of two records whose R² values are within the tolerance, the later wins both when its R² is higher and when its RMSE is lower (`RobustSelection.WinnerDependsOnOrder`).
  - The composite score can exceed its documented bound of 1 (`ModelIndex.CompositeScoreCanExceedOne`).
  - Below 10 rows the split reuses the whole data, so the reported data size is twice the row count (`ModelIndex.SmallDataCountedTwice`).

## Findings

| source | as written | input that shows it | evidently intended | confidence | as-written member | corrected member |
|---|---|---|---|---|---|---|
| app/utils/machine_learning/main.py:178-187 | the selection loop reads `record["y0"]`, which is missing whenever x0 is absent, and `best_result` is bound only inside the loop | any request to the best-model endpoint without x0 (which its info message invites): the first record beats −inf and has no y0, so `KeyError` | read `record.get("y0")` and bind `best_result = None` before the loop, so every request gets the best model, without a prediction when there is no x0 | high (not executed) | SimpleSelection.WithoutQueryAlwaysFails | SimpleSelection.WithGetAlwaysAnswers |
| app/utils/machine_learning/run_best_model.py:113-120 | the selection loop reads `record["y0"]`, so a winner whose prediction on x0 raised makes the whole call raise; with real-valued test R² the linear fallback below it can never take effect (it is reached only when no record replaces −inf, as with the NaN R² of a one-row dataset, which the model does not represent) | records [linear with y0, other with no y0 and higher test R²] | read `record.get("y0")`, so the fallback replaces the missing prediction with the linear one | high (not executed) | RobustSelection.WinnerWithoutPredictionRaises | RobustSelection.WithGetFallsBackToLinear |
