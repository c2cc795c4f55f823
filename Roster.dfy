/** The candidate roster shared by both selection policies (`run_all_model`
    and `fallback_to_linear`, written out identically in `main.py` and in
    `run_best_model.py`). Each candidate is trained on the same split; one
    that raises is skipped and the others still run. */
module Roster {
  import opened Wrappers
  import opened Preprocessing
  import opened ModelIndex
  import opened ModelOption

  /** The fixed roster, in the order it is tried. */
  const RosterKeys: seq<ModelKey> := [Linear, ElasticNet, DecisionTree, RandomForest, Svr, Knn]

  /** The record of one candidate that trained: the prediction on x0 is kept
      only when x0 was given. */
  function CandidateRecord(k: ModelKey, split: SplitData, x0: Option<Matrix>,
                           m: Metrics, query: Option<seq<real>>, round: Rounding): (r: Record)
    ensures r.model == KeyName(k)
    ensures r.y0.Some? <==> x0.Some? && query.Some?
  {
    PredictingResult(KeyName(k), split, m, x0, if x0.Some? then query else None, round)
  }

  /** The records of the candidates in `keys` that trained, in order. */
  function AllModels(keys: seq<ModelKey>, split: SplitData, x0: Option<Matrix>,
                     fit: ModelKey -> Fit, round: Rounding): (rs: seq<Record>)
    ensures |rs| <= |keys|
  {
    if keys == [] then []
    else
      var k := keys[|keys| - 1];
      var before := AllModels(keys[..|keys| - 1], split, x0, fit, round);
      match fit(k)
      case FitCrashed => before
      case Fitted(m, query) => before + [CandidateRecord(k, split, x0, m, query, round)]
  }

  /** `run_all_model`. */
  method RunAllModel(split: SplitData, x0: Option<Matrix>, fit: ModelKey -> Fit, round: Rounding)
    returns (result: seq<Record>)
    ensures result == AllModels(RosterKeys, split, x0, fit, round)
    ensures |result| <= 6
  {
    result := [];
    for i := 0 to |RosterKeys|
      invariant result == AllModels(RosterKeys[..i], split, x0, fit, round)
    {
      var k := RosterKeys[i];
      ghost var keys := RosterKeys[..i + 1];
      assert keys[..i] == RosterKeys[..i] && keys[i] == k;
      match fit(k)
      case FitCrashed =>
      case Fitted(m, query) =>
        var y0 := if x0.Some? then query else None;
        result := result + [PredictingResult(KeyName(k), split, m, x0, y0, round)];
    }
    assert RosterKeys[..|RosterKeys|] == RosterKeys;
  }

  /** The candidates of `keys` that trained, in order. */
  function Trained(keys: seq<ModelKey>, fit: ModelKey -> Fit): (t: seq<ModelKey>)
    ensures forall k :: k in t <==> k in keys && fit(k).Fitted?
  {
    if keys == [] then []
    else
      var k := keys[|keys| - 1];
      var init := keys[..|keys| - 1];
      assert keys == init + [k];
      Trained(init, fit) + (if fit(k).Fitted? then [k] else [])
  }

  /** `a` is `b` with some elements removed, the rest kept in order. */
  predicate SubsequenceOf<T(==)>(a: seq<T>, b: seq<T>)
    decreases |b|
  {
    a == [] ||
    (b != [] &&
     ((a[|a| - 1] == b[|b| - 1] && SubsequenceOf(a[..|a| - 1], b[..|b| - 1])) ||
      SubsequenceOf(a, b[..|b| - 1])))
  }

  lemma {:induction false} TrainedIsSubsequence(keys: seq<ModelKey>, fit: ModelKey -> Fit)
    ensures SubsequenceOf(Trained(keys, fit), keys)
  {
    if keys != [] {
      var k := keys[|keys| - 1];
      var init := keys[..|keys| - 1];
      TrainedIsSubsequence(init, fit);
      var t := Trained(keys, fit);
      if fit(k).Fitted? {
        assert t[..|t| - 1] == Trained(init, fit) && t[|t| - 1] == k;
        assert SubsequenceOf(t[..|t| - 1], keys[..|keys| - 1]);
      } else {
        assert t == Trained(init, fit);
      }
    }
  }

  /** `run_all_model` yields one record per candidate that trained, in roster
      order: record i is that of the i-th trained candidate, it carries that
      candidate's name, and it holds y0 exactly when x0 was given and the
      candidate's prediction on x0 succeeded. */
  lemma {:induction false} AllModelsFollowTrained(keys: seq<ModelKey>, split: SplitData, x0: Option<Matrix>,
                                                  fit: ModelKey -> Fit, round: Rounding)
    ensures var rs := AllModels(keys, split, x0, fit, round);
      var t := Trained(keys, fit);
      |rs| == |t| &&
      forall i :: 0 <= i < |rs| ==>
        rs[i].model == KeyName(t[i]) && fit(t[i]).Fitted? &&
        (rs[i].y0.Some? <==> x0.Some? && fit(t[i]).query.Some?)
  {
    if keys != [] {
      AllModelsFollowTrained(keys[..|keys| - 1], split, x0, fit, round);
    }
  }

  /** The roster names are distinct, so a record's model names the candidate
      it came from. */
  lemma RosterNamesDistinct()
    ensures forall i, j :: 0 <= i < j < |RosterKeys| ==> KeyName(RosterKeys[i]) != KeyName(RosterKeys[j])
  {
  }

  /** The output of `run_all_model` is at most six records whose models form
      an order-preserving subsequence of the roster, with every candidate
      that trained present. */
  lemma RunAllModelIsRosterSubsequence(split: SplitData, x0: Option<Matrix>, fit: ModelKey -> Fit, round: Rounding)
    ensures var rs := AllModels(RosterKeys, split, x0, fit, round);
      var t := Trained(RosterKeys, fit);
      |rs| == |t| <= 6 && SubsequenceOf(t, RosterKeys) &&
      (forall i :: 0 <= i < |rs| ==> rs[i].model == KeyName(t[i])) &&
      (forall k :: k in RosterKeys && fit(k).Fitted? <==> k in t)
  {
    AllModelsFollowTrained(RosterKeys, split, x0, fit, round);
    TrainedIsSubsequence(RosterKeys, fit);
  }

  // ---------------------------------------------------------------------
  // fallback_to_linear
  // ---------------------------------------------------------------------

  /** The prediction on x0 of the first "linear" record that has one. */
  function FirstLinearY0(records: seq<Record>): (y0: Option<seq<real>>)
    ensures y0.Some? <==> exists i :: 0 <= i < |records| && records[i].model == "linear" && records[i].y0.Some?
    ensures y0.Some? ==> exists i :: 0 <= i < |records| && records[i].model == "linear" && records[i].y0 == y0 &&
                                   forall j :: 0 <= j < i ==> !(records[j].model == "linear" && records[j].y0.Some?)
  {
    if records == [] then None
    else if records[0].model == "linear" && records[0].y0.Some? then records[0].y0
    else
      var rest := FirstLinearY0(records[1..]);
      assert forall i :: 1 <= i < |records| ==> records[i] == records[1..][i - 1];
      if rest.Some? then
        ghost var i :| 0 <= i < |records[1..]| && records[1..][i].model == "linear" && records[1..][i].y0 == rest &&
          forall j :: 0 <= j < i ==> !(records[1..][j].model == "linear" && records[1..][j].y0.Some?);
        assert records[i + 1].y0 == rest;
        rest
      else rest
  }

  /** `fallback_to_linear`. */
  method FallbackToLinear(records: seq<Record>) returns (y0: Option<seq<real>>)
    ensures y0 == FirstLinearY0(records)
  {
    for i := 0 to |records|
      invariant FirstLinearY0(records) == FirstLinearY0(records[i..])
    {
      if records[i].model == "linear" && records[i].y0.Some? {
        return records[i].y0;
      }
      assert records[i..][1..] == records[i + 1..];
    }
    return None;
  }
}
