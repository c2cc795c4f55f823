/** The robust selection policy (`run_best_model` in `run_best_model.py`):
    a record replaces the incumbent when its test R² is higher, or when the
    two R² values are close and its test RMSE is lower, or when both are
    close and its generalization error is lower. Closeness is numpy's
    `isclose` with `atol=1e-4` and the default `rtol=1e-5`. As in the simple
    policy the loop reads `record["y0"]`. */
module RobustSelection {
  import opened Wrappers
  import opened Preprocessing
  import opened ModelIndex
  import opened ModelOption
  import opened Roster

  /** `np.isclose(a, b, atol=1e-4)`: |a - b| <= 1e-4 + 1e-5·|b|; a finite
      value is never close to an infinity. */
  predicate IsClose(a: real, b: ExtReal)
  {
    b.Fin? && Abs(a - b.r) <= 0.0001 + 0.00001 * Abs(b.r)
  }

  /** The loop variables `best_model`, `best_r2`, `best_rmse`,
      `best_generalization_error` and `best_result`. */
  datatype Incumbent = Incumbent(model: string, r2: ExtReal, rmse: ExtReal, gen: ExtReal, result: Option<seq<real>>)

  const Start := Incumbent("", NegInf, PosInf, PosInf, None)

  function Chosen(rec: Record): Incumbent
  {
    Incumbent(rec.model, Fin(rec.r2Test), Fin(rec.rmseTest), Fin(rec.generalizationError), rec.y0)
  }

  /** The replacement condition of the loop. */
  predicate Replaces(rec: Record, s: Incumbent)
  {
    Above(rec.r2Test, s.r2) ||
    (IsClose(rec.r2Test, s.r2) && Below(rec.rmseTest, s.rmse)) ||
    (IsClose(rec.r2Test, s.r2) && IsClose(rec.rmseTest, s.rmse) && Below(rec.generalizationError, s.gen))
  }

  /** One iteration; with `getY0` false the key is read with `record["y0"]`. */
  function Step(s: Incumbent, rec: Record, getY0: bool): Result<Incumbent>
  {
    if Replaces(rec, s) then
      if !getY0 && rec.y0.None? then Failure(KeyError("y0"))
      else Success(Chosen(rec))
    else Success(s)
  }

  function ScanRecords(records: seq<Record>, n: nat, getY0: bool): Result<Incumbent>
    requires n <= |records|
  {
    if n == 0 then Success(Start)
    else
      var prev := ScanRecords(records, n - 1, getY0);
      if prev.Failure? then prev else Step(prev.value, records[n - 1], getY0)
  }

  /** Record w is the last record among the first n to replace the
      incumbent: the state holds its five values, and no later record would
      replace it. */
  predicate LastReplacement(records: seq<Record>, n: nat, w: int, s: Incumbent)
    requires n <= |records|
  {
    0 <= w < n && s == Chosen(records[w]) &&
    forall j :: w < j < n ==> !Replaces(records[j], s)
  }

  /** After a scan that did not raise, the five reported values come from
      one and the same record, which no later record displaces; over no
      records they are the initial values. The first record always
      replaces the initial state, whose R² is -inf. */
  lemma {:induction false} ScanKeepsOneRecord(records: seq<Record>, n: nat, getY0: bool)
    requires n <= |records|
    ensures var r := ScanRecords(records, n, getY0);
      r.Success? ==>
        (n == 0 ==> r.value == Start) &&
        (n > 0 ==> exists w :: LastReplacement(records, n, w, r.value))
  {
    if n > 0 {
      ScanKeepsOneRecord(records, n - 1, getY0);
      var prev := ScanRecords(records, n - 1, getY0);
      var rec := records[n - 1];
      if prev.Success? && Step(prev.value, rec, getY0).Success? {
        var s := ScanRecords(records, n, getY0).value;
        if Replaces(rec, prev.value) {
          assert LastReplacement(records, n, n - 1, s);
        } else {
          var w :| LastReplacement(records, n - 1, w, prev.value);
          assert LastReplacement(records, n, w, s);
        }
      }
    }
  }

  /** No record after the winner has a higher test R²: such a record would
      have replaced it. */
  lemma NoLaterHigherR2(records: seq<Record>, n: nat, w: int, s: Incumbent)
    requires n <= |records|
    requires LastReplacement(records, n, w, s)
    ensures forall j :: w < j < n ==> records[j].r2Test <= records[w].r2Test
  {
    forall j | w < j < n
      ensures records[j].r2Test <= records[w].r2Test
    {
      assert !Replaces(records[j], s);
    }
  }

  /** The winner need not have the highest R²: a record whose R² is within
      the tolerance of the incumbent's and whose RMSE is lower takes over. */
  lemma WinnerMayTrailOnR2(a: Record, b: Record)
    requires a.r2Test == 0.9 && b.r2Test == 0.89995
    requires a.rmseTest == 2.0 && b.rmseTest == 1.0 && a.y0.Some? && b.y0.Some?
    ensures ScanRecords([a, b], 2, false) == Success(Chosen(b))
  {
    assert ScanRecords([a, b], 1, false) == Success(Chosen(a));
    assert IsClose(b.r2Test, Fin(0.9));
  }

  lemma {:induction false} FailurePersists(records: seq<Record>, i: nat, n: nat, getY0: bool)
    requires i <= n <= |records|
    requires ScanRecords(records, i, getY0).Failure?
    ensures ScanRecords(records, n, getY0) == ScanRecords(records, i, getY0)
    decreases n - i
  {
    if i < n {
      FailurePersists(records, i, n - 1, getY0);
    }
  }

  /** With `record.get("y0")` the scan never raises. */
  lemma {:induction false} ScanWithGetSucceeds(records: seq<Record>, n: nat)
    requires n <= |records|
    ensures ScanRecords(records, n, true).Success?
  {
    if n > 0 {
      ScanWithGetSucceeds(records, n - 1);
    }
  }

  /** The selection loop of `run_best_model`, as written. */
  method SelectBest(records: seq<Record>) returns (r: Result<Incumbent>)
    ensures r == ScanRecords(records, |records|, false)
  {
    var bestModel := "";
    var bestR2 := NegInf;
    var bestRmse := PosInf;
    var bestGen := PosInf;
    var bestResult: Option<seq<real>> := None;
    for i := 0 to |records|
      invariant ScanRecords(records, i, false) == Success(Incumbent(bestModel, bestR2, bestRmse, bestGen, bestResult))
    {
      var r2 := records[i].r2Test;
      var rmse := records[i].rmseTest;
      var genErr := records[i].generalizationError;
      if Above(r2, bestR2) ||
         (IsClose(r2, bestR2) && Below(rmse, bestRmse)) ||
         (IsClose(r2, bestR2) && IsClose(rmse, bestRmse) && Below(genErr, bestGen)) {
        bestModel := records[i].model;
        bestR2 := Fin(r2);
        bestRmse := Fin(rmse);
        bestGen := Fin(genErr);
        if records[i].y0.None? {
          FailurePersists(records, i + 1, |records|, false);
          return Failure(KeyError("y0"));
        }
        bestResult := records[i].y0;
      }
    }
    return Success(Incumbent(bestModel, bestR2, bestRmse, bestGen, bestResult));
  }

  /** The returned dictionary. */
  datatype Best = Best(model: string, r2: ExtReal, rmse: ExtReal, gen: ExtReal, result: Option<seq<real>>)

  /** After the loop: with x0 given and no prediction, the first linear
      record's prediction is used. */
  function Finish(records: seq<Record>, s: Incumbent, x0Given: bool): (b: Best)
    ensures b.model == s.model && b.r2 == s.r2 && b.rmse == s.rmse && b.gen == s.gen
    ensures x0Given && s.result.None? ==> b.result == FirstLinearY0(records)
    ensures !(x0Given && s.result.None?) ==> b.result == s.result
  {
    Best(s.model, s.r2, s.rmse, s.gen, if x0Given && s.result.None? then FirstLinearY0(records) else s.result)
  }

  /** `run_best_model`, as written (`getY0` false) or with the key read by
      `get` (`getY0` true). */
  function BestModelOf(x: NumArray, y: NumArray, x0: Option<NumArray>, mask: seq<bool>,
                       fit: ModelKey -> Fit, round: Rounding, getY0: bool): Result<Best>
  {
    var p := PrepareInput(x, y, x0);
    if p.Failure? then Failure(p.error)
    else
      var s := SplittingData(p.value.x, p.value.y, mask);
      if s.Failure? then Failure(s.error)
      else
        var records := AllModels(RosterKeys, s.value, p.value.x0, fit, round);
        var scan := ScanRecords(records, |records|, getY0);
        if scan.Failure? then Failure(scan.error)
        else Success(Finish(records, scan.value, p.value.x0.Some?))
  }

  /** `run_best_model` as written. */
  method RunBestModel(x: NumArray, y: NumArray, x0: Option<NumArray>, mask: seq<bool>,
                      fit: ModelKey -> Fit, round: Rounding) returns (r: Result<Best>)
    ensures r == BestModelOf(x, y, x0, mask, fit, round, false)
  {
    var p := PrepareInput(x, y, x0);
    if p.Failure? {
      return Failure(p.error);
    }
    var s := SplittingData(p.value.x, p.value.y, mask);
    if s.Failure? {
      return Failure(s.error);
    }
    var records := RunAllModel(s.value, p.value.x0, fit, round);
    var scan := SelectBest(records);
    if scan.Failure? {
      return Failure(scan.error);
    }
    var best := scan.value;
    var bestResult := best.result;
    if p.value.x0.Some? && bestResult.None? {
      bestResult := FallbackToLinear(records);
    }
    return Success(Best(best.model, best.r2, best.rmse, best.gen, bestResult));
  }

  /** With no record, the result is ("", -inf, +inf, +inf, None). */
  lemma NoRecordGivesInitialValues(x0Given: bool)
    ensures Finish([], ScanRecords([], 0, false).value, x0Given) == Best("", NegInf, PosInf, PosInf, None)
  {
  }

  /** As written the linear fallback never changes the result: a scan that
      does not raise over at least one record has taken its prediction from
      a record that had one, and over no record there is no linear record to
      fall back on. */
  lemma FallbackIsDead(records: seq<Record>, x0Given: bool)
    requires ScanRecords(records, |records|, false).Success?
    ensures Finish(records, ScanRecords(records, |records|, false).value, x0Given).result ==
            ScanRecords(records, |records|, false).value.result
  {
    ScanKeepsOneRecord(records, |records|, false);
    if records != [] {
      WinnerHasPrediction(records, |records|);
    }
  }

  /** In a scan that did not raise, the incumbent's prediction is present
      once some record has been chosen. */
  lemma {:induction false} WinnerHasPrediction(records: seq<Record>, n: nat)
    requires 0 < n <= |records|
    requires ScanRecords(records, n, false).Success?
    ensures ScanRecords(records, n, false).value.result.Some?
  {
    if n > 1 {
      WinnerHasPrediction(records, n - 1);
    }
  }

  /** As written, a winner whose prediction on x0 raised makes the function
      raise `KeyError` instead of reaching the linear fallback: here the
      second record, whose prediction failed, beats the linear one. */
  lemma WinnerWithoutPredictionRaises(linear: Record, other: Record)
    requires linear.model == "linear" && linear.y0.Some? && other.y0.None?
    requires other.r2Test > linear.r2Test
    ensures ScanRecords([linear, other], 2, false) == Failure(KeyError("y0"))
  {
    assert ScanRecords([linear, other], 1, false) == Success(Chosen(linear));
  }

  /** As written, the scan raises at record i when the records before it
      left an incumbent, record i replaces it, and record i has no y0. */
  predicate RaisesAt(records: seq<Record>, i: nat)
    requires i < |records|
  {
    var s := ScanRecords(records, i, false);
    s.Success? && Replaces(records[i], s.value) && records[i].y0.None?
  }

  /** As written, the scan over the first n records raises exactly when some
      record among them raises at its own turn, and what it raises is
      `KeyError("y0")`. */
  lemma {:induction false} ScanFailsIff(records: seq<Record>, n: nat)
    requires n <= |records|
    ensures ScanRecords(records, n, false).Failure? <==> exists i :: 0 <= i < n && RaisesAt(records, i)
    ensures ScanRecords(records, n, false).Failure? ==> ScanRecords(records, n, false).error == KeyError("y0")
  {
    if n > 0 {
      ScanFailsIff(records, n - 1);
      if ScanRecords(records, n - 1, false).Success? {
        if ScanRecords(records, n, false).Failure? {
          assert RaisesAt(records, n - 1);
        }
        if exists i :: 0 <= i < n && RaisesAt(records, i) {
          var i :| 0 <= i < n && RaisesAt(records, i);
          assert i == n - 1;
        }
      } else {
        var i :| 0 <= i < n - 1 && RaisesAt(records, i);
        assert 0 <= i < n && RaisesAt(records, i);
      }
    }
  }

  /** As written, a request without x0 gets an answer only when no candidate
      trained: the first record replaces the initial -inf and has no y0 key;
      with no record at all the initial values are returned. */
  lemma WithoutQueryFailsOnceTrained(x: NumArray, y: NumArray, mask: seq<bool>, fit: ModelKey -> Fit, round: Rounding)
    ensures BestModelOf(x, y, None, mask, fit, round, false).Success? <==>
      PrepareInput(x, y, None).Success? &&
      SplittingData(PrepareInput(x, y, None).value.x, PrepareInput(x, y, None).value.y, mask).Success? &&
      Trained(RosterKeys, fit) == []
  {
    var p := PrepareInput(x, y, None);
    if p.Success? {
      var s := SplittingData(p.value.x, p.value.y, mask);
      if s.Success? {
        var records := AllModels(RosterKeys, s.value, p.value.x0, fit, round);
        AllModelsFollowTrained(RosterKeys, s.value, p.value.x0, fit, round);
        ScanFailsIff(records, |records|);
        if records != [] {
          assert RaisesAt(records, 0);
        }
      }
    }
  }

  /** The winner depends on the order of the records: of two records whose
      R² values are within the tolerance, the later one wins when its R² is
      higher (despite a higher RMSE) and also when its RMSE is lower
      (despite a lower R²). */
  lemma WinnerDependsOnOrder(a: Record, b: Record)
    requires a.r2Test == 0.9 && b.r2Test == 0.90005
    requires a.rmseTest == 1.0 && b.rmseTest == 2.0 && a.y0.Some? && b.y0.Some?
    ensures ScanRecords([a, b], 2, false) == Success(Chosen(b))
    ensures ScanRecords([b, a], 2, false) == Success(Chosen(a))
  {
    assert ScanRecords([a, b], 1, false) == Success(Chosen(a));
    assert ScanRecords([b, a], 1, false) == Success(Chosen(b));
    assert IsClose(a.r2Test, Fin(0.90005));
  }

  /** With `record.get("y0")` the fallback does what it documents: when x0
      is given and the winner has no prediction, the first linear record's
      prediction is reported. */
  lemma WithGetFallsBackToLinear(records: seq<Record>)
    ensures ScanRecords(records, |records|, true).Success?
    ensures var s := ScanRecords(records, |records|, true).value;
      s.result.None? ==> Finish(records, s, true).result == FirstLinearY0(records)
  {
    ScanWithGetSucceeds(records, |records|);
  }

  /** In that case the second record of the example above is reported with
      the linear record's prediction. */
  lemma WithGetExample(linear: Record, other: Record)
    requires linear.model == "linear" && linear.y0.Some? && other.y0.None?
    requires other.r2Test > linear.r2Test
    ensures ScanRecords([linear, other], 2, true) == Success(Chosen(other))
    ensures var b := Finish([linear, other], Chosen(other), true);
      b.model == other.model && b.result == linear.y0
  {
    assert ScanRecords([linear, other], 1, true) == Success(Chosen(linear));
    assert ScanRecords([linear, other], 2, true) == Success(Chosen(other));
    assert [linear, other][1..] == [other];
  }
}
