/** The simple selection policy (`find_best_model` in `main.py`): every
    roster candidate is trained on one split, and the first record with the
    highest R² on the test set wins. The loop reads `record["y0"]`, which
    raises `KeyError` for a record without that key, and `best_result` is
    bound only inside the loop. Both are modelled as written; the variant
    that reads the key with `record.get("y0")` and binds `best_result` to
    `None` first is modelled beside it. */
module SimpleSelection {
  import opened Wrappers
  import opened Preprocessing
  import opened ModelIndex
  import opened ModelOption
  import opened Roster

  /** The loop variables: `best_model`, `best_r2`,
      `best_generalization_error`, whether `best_result` is bound, and its
      value. */
  datatype Scan = Scan(model: string, r2: ExtReal, gen: Option<real>, bound: bool, result: Option<seq<real>>)

  /** The state before the loop. As written `best_result` is unbound; the
      variant binds it to `None`. */
  function Start(getY0: bool): Scan
  {
    Scan("", NegInf, None, getY0, None)
  }

  /** The state after `rec` replaces the incumbent. */
  function Chosen(rec: Record): Scan
  {
    Scan(rec.model, Fin(rec.r2Test), Some(rec.generalizationError), true, rec.y0)
  }

  /** One iteration. With `getY0` false the key is read with `record["y0"]`,
      so a replacing record without y0 raises `KeyError`. */
  function Step(s: Scan, rec: Record, getY0: bool): Result<Scan>
  {
    if Above(rec.r2Test, s.r2) then
      if !getY0 && rec.y0.None? then Failure(KeyError("y0"))
      else Success(Chosen(rec))
    else Success(s)
  }

  /** The loop over the first n records. */
  function ScanRecords(records: seq<Record>, n: nat, getY0: bool): Result<Scan>
    requires n <= |records|
  {
    if n == 0 then Success(Start(getY0))
    else
      var prev := ScanRecords(records, n - 1, getY0);
      if prev.Failure? then prev else Step(prev.value, records[n - 1], getY0)
  }

  /** Record i has a higher R² than every record before it. */
  predicate StrictPrefixMax(records: seq<Record>, i: nat)
    requires i < |records|
  {
    forall j :: 0 <= j < i ==> records[j].r2Test < records[i].r2Test
  }

  /** Record w is the first record among the first n with the highest R². */
  predicate FirstMax(records: seq<Record>, n: nat, w: int)
    requires n <= |records|
  {
    0 <= w < n && StrictPrefixMax(records, w) &&
    forall j :: 0 <= j < n ==> records[j].r2Test <= records[w].r2Test
  }

  /** A scan that does not raise ends on the first record of maximal R²: the
      reported model, score, generalization error and prediction all come
      from that one record. Over no records it is the initial state. */
  lemma {:induction false} ScanPicksFirstMax(records: seq<Record>, n: nat, getY0: bool)
    requires n <= |records|
    ensures var r := ScanRecords(records, n, getY0);
      r.Success? ==>
        (n == 0 ==> r.value == Start(getY0)) &&
        (n > 0 ==> exists w :: FirstMax(records, n, w) && r.value == Chosen(records[w]))
  {
    if n > 0 {
      ScanPicksFirstMax(records, n - 1, getY0);
      var prev := ScanRecords(records, n - 1, getY0);
      if prev.Success? && Step(prev.value, records[n - 1], getY0).Success? {
        assert ScanRecords(records, n, getY0) == Step(prev.value, records[n - 1], getY0);
        if n - 1 == 0 {
          assert FirstMax(records, n, 0);
        } else {
          var w :| FirstMax(records, n - 1, w) && prev.value == Chosen(records[w]);
          FirstMaxStep(records, n, w, getY0);
        }
      }
    }
  }

  /** One iteration keeps the incumbent the first record of highest R². */
  lemma FirstMaxStep(records: seq<Record>, n: nat, w: int, getY0: bool)
    requires 1 < n <= |records|
    requires FirstMax(records, n - 1, w)
    requires Step(Chosen(records[w]), records[n - 1], getY0).Success?
    ensures exists v :: FirstMax(records, n, v) && Step(Chosen(records[w]), records[n - 1], getY0).value == Chosen(records[v])
  {
    if Above(records[n - 1].r2Test, Fin(records[w].r2Test)) {
      assert FirstMax(records, n, n - 1);
    } else {
      assert FirstMax(records, n, w);
    }
  }

  /** A failure in the loop ends it: a failed prefix fails the whole scan
      with the same error. (The robust policy keeps its own scan and its own
      copy of this lemma and the next, one per selection loop.) */
  lemma {:induction false} FailurePersists(records: seq<Record>, i: nat, n: nat, getY0: bool)
    requires i <= n <= |records|
    requires ScanRecords(records, i, getY0).Failure?
    ensures ScanRecords(records, n, getY0) == ScanRecords(records, i, getY0)
    decreases n - i
  {
    if i < n {
      FailurePersists(records, i, n - 1, getY0);
    }
  }

  /** As written, the scan raises `KeyError` exactly when some record beats
      every record before it (so it replaces the incumbent) and has no y0. */
  lemma {:induction false} ScanFailsIff(records: seq<Record>, n: nat)
    requires n <= |records|
    ensures ScanRecords(records, n, false).Failure? <==>
      exists i :: 0 <= i < n && StrictPrefixMax(records, i) && records[i].y0.None?
    ensures ScanRecords(records, n, false).Failure? ==> ScanRecords(records, n, false).error == KeyError("y0")
  {
    if n > 0 {
      ScanFailsIff(records, n - 1);
      var prev := ScanRecords(records, n - 1, false);
      var rec := records[n - 1];
      if prev.Failure? {
        var i :| 0 <= i < n - 1 && StrictPrefixMax(records, i) && records[i].y0.None?;
        assert 0 <= i < n;
      } else {
        PrefixMaxBeatsIncumbent(records, n - 1);
        assert forall i :: 0 <= i < n - 1 ==> !(StrictPrefixMax(records, i) && records[i].y0.None?);
        assert ScanRecords(records, n, false) == Step(prev.value, rec, false);
      }
    }
  }

  /** After a scan of the first n records that did not raise, record n
      replaces the incumbent exactly when it beats every record before it. */
  lemma PrefixMaxBeatsIncumbent(records: seq<Record>, n: nat)
    requires n < |records|
    requires ScanRecords(records, n, false).Success?
    ensures Above(records[n].r2Test, ScanRecords(records, n, false).value.r2) <==> StrictPrefixMax(records, n)
  {
    ScanPicksFirstMax(records, n, false);
    if n > 0 {
      var w :| FirstMax(records, n, w) && ScanRecords(records, n, false).value == Chosen(records[w]);
    }
  }

  /** With `record.get("y0")` the scan never raises. */
  lemma {:induction false} ScanWithGetSucceeds(records: seq<Record>, n: nat)
    requires n <= |records|
    ensures ScanRecords(records, n, true).Success?
  {
    if n > 0 {
      ScanWithGetSucceeds(records, n - 1);
    }
  }

  /** The selection loop of `find_best_model`, as written. */
  method SelectBest(records: seq<Record>) returns (r: Result<Scan>)
    ensures r == ScanRecords(records, |records|, false)
  {
    var bestModel := "";
    var bestR2 := NegInf;
    var bestGen: Option<real> := None;
    var bound := false;
    var bestResult: Option<seq<real>> := None;
    for i := 0 to |records|
      invariant ScanRecords(records, i, false) == Success(Scan(bestModel, bestR2, bestGen, bound, bestResult))
    {
      var r2 := records[i].r2Test;
      if Above(r2, bestR2) {
        bestModel := records[i].model;
        bestR2 := Fin(r2);
        bestGen := Some(records[i].generalizationError);
        if records[i].y0.None? {
          FailurePersists(records, i + 1, |records|, false);
          return Failure(KeyError("y0"));
        }
        bestResult := records[i].y0;
        bound := true;
      }
    }
    return Success(Scan(bestModel, bestR2, bestGen, bound, bestResult));
  }

  /** The returned dictionary. `score` is `best_score`, `result` is
      `best_result`. */
  datatype Best = Best(model: string, score: ExtReal, generalizationError: Option<real>, result: Option<seq<real>>)

  /** After the loop: with x0 given, an empty (falsy) prediction is replaced
      by the linear fallback; reading an unbound `best_result` raises. */
  function Finish(records: seq<Record>, s: Scan, x0Given: bool): (r: Result<Best>)
    ensures r.Failure? <==> !s.bound
    ensures r.Failure? ==> r.error == UnboundLocal("best_result")
    ensures r.Success? ==> r.value.model == s.model && r.value.score == s.r2 && r.value.generalizationError == s.gen
    ensures r.Success? && !x0Given ==> r.value.result == s.result
    ensures r.Success? && x0Given ==>
      r.value.result == if s.result.Some? && s.result.value != [] then s.result else FirstLinearY0(records)
  {
    if !s.bound then Failure(UnboundLocal("best_result"))
    else if x0Given then
      var best := if s.result.Some? && s.result.value != [] then s.result else FirstLinearY0(records);
      Success(Best(s.model, s.r2, s.gen, best))
    else Success(Best(s.model, s.r2, s.gen, s.result))
  }

  /** `find_best_model`, as written (`getY0` false) or with the key read by
      `get` (`getY0` true). */
  function BestModelOf(x: NumArray, y: NumArray, x0: Option<NumArray>, mask: seq<bool>,
                       fit: ModelKey -> Fit, round: Rounding, getY0: bool): Result<Best>
  {
    var p := PrepareInput(x, y, x0);
    if p.Failure? then Failure(p.error)
    else
      var s := SplittingData(p.value.x, p.value.y, mask);
      if s.Failure? then Failure(s.error)
      else
        var records := AllModels(RosterKeys, s.value, p.value.x0, fit, round);
        var scan := ScanRecords(records, |records|, getY0);
        if scan.Failure? then Failure(scan.error)
        else Finish(records, scan.value, p.value.x0.Some?)
  }

  /** `find_best_model` as written. */
  method FindBestModel(x: NumArray, y: NumArray, x0: Option<NumArray>, mask: seq<bool>,
                       fit: ModelKey -> Fit, round: Rounding) returns (r: Result<Best>)
    ensures r == BestModelOf(x, y, x0, mask, fit, round, false)
  {
    var p := PrepareInput(x, y, x0);
    if p.Failure? {
      return Failure(p.error);
    }
    var s := SplittingData(p.value.x, p.value.y, mask);
    if s.Failure? {
      return Failure(s.error);
    }
    var records := RunAllModel(s.value, p.value.x0, fit, round);
    var scan := SelectBest(records);
    if scan.Failure? {
      return Failure(scan.error);
    }
    var st := scan.value;
    if !st.bound {
      return Failure(UnboundLocal("best_result"));
    }
    var best := st.result;
    if p.value.x0.Some? && !(best.Some? && best.value != []) {
      best := FallbackToLinear(records);
    }
    return Success(Best(st.model, st.r2, st.gen, best));
  }

  /** What the written loop and its epilogue return when they return: the
      first record of highest test R² supplies the model, the score, the
      generalization error and the prediction, the prediction being replaced
      by the linear fallback only when x0 was given and the winner's
      prediction is empty. */
  lemma {:induction false} FinishPicksFirstMax(records: seq<Record>, x0Given: bool)
    requires ScanRecords(records, |records|, false).Success?
    requires Finish(records, ScanRecords(records, |records|, false).value, x0Given).Success?
    ensures var b := Finish(records, ScanRecords(records, |records|, false).value, x0Given).value;
      exists w :: FirstMax(records, |records|, w) &&
        b.model == records[w].model && b.score == Fin(records[w].r2Test) &&
        b.generalizationError == Some(records[w].generalizationError) &&
        records[w].y0.Some? &&
        b.result == if x0Given && records[w].y0.value == [] then FirstLinearY0(records) else records[w].y0
  {
    ScanPicksFirstMax(records, |records|, false);
    var w :| FirstMax(records, |records|, w) &&
             ScanRecords(records, |records|, false).value == Chosen(records[w]);
    ScanFailsIff(records, |records|);
    assert StrictPrefixMax(records, w);
  }

  /** `find_best_model`, when it returns, reports the first record of highest
      test R² among the candidates that trained. */
  lemma BestIsFirstMaximum(x: NumArray, y: NumArray, x0: Option<NumArray>, mask: seq<bool>,
                           fit: ModelKey -> Fit, round: Rounding)
    requires BestModelOf(x, y, x0, mask, fit, round, false).Success?
    ensures var p := PrepareInput(x, y, x0).value;
      var records := AllModels(RosterKeys, SplittingData(p.x, p.y, mask).value, p.x0, fit, round);
      ReportsFirstMax(records, BestModelOf(x, y, x0, mask, fit, round, false).value)
  {
    var p := PrepareInput(x, y, x0).value;
    var records := AllModels(RosterKeys, SplittingData(p.x, p.y, mask).value, p.x0, fit, round);
    var b := BestModelOf(x, y, x0, mask, fit, round, false);
    assert ScanRecords(records, |records|, false).Success? &&
           b == Finish(records, ScanRecords(records, |records|, false).value, p.x0.Some?);
    FinishIsFirstMax(records, p.x0.Some?, b.value);
  }

  /** `b` reports the model, score and generalization error of the first
      record of highest R². */
  ghost predicate ReportsFirstMax(records: seq<Record>, b: Best)
  {
    exists w ::
      FirstMax(records, |records|, w) &&
      b.model == records[w].model && b.score == Fin(records[w].r2Test) &&
      b.generalizationError == Some(records[w].generalizationError)
  }

  /** The values `Finish` returns are those of the first record of highest
      R². */
  lemma FinishIsFirstMax(records: seq<Record>, x0Given: bool, b: Best)
    requires ScanRecords(records, |records|, false).Success?
    requires Finish(records, ScanRecords(records, |records|, false).value, x0Given) == Success(b)
    ensures ReportsFirstMax(records, b)
  {
    FinishPicksFirstMax(records, x0Given);
  }

  /** With no record (every candidate raised), `best_result` is never bound
      and the function raises, with or without x0. */
  lemma NoRecordIsUnbound(records: seq<Record>, x0Given: bool)
    requires records == []
    ensures Finish(records, ScanRecords(records, 0, false).value, x0Given) == Failure(UnboundLocal("best_result"))
  {
  }

  /** As written, a request without x0 never gets a result: the first record
      always replaces the initial -inf and has no y0 key, so the loop raises
      `KeyError`; with no record at all the read of `best_result` raises. */
  lemma WithoutQueryAlwaysFails(x: NumArray, y: NumArray, mask: seq<bool>, fit: ModelKey -> Fit, round: Rounding)
    ensures BestModelOf(x, y, None, mask, fit, round, false).Failure?
  {
    var p := PrepareInput(x, y, None);
    if p.Success? {
      var s := SplittingData(p.value.x, p.value.y, mask);
      if s.Success? {
        var records := AllModels(RosterKeys, s.value, p.value.x0, fit, round);
        AllModelsFollowTrained(RosterKeys, s.value, p.value.x0, fit, round);
        ScanFailsIff(records, |records|);
        if records != [] {
          assert StrictPrefixMax(records, 0) && records[0].y0.None?;
        }
      }
    }
  }

  /** With `record.get("y0")` and `best_result` bound to `None` before the
      loop, every request that survives preprocessing and the split gets a
      result; without x0 the result carries no prediction. */
  lemma WithGetAlwaysAnswers(x: NumArray, y: NumArray, x0: Option<NumArray>, mask: seq<bool>,
                             fit: ModelKey -> Fit, round: Rounding)
    requires PrepareInput(x, y, x0).Success?
    requires SplittingData(PrepareInput(x, y, x0).value.x, PrepareInput(x, y, x0).value.y, mask).Success?
    ensures BestModelOf(x, y, x0, mask, fit, round, true).Success?
    ensures x0.None? ==> BestModelOf(x, y, x0, mask, fit, round, true).value.result.None?
  {
    var p := PrepareInput(x, y, x0).value;
    var s := SplittingData(p.x, p.y, mask).value;
    var records := AllModels(RosterKeys, s, p.x0, fit, round);
    ScanWithGetSucceeds(records, |records|);
    ScanPicksFirstMax(records, |records|, true);
    AllModelsFollowTrained(RosterKeys, s, p.x0, fit, round);
  }

  /** Whenever the written version answers, the variant gives the same
      answer. */
  lemma WithGetAgrees(x: NumArray, y: NumArray, x0: Option<NumArray>, mask: seq<bool>,
                      fit: ModelKey -> Fit, round: Rounding)
    requires BestModelOf(x, y, x0, mask, fit, round, false).Success?
    ensures BestModelOf(x, y, x0, mask, fit, round, true) == BestModelOf(x, y, x0, mask, fit, round, false)
  {
    var p := PrepareInput(x, y, x0).value;
    var s := SplittingData(p.x, p.y, mask).value;
    var records := AllModels(RosterKeys, s, p.x0, fit, round);
    ScanPicksFirstMax(records, |records|, false);
    ScanPicksFirstMax(records, |records|, true);
    ScanWithGetSucceeds(records, |records|);
    SameWinner(records, |records|);
  }

  /** When the written scan succeeds, both scans agree on every prefix once
      a record has been chosen. */
  lemma {:induction false} SameWinner(records: seq<Record>, n: nat)
    requires n <= |records|
    requires ScanRecords(records, n, false).Success?
    ensures n > 0 ==> ScanRecords(records, n, true) == ScanRecords(records, n, false)
    ensures n == 0 ==> ScanRecords(records, n, true).value.r2 == NegInf
  {
    if n > 0 {
      SameWinner(records, n - 1);
      ScanWithGetSucceeds(records, n - 1);
    }
  }
}
