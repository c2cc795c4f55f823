/** The request validators of the two input schemas (`InputBestModel` and
    `InputStackModelData`). Both schemas carry the same `ensure_2d` and
    `check_columns_match` validators, so they are defined once here. The
    validators see the request payload before pydantic converts it to floats,
    so their input is a JSON value. */
module Schemas {
  import opened Wrappers

  /** A JSON value. Booleans are kept apart from numbers because the validators
      test `isinstance(el, (int, float))`, which a Python `bool` passes. */
  datatype Json =
    | Num(x: real)
    | Flag(b: bool)
    | Text(s: string)
    | Null
    | List(items: seq<Json>)
    | Object

  /** A list of rows, each a list of JSON values. */
  type Grid = seq<seq<Json>>

  predicate IsNumber(v: Json)
  {
    v.Num? || v.Flag?
  }

  predicate AllNumbers(s: seq<Json>)
  {
    forall i :: 0 <= i < |s| ==> IsNumber(s[i])
  }

  predicate AllLists(s: seq<Json>)
  {
    forall i :: 0 <= i < |s| ==> s[i].List?
  }

  /** The JSON list that a grid stands for. */
  function Encode(g: Grid): Json
  {
    List(seq(|g|, i requires 0 <= i < |g| => List(g[i])))
  }

  /** `[[el] for el in v]`: one single-element row per element. */
  function Column(s: seq<Json>): Grid
  {
    seq(|s|, i requires 0 <= i < |s| => [s[i]])
  }

  /** The rows of a list of lists. */
  function Rows(s: seq<Json>): Grid
    requires AllLists(s)
  {
    seq(|s|, i requires 0 <= i < |s| => s[i].items)
  }

  predicate AllRowsNumeric(g: Grid)
  {
    forall i :: 0 <= i < |g| ==> AllNumbers(g[i])
  }

  const EmptyMessage := "X_array/x0 must not be empty"
  const NotNumericMessage := "every element of the matrix must be a number"
  const BadShapeMessage := "invalid data type for a matrix"

  /** `ensure_2d`: None passes through; anything but a non-empty list is
      rejected; a flat list of numbers becomes a column matrix; a list of lists
      passes unchanged when every element is a number; anything else is
      rejected. A JSON `null` field reaches the validator as Python `None`,
      whether it is written `None` or `Some(Null)` here. */
  function Ensure2d(v: Option<Json>): (r: Result<Option<Grid>>)
    ensures v.None? || v == Some(Null) ==> r == Success(None)
    ensures v.Some? && v.value != Null && (!v.value.List? || v.value.items == []) ==> r == Failure(ValueError(EmptyMessage))
    ensures v.Some? && v.value.List? && v.value.items != [] && AllNumbers(v.value.items) ==>
      r.Success? && r.value.Some? && |r.value.value| == |v.value.items| &&
      forall i :: 0 <= i < |v.value.items| ==> r.value.value[i] == [v.value.items[i]]
    ensures v.Some? && v.value.List? && v.value.items != [] && !AllNumbers(v.value.items) && AllLists(v.value.items) ==>
      (r.Success? <==> AllRowsNumeric(Rows(v.value.items))) &&
      (r.Success? ==> r.value.Some? && Encode(r.value.value) == v.value) &&
      (r.Failure? ==> r.error == ValueError(NotNumericMessage))
    ensures v.Some? && v.value.List? && !AllNumbers(v.value.items) && !AllLists(v.value.items) ==>
      r == Failure(ValueError(BadShapeMessage))
    ensures r.Success? && r.value.Some? ==> |r.value.value| > 0 && AllRowsNumeric(r.value.value)
  {
    if v.None? || v.value.Null? then Success(None)
    else if !v.value.List? || v.value.items == [] then Failure(ValueError(EmptyMessage))
    else
      var items := v.value.items;
      if AllNumbers(items) then Success(Some(Column(items)))
      else if AllLists(items) then
        if AllRowsNumeric(Rows(items)) then
          assert Encode(Rows(items)).items == items;
          Success(Some(Rows(items)))
        else Failure(ValueError(NotNumericMessage))
      else Failure(ValueError(BadShapeMessage))
  }

  /** `check_columns_match`: compares the length of the first row of `x0`
      with that of the first row of `X_array` (when `X_array` itself passed
      validation) and returns `x0` unchanged otherwise. Later rows are not
      examined. */
  function CheckColumnsMatch(xArray: Option<Grid>, v: Option<Grid>): (r: Result<Option<Grid>>)
    requires xArray.Some? ==> |xArray.value| > 0
    requires v.Some? ==> |v.value| > 0
    ensures r.Failure? <==> v.Some? && xArray.Some? && |xArray.value[0]| != |v.value[0]|
    ensures r.Failure? ==> r.error.ValueError?
    ensures r.Success? ==> r.value == v
  {
    if v.None? then Success(None)
    else if xArray.Some? && |xArray.value[0]| != |v.value[0]| then
      Failure(ValueError("x0 must have as many columns as X_array"))
    else Success(v)
  }

  /** `check_XY_alignment` (stack-model schema only): rejects exactly when the
      validated `X_array` has a different number of rows than `Y_array`. */
  function CheckXYAlignment(xArray: Option<Grid>, y: seq<real>): (r: Result<seq<real>>)
    ensures r.Failure? <==> xArray.Some? && |xArray.value| != |y|
    ensures r.Success? ==> r.value == y
  {
    if xArray.Some? && |xArray.value| != |y| then
      Failure(ValueError("X_array must have as many rows as Y_array"))
    else Success(y)
  }

  /** A validated request body. */
  datatype ValidInput = ValidInput(xArray: Grid, yArray: seq<real>, x0: Option<Grid>)

  /** The value of `X_array` that later validators find in `info.data`:
      present only when `X_array` itself passed validation. */
  function Validated(r: Result<Option<Grid>>): (x: Option<Grid>)
    ensures x.Some? ==> r.Success?
  {
    if r.Success? then r.value else None
  }

  /** Whether the `X_array` field fails: its `ensure_2d` raises, or it
      returns None for a JSON `null`, which the field's type (a vector or
      a matrix, not optional) then rejects. */
  predicate XFails(xRaw: Json)
  {
    var xs := Ensure2d(Some(xRaw));
    xs.Failure? || xs.value.None?
  }

  /** Whether the `x0` field fails: its `ensure_2d` raises, or it passes and
      `check_columns_match` then raises. */
  predicate X0Fails(xRaw: Json, x0Raw: Option<Json>)
  {
    var x0s := Ensure2d(x0Raw);
    x0s.Failure? || CheckColumnsMatch(Validated(Ensure2d(Some(xRaw))), x0s.value).Failure?
  }

  /** The fields an `InputBestModel` body is rejected for. Pydantic validates
      every field in declaration order and reports all failing ones. */
  function BestModelErrors(xRaw: Json, x0Raw: Option<Json>): seq<string>
  {
    (if XFails(xRaw) then ["X_array"] else []) +
    (if X0Fails(xRaw, x0Raw) then ["x0"] else [])
  }

  /** Validation of an `InputBestModel` body. `x0` may be omitted (it
      defaults to None). This schema has no row-count check between
      `X_array` and `Y_array`. */
  function ValidateBestModel(xRaw: Json, y: seq<real>, x0Raw: Option<Json>): (r: Result<ValidInput>)
    ensures r.Failure? <==> XFails(xRaw) || X0Fails(xRaw, x0Raw)
    ensures r.Failure? ==> r.error == ValidationError(BestModelErrors(xRaw, x0Raw))
    ensures r.Success? ==>
      Ensure2d(Some(xRaw)) == Success(Some(r.value.xArray)) && r.value.yArray == y &&
      Ensure2d(x0Raw) == Success(r.value.x0) &&
      (r.value.x0.Some? ==> |r.value.x0.value| > 0 && |r.value.x0.value[0]| == |r.value.xArray[0]|)
  {
    var errors := BestModelErrors(xRaw, x0Raw);
    if errors != [] then Failure(ValidationError(errors))
    else Success(ValidInput(Ensure2d(Some(xRaw)).value.value, y, Ensure2d(x0Raw).value))
  }

  /** The fields an `InputStackModelData` body is rejected for: as for the
      best-model schema, plus `Y_array` when its length differs from the
      number of rows of a valid `X_array`. */
  function StackModelErrors(xRaw: Json, y: seq<real>, x0Raw: Option<Json>): seq<string>
  {
    (if XFails(xRaw) then ["X_array"] else []) +
    (if CheckXYAlignment(Validated(Ensure2d(Some(xRaw))), y).Failure? then ["Y_array"] else []) +
    (if X0Fails(xRaw, x0Raw) then ["x0"] else [])
  }

  /** Validation of an `InputStackModelData` body: accepted exactly when the
      best-model validators accept it and `X_array` and `Y_array` have the
      same number of rows. */
  function ValidateStackModel(xRaw: Json, y: seq<real>, x0Raw: Option<Json>): (r: Result<ValidInput>)
    ensures r.Success? <==> ValidateBestModel(xRaw, y, x0Raw).Success? && |ValidateBestModel(xRaw, y, x0Raw).value.xArray| == |y|
    ensures r.Failure? ==> r.error == ValidationError(StackModelErrors(xRaw, y, x0Raw))
    ensures r.Success? ==> r == ValidateBestModel(xRaw, y, x0Raw)
  {
    var errors := StackModelErrors(xRaw, y, x0Raw);
    if errors != [] then Failure(ValidationError(errors))
    else Success(ValidInput(Ensure2d(Some(xRaw)).value.value, y, Ensure2d(x0Raw).value))
  }
}
