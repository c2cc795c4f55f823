/** Input preparation (`prepare_input`) and the adaptive train/test split
    (`splitting_data`). numpy arrays become explicit shapes; the random
    shuffle of `train_test_split` becomes a mask that says, for each row,
    whether it goes to the training set. */
module Preprocessing {
  import opened Wrappers
  import Schemas

  /** A numeric argument as the caller passes it: a flat list or a list of rows. */
  datatype NumArray = Vec(xs: seq<real>) | Mat(rows: seq<seq<real>>)

  /** A two-dimensional numpy array: its rows and its column count (which an
      array with no rows still has). */
  datatype Matrix = Matrix(rows: seq<seq<real>>, cols: nat)

  predicate WellShaped(m: Matrix)
  {
    forall i :: 0 <= i < |m.rows| ==> |m.rows[i]| == m.cols
  }

  /** The result of `np.array(a, dtype=float)`. */
  datatype NdArray = OneD(xs: seq<real>) | TwoD(m: Matrix)

  predicate Rectangular(rows: seq<seq<real>>)
  {
    forall i :: 0 <= i < |rows| ==> |rows[i]| == |rows[0]|
  }

  /** `np.array(a, dtype=float)`: a flat list (and the empty list) is
      one-dimensional, a rectangular list of rows two-dimensional, and a
      ragged list of rows is refused with ValueError. */
  function ToArray(a: NumArray): (r: Result<NdArray>)
    ensures r.Success? && r.value.TwoD? ==> a.Mat? && WellShaped(r.value.m) && r.value.m.rows == a.rows
    ensures a.Vec? ==> r == Success(OneD(a.xs))
    ensures a == Mat([]) ==> r == Success(OneD([]))
    ensures a.Mat? && a.rows != [] ==> (r.Success? <==> Rectangular(a.rows))
    ensures r.Failure? ==> r.error.ValueError?
  {
    match a
    case Vec(xs) => Success(OneD(xs))
    case Mat(rows) =>
      if rows == [] then Success(OneD([]))
      else if Rectangular(rows) then Success(TwoD(Matrix(rows, |rows[0]|)))
      else Failure(ValueError("setting an array element with a sequence: inhomogeneous shape"))
  }

  /** The concatenation of the rows, in row order. */
  function Flatten(rows: seq<seq<real>>): seq<real>
  {
    if rows == [] then [] else rows[0] + Flatten(rows[1..])
  }

  /** `.ravel()`: the elements in row-major order. */
  function Ravel(a: NdArray): seq<real>
  {
    match a
    case OneD(xs) => xs
    case TwoD(m) => Flatten(m.rows)
  }

  /** `reshape(-1, 1)`: each element becomes a single-feature row. */
  function AsColumn(xs: seq<real>): (m: Matrix)
    ensures WellShaped(m)
  {
    Matrix(seq(|xs|, i requires 0 <= i < |xs| => [xs[i]]), 1)
  }

  /** `reshape(1, -1)`: the elements become one row. */
  function AsRow(xs: seq<real>): (m: Matrix)
    ensures WellShaped(m)
  {
    Matrix([xs], |xs|)
  }

  /** A one- or two-dimensional array as a matrix; a 1-D array becomes a
      column when `asColumn` holds and a single row otherwise. */
  function To2d(a: NdArray, asColumn: bool): (m: Matrix)
    requires a.TwoD? ==> WellShaped(a.m)
    ensures WellShaped(m)
  {
    match a
    case OneD(xs) => if asColumn then AsColumn(xs) else AsRow(xs)
    case TwoD(m) => m
  }

  datatype Prepared = Prepared(x: Matrix, y: seq<real>, x0: Option<Matrix>)

  /** `prepare_input`. */
  function PrepareInput(x: NumArray, y: NumArray, x0: Option<NumArray>): (r: Result<Prepared>)
    ensures r.Failure? <==>
      ToArray(x).Failure? || ToArray(y).Failure? ||
      (x0.Some? && (ToArray(x0.value).Failure? ||
                    To2d(ToArray(x0.value).value, false).cols != To2d(ToArray(x).value, true).cols))
    ensures r.Failure? ==> r.error.ValueError?
    ensures r.Success? ==>
      WellShaped(r.value.x) &&
      (x0.None? <==> r.value.x0.None?) &&
      (r.value.x0.Some? ==> WellShaped(r.value.x0.value) && r.value.x0.value.cols == r.value.x.cols)
    ensures r.Success? && x.Vec? ==>
      r.value.x.cols == 1 && |r.value.x.rows| == |x.xs| &&
      forall i :: 0 <= i < |x.xs| ==> r.value.x.rows[i] == [x.xs[i]]
    ensures r.Success? && x.Mat? && x.rows != [] ==> r.value.x.rows == x.rows
    ensures r.Success? && y.Vec? ==> r.value.y == y.xs
    ensures r.Success? && y.Mat? ==> r.value.y == Flatten(y.rows)
    ensures r.Success? && x0.Some? && x0.value.Vec? ==> r.value.x0 == Some(Matrix([x0.value.xs], |x0.value.xs|))
    ensures r.Success? && x0.Some? && x0.value.Mat? && x0.value.rows != [] ==> r.value.x0.value.rows == x0.value.rows
  {
    var xa := ToArray(x);
    var ya := ToArray(y);
    if xa.Failure? then Failure(xa.error)
    else if ya.Failure? then Failure(ya.error)
    else
      var xm := To2d(xa.value, true);
      var yv := Ravel(ya.value);
      if x0.None? then Success(Prepared(xm, yv, None))
      else
        var qa := ToArray(x0.value);
        if qa.Failure? then Failure(qa.error)
        else
          var qm := To2d(qa.value, false);
          if qm.cols != xm.cols then Failure(ValueError("x0 must have as many columns as X"))
          else Success(Prepared(xm, yv, Some(qm)))
  }

  /** Flattening keeps every element at its row-major position. */
  lemma {:induction false} FlattenAt(rows: seq<seq<real>>, c: nat, i: nat, j: nat)
    requires forall k :: 0 <= k < |rows| ==> |rows[k]| == c
    requires i < |rows| && j < c
    ensures |Flatten(rows)| == |rows| * c
    ensures i * c + j < |Flatten(rows)|
    ensures Flatten(rows)[i * c + j] == rows[i][j]
  {
    FlattenLength(rows, c);
    MulBound(i, |rows|, c, j);
    var tail := Flatten(rows[1..]);
    assert Flatten(rows) == rows[0] + tail;
    if i > 0 {
      FlattenAt(rows[1..], c, i - 1, j);
      var k := (i - 1) * c + j;
      MulStep(i, c);
      assert i * c + j == k + c;
      assert Flatten(rows)[k + c] == tail[k];
    }
  }

  lemma MulBound(i: nat, n: nat, c: nat, j: nat)
    requires i < n && j < c
    ensures i * c + j < n * c
  {
    assert (n - (i + 1)) * c >= 0;
    calc {
      i * c + j;
    <
      i * c + c;
    ==
      (i + 1) * c;
    <=
      (i + 1) * c + (n - (i + 1)) * c;
    ==
      n * c;
    }
  }

  lemma MulStep(i: nat, c: nat)
    requires i > 0
    ensures i * c == (i - 1) * c + c
  {
  }

  lemma {:induction false} FlattenLength(rows: seq<seq<real>>, c: nat)
    requires forall k :: 0 <= k < |rows| ==> |rows[k]| == c
    ensures |Flatten(rows)| == |rows| * c
  {
    if rows != [] {
      FlattenLength(rows[1..], c);
    }
  }

  /** `prepare_input` checks columns but never compares the row counts of X
      and Y, although its documentation lists that error. */
  lemma RowCountNotChecked()
    ensures PrepareInput(Vec([1.0, 2.0]), Vec([1.0]), None) ==
            Success(Prepared(Matrix([[1.0], [2.0]], 1), [1.0], None))
  {
    assert AsColumn([1.0, 2.0]).rows == [[1.0], [2.0]];
  }

  /** The request schema and `prepare_input` disagree on a flat `x0` of m
      numbers: the schema turns it into m rows of one feature, `prepare_input`
      into one row of m features. */
  lemma FlatX0Disagreement(xs: seq<real>)
    requires |xs| > 1
    ensures var s := Schemas.Ensure2d(Some(Schemas.List(seq(|xs|, i requires 0 <= i < |xs| => Schemas.Num(xs[i])))));
      s.Success? && s.value.Some? && |s.value.value| == |xs| && |s.value.value[0]| == 1
    ensures var p := PrepareInput(Vec([1.0]), Vec([1.0]), Some(Vec(xs)));
      p.Failure? && p.error.ValueError?
    ensures var p := PrepareInput(Mat([xs]), Vec([1.0]), Some(Vec(xs)));
      p.Success? && p.value.x0 == Some(Matrix([xs], |xs|))
  {
    var j := Schemas.List(seq(|xs|, i requires 0 <= i < |xs| => Schemas.Num(xs[i])));
    assert Schemas.AllNumbers(j.items);
    assert Rectangular([xs]);
  }

  // ---------------------------------------------------------------------
  // Adaptive split
  // ---------------------------------------------------------------------

  /** How `splitting_data` divides n rows: no division (train and test are
      the whole data), or a shuffled split with the given train fraction. */
  datatype SplitPlan = Whole | Shuffle(trainSize: real)

  function Min(a: real, b: real): real
  {
    if a <= b then a else b
  }

  const SplitUnreachable := "the else branch of splitting_data must not be reached"

  /** The size table of `splitting_data`. The branches are tried in order and
      their inclusive bounds overlap, so the first match wins; the final
      Panic branch cannot be reached. */
  function SplitPlanFor(n: nat): (r: Result<SplitPlan>)
    ensures r.Success?
    ensures r.value == Whole <==> n < 10
    ensures 10 <= n <= 100 ==> r.value.Shuffle? && 0.8 <= r.value.trainSize <= 0.95
    ensures 10 <= n <= 25 ==> r.value == Shuffle(0.8)
    ensures 25 <= n <= 100 ==> r.value == Shuffle(1.0 - 5.0 / n as real)
    ensures n == 100 ==> r.value == Shuffle(0.95)
    ensures 100 < n <= 500 ==> r.value == Shuffle(0.9)
    ensures 500 < n <= 1000 ==> r.value == Shuffle(0.85)
    ensures 1000 < n ==> r.value == Shuffle(0.8)
  {
    if n < 10 then Success(Whole)
    else if 10 <= n <= 100 then
      FractionBounds(n);
      Success(Shuffle(1.0 - Min(5.0 / n as real, 0.2)))
    else if 100 <= n <= 500 then Success(Shuffle(0.9))
    else if 500 <= n <= 1000 then Success(Shuffle(0.85))
    else if 1000 <= n then Success(Shuffle(0.8))
    else Failure(Panic(SplitUnreachable))
  }

  lemma FractionBounds(n: nat)
    requires 10 <= n <= 100
    ensures 0.05 <= 5.0 / n as real <= 0.5
    ensures n <= 25 ==> 5.0 / n as real >= 0.2
    ensures n >= 25 ==> 5.0 / n as real <= 0.2
    ensures n == 100 ==> 5.0 / n as real == 0.05
  {
    var r := n as real;
    DivCompare(5.0, r, 0.05);
    DivCompare(5.0, r, 0.5);
    DivCompare(5.0, r, 0.2);
  }

  /** Comparing a quotient with a constant is comparing the dividend with a
      product. */
  lemma DivCompare(a: real, b: real, c: real)
    requires b > 0.0
    ensures a / b <= c <==> a <= c * b
    ensures a / b >= c <==> a >= c * b
  {
    var q := a / b;
    assert q * b == a;
    assert (q - c) * b == a - c * b;
  }

  /** Whether row i goes to the training set under the shuffle mask. */
  predicate InTrain(mask: seq<bool>, i: nat)
  {
    i < |mask| && mask[i]
  }

  /** The elements of `s` whose side under `mask` is `side`, in order. */
  function Pick<T>(s: seq<T>, mask: seq<bool>, side: bool): seq<T>
  {
    if s == [] then []
    else
      var rest := Pick(s[1..], if mask == [] then [] else mask[1..], side);
      if InTrain(mask, 0) == side then [s[0]] + rest else rest
  }

  /** Both sides together hold every element exactly once. */
  lemma {:induction false} PickPartition<T>(s: seq<T>, mask: seq<bool>)
    ensures |Pick(s, mask, true)| + |Pick(s, mask, false)| == |s|
    ensures multiset(Pick(s, mask, true)) + multiset(Pick(s, mask, false)) == multiset(s)
  {
    if s != [] {
      PickPartition(s[1..], if mask == [] then [] else mask[1..]);
      assert s == [s[0]] + s[1..];
    }
  }

  /** Picking from two sequences of the same length with the same mask keeps
      their elements paired. */
  lemma {:induction false} PickPairs<S, T>(a: seq<S>, b: seq<T>, mask: seq<bool>, side: bool)
    requires |a| == |b|
    ensures |Pick(a, mask, side)| == |Pick(b, mask, side)|
    ensures Zip(Pick(a, mask, side), Pick(b, mask, side)) == Pick(Zip(a, b), mask, side)
  {
    if a != [] {
      PickPairs(a[1..], b[1..], if mask == [] then [] else mask[1..], side);
      assert Zip(a, b)[1..] == Zip(a[1..], b[1..]);
    }
  }

  function Zip<S, T>(a: seq<S>, b: seq<T>): seq<(S, T)>
    requires |a| == |b|
  {
    seq(|a|, i requires 0 <= i < |a| => (a[i], b[i]))
  }

  lemma {:induction false} PickWellShaped(rows: seq<seq<real>>, c: nat, mask: seq<bool>, side: bool)
    requires forall k :: 0 <= k < |rows| ==> |rows[k]| == c
    ensures WellShaped(Matrix(Pick(rows, mask, side), c))
  {
    if rows != [] {
      PickWellShaped(rows[1..], c, if mask == [] then [] else mask[1..], side);
    }
  }

  datatype SplitData = SplitData(xTrain: Matrix, xTest: Matrix, yTrain: seq<real>, yTest: seq<real>)

  /** `splitting_data`, with the row count taken from Y. Below 10 rows the
      whole data is both the training and the test set. Otherwise the rows
      are partitioned by the shuffle mask; `train_test_split` refuses X and Y
      of different lengths. */
  function SplittingData(x: Matrix, y: seq<real>, mask: seq<bool>): (r: Result<SplitData>)
    requires WellShaped(x)
    ensures |y| < 10 ==> r == Success(SplitData(x, x, y, y))
    ensures |y| >= 10 ==> (r.Failure? <==> |x.rows| != |y|)
    ensures r.Failure? ==> r.error.ValueError?
    ensures r.Success? ==>
      var d := r.value;
      WellShaped(d.xTrain) && WellShaped(d.xTest) &&
      d.xTrain.cols == x.cols && d.xTest.cols == x.cols
    ensures r.Success? && |y| >= 10 ==>
      var d := r.value;
      |d.xTrain.rows| == |d.yTrain| && |d.xTest.rows| == |d.yTest| &&
      |d.yTrain| + |d.yTest| == |y| &&
      multiset(d.yTrain) + multiset(d.yTest) == multiset(y) &&
      multiset(Zip(d.xTrain.rows, d.yTrain)) + multiset(Zip(d.xTest.rows, d.yTest)) == multiset(Zip(x.rows, y))
  {
    var n := |y|;
    var plan := SplitPlanFor(n);
    if plan.Failure? then Failure(Panic(SplitUnreachable))
    else if plan.value.Whole? then Success(SplitData(x, x, y, y))
    else if |x.rows| != n then Failure(ValueError("inconsistent numbers of samples"))
    else
      PickPartition(y, mask);
      PickPartition(Zip(x.rows, y), mask);
      PickPairs(x.rows, y, mask, true);
      PickPairs(x.rows, y, mask, false);
      PickWellShaped(x.rows, x.cols, mask, true);
      PickWellShaped(x.rows, x.cols, mask, false);
      Success(SplitData(Matrix(Pick(x.rows, mask, true), x.cols), Matrix(Pick(x.rows, mask, false), x.cols),
                        Pick(y, mask, true), Pick(y, mask, false)))
  }
}
