/**
 * Exact arithmetic on rows and matrices of reals: sums, row extrema and
 * per-row shifts. A matrix is a sequence of rows; a flattened array is a row.
 */
module Rows {

  type Row = seq<real>
  type Matrix = seq<Row>

  function Sum(s: Row): real {
    if s == [] then 0.0 else s[0] + Sum(s[1..])
  }

  /** The largest entry of a non-empty row. */
  function Max(s: Row): (m: real)
    requires s != []
    ensures forall j | 0 <= j < |s| :: s[j] <= m
    ensures exists j | 0 <= j < |s| :: s[j] == m
  {
    if |s| == 1 then s[0]
    else
      var rest := Max(s[1..]);
      assert forall j | 1 <= j < |s| :: s[j] == s[1..][j - 1];
      if s[0] >= rest then s[0] else rest
  }

  /** The smallest entry of a non-empty row. */
  function Min(s: Row): (m: real)
    requires s != []
    ensures forall j | 0 <= j < |s| :: m <= s[j]
    ensures exists j | 0 <= j < |s| :: s[j] == m
  {
    if |s| == 1 then s[0]
    else
      var rest := Min(s[1..]);
      assert forall j | 1 <= j < |s| :: s[j] == s[1..][j - 1];
      if s[0] <= rest then s[0] else rest
  }

  /** `s` with `c` subtracted from every entry. */
  function Shifted(s: Row, c: real): Row {
    seq(|s|, j requires 0 <= j < |s| => s[j] - c)
  }

  /** `b` is `a` moved by one constant: every entry differs by the same amount. */
  predicate IsRowShift(a: Row, b: Row) {
    |a| == |b| && forall j | 0 <= j < |a| :: b[j] - a[j] == b[0] - a[0]
  }

  predicate NonPositive(s: Row) {
    forall j | 0 <= j < |s| :: s[j] <= 0.0
  }

  predicate NonNegative(s: Row) {
    forall j | 0 <= j < |s| :: 0.0 <= s[j]
  }

  predicate NoEmptyRow(x: Matrix) {
    forall i | 0 <= i < |x| :: x[i] != []
  }

  /** Shifting every entry by `c` moves the sum by `|s|` times `c`. */
  lemma {:induction false} SumOfShift(a: Row, b: Row, c: real)
    requires |a| == |b|
    requires forall j | 0 <= j < |a| :: b[j] == a[j] - c
    ensures Sum(b) == Sum(a) - (|a| as real) * c
  {
    if a != [] {
      SumOfShift(a[1..], b[1..], c);
    }
  }

  /** Two rows that are shifts of one another differ in sum by the length times the shift. */
  lemma RowShiftSum(a: Row, b: Row)
    requires a != [] && IsRowShift(a, b)
    ensures Sum(b) == Sum(a) + (|a| as real) * (b[0] - a[0])
  {
    SumOfShift(a, b, a[0] - b[0]);
  }

  /** A row of zeros sums to zero. */
  lemma {:induction false} SumOfZeros(s: Row)
    requires forall j | 0 <= j < |s| :: s[j] == 0.0
    ensures Sum(s) == 0.0
  {
    if s != [] {
      SumOfZeros(s[1..]);
    }
  }

  /** A row shifted by a constant has its maximum shifted by the same constant. */
  lemma MaxOfShift(a: Row, b: Row)
    requires a != [] && IsRowShift(a, b)
    ensures Max(b) == Max(a) + (b[0] - a[0])
  {
    var ka :| 0 <= ka < |a| && a[ka] == Max(a);
    var kb :| 0 <= kb < |b| && b[kb] == Max(b);
    assert b[ka] <= Max(b) && a[kb] <= Max(a);
  }

  /** A row shifted by a constant has its minimum shifted by the same constant. */
  lemma MinOfShift(a: Row, b: Row)
    requires a != [] && IsRowShift(a, b)
    ensures Min(b) == Min(a) + (b[0] - a[0])
  {
    var ka :| 0 <= ka < |a| && a[ka] == Min(a);
    var kb :| 0 <= kb < |b| && b[kb] == Min(b);
    assert b[ka] >= Min(b) && a[kb] >= Min(a);
  }
}
