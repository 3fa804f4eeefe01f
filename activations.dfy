/**
 * The exact steps of the eager (NumPy) activations: the row-max shift that
 * softmax_numpy applies before exponentiating, and the zero-mean centering
 * that pseudoinverse_softmax_numpy applies after taking logarithms. The
 * exponentials, logarithms and divisions themselves are not modelled.
 */
module Activations {
  import opened Graph
  import opened Rows

  /**
   * `x` with each row's maximum subtracted from that row: the stabilized
   * input of softmax_numpy. A row with no entries has no maximum.
   */
  function SubtractRowMax(x: Matrix): (r: Result<Matrix>)
    ensures r.Ok? <==> NoEmptyRow(x)
    ensures r.Err? ==> r == Err(EmptyReduction)
    ensures r.Ok? ==> |r.value| == |x|
    ensures r.Ok? ==> forall i | 0 <= i < |x| ::
      && IsRowShift(x[i], r.value[i])
      && NonPositive(r.value[i])
      && r.value[i] != [] && Max(r.value[i]) == 0.0
  {
    if x == [] then Ok([])
    else if x[0] == [] then Err(EmptyReduction)
    else
      var rest :- SubtractRowMax(x[1..]);
      var row := Shifted(x[0], Max(x[0]));
      ShiftedByMax(x[0]);
      assert forall i | 1 <= i < |x| :: x[i] == x[1..][i - 1];
      Ok([row] + rest)
  }

  /** Subtracting a row's maximum leaves a row whose entries are at most 0 and whose maximum is 0. */
  lemma ShiftedByMax(s: Row)
    requires s != []
    ensures IsRowShift(s, Shifted(s, Max(s)))
    ensures NonPositive(Shifted(s, Max(s)))
    ensures Max(Shifted(s, Max(s))) == 0.0
  {
    var t := Shifted(s, Max(s));
    var k :| 0 <= k < |s| && s[k] == Max(s);
    assert t[k] == 0.0;
  }

  /** A shift of `a` whose maximum is 0 is `a` minus its maximum. */
  lemma MaxShiftDetermined(a: Row, b: Row)
    requires a != [] && IsRowShift(a, b) && Max(b) == 0.0
    ensures b == Shifted(a, Max(a))
  {
    MaxOfShift(a, b);
  }

  function Mean(v: Row): real
    requires v != []
  {
    Sum(v) / (|v| as real)
  }

  /**
   * The centering step of pseudoinverse_softmax_numpy, applied to the
   * logarithms `logs` of its input: the representative of the shift class of
   * `logs` whose mean is zero. An empty vector stays empty.
   */
  function Center(logs: Row): (r: Row)
    ensures IsRowShift(logs, r)
    ensures Sum(r) == 0.0
  {
    if logs == [] then []
    else
      var r := Shifted(logs, Mean(logs));
      SumOfShift(logs, r, Mean(logs));
      r
  }

  /**
   * Softmax is invariant under shifting a row, so its pseudo-inverse may
   * return any shift of the logarithms; Center returns the same vector for
   * every member of a shift class.
   */
  lemma CenterShiftInvariant(a: Row, b: Row)
    requires IsRowShift(a, b)
    ensures Center(a) == Center(b)
  {
    if a != [] {
      var n := |a| as real;
      var c := b[0] - a[0];
      RowShiftSum(a, b);
      assert Mean(b) == Mean(a) + c by {
        assert Sum(b) == Sum(a) + n * c;
        assert (Sum(a) + n * c) / n == Sum(a) / n + c;
      }
      assert forall j | 0 <= j < |a| :: Center(b)[j] == Center(a)[j] by {
        forall j | 0 <= j < |a| ensures Center(b)[j] == Center(a)[j] {
          assert b[j] == a[j] + c;
        }
      }
    }
  }

  /** The zero-mean shift of a row is unique: it is what Center returns. */
  lemma CenterUnique(logs: Row, y: Row)
    requires IsRowShift(logs, y) && Sum(y) == 0.0
    ensures y == Center(logs)
  {
    CenterShiftInvariant(logs, y);
    CenterShiftInvariant(y, y);
    if y != [] {
      assert Mean(y) == 0.0;
      assert forall j | 0 <= j < |y| :: Center(y)[j] == y[j];
    }
  }

  /** Centering an already centered vector changes nothing. */
  lemma CenterIdempotent(logs: Row)
    ensures Center(Center(logs)) == Center(logs)
  {
    CenterUnique(Center(logs), Center(logs));
  }
}
