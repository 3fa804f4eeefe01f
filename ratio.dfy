/**
 * softmax_ratio(numer, denom): `numer / denom` for two softmax outputs,
 * computed from their logits. The numerator logits are shifted by their row
 * maximum and the denominator logits by their row minimum, so that the
 * exponent `numer_Z - denom_Z` of the cross term is never positive.
 */
module Ratio {
  import opened Graph
  import opened Rows
  import opened Introspect
  import opened Activations

  /**
   * The ratio expression built from the recovered logits:
   * `exp(Zn - Zd) * rowsum(exp(Zd)) / rowsum(exp(Zn))`, with Zn and Zd shifted.
   */
  datatype RatioExpr = RatioExpr(numerLogit: Node, denomLogit: Node)

  /** The graph-level step: recover both softmax arguments, failing as ArgOfSoftmax fails. */
  function SoftmaxRatio(numer: Node, denom: Node): (r: Result<RatioExpr>)
    ensures ArgOfSoftmax(numer).Err? ==> r == Err(ArgOfSoftmax(numer).failure)
    ensures ArgOfSoftmax(numer).Ok? && ArgOfSoftmax(denom).Err? ==> r == Err(ArgOfSoftmax(denom).failure)
    ensures ArgOfSoftmax(numer).Ok? && ArgOfSoftmax(denom).Ok? ==>
      r == Ok(RatioExpr(ArgOfSoftmax(numer).value, ArgOfSoftmax(denom).value))
    ensures r.Ok? ==> && TracesTo(numer, SoftmaxNl, r.value.numerLogit) && r.value.numerLogit.ndim == 2
                      && TracesTo(denom, SoftmaxNl, r.value.denomLogit) && r.value.denomLogit.ndim == 2
  {
    var numerZ :- ArgOfSoftmax(numer);
    var denomZ :- ArgOfSoftmax(denom);
    Ok(RatioExpr(numerZ, denomZ))
  }

  /** `x` with each row's minimum subtracted from that row. */
  function SubtractRowMin(x: Matrix): (r: Result<Matrix>)
    ensures r.Ok? <==> NoEmptyRow(x)
    ensures r.Err? ==> r == Err(EmptyReduction)
    ensures r.Ok? ==> |r.value| == |x|
    ensures r.Ok? ==> forall i | 0 <= i < |x| ::
      && IsRowShift(x[i], r.value[i])
      && NonNegative(r.value[i])
      && r.value[i] != [] && Min(r.value[i]) == 0.0
  {
    if x == [] then Ok([])
    else if x[0] == [] then Err(EmptyReduction)
    else
      var rest :- SubtractRowMin(x[1..]);
      var row := Shifted(x[0], Min(x[0]));
      ShiftedByMin(x[0]);
      assert forall i | 1 <= i < |x| :: x[i] == x[1..][i - 1];
      Ok([row] + rest)
  }

  /** Subtracting a row's minimum leaves a row whose entries are at least 0 and whose minimum is 0. */
  lemma ShiftedByMin(s: Row)
    requires s != []
    ensures IsRowShift(s, Shifted(s, Min(s)))
    ensures NonNegative(Shifted(s, Min(s)))
    ensures Min(Shifted(s, Min(s))) == 0.0
  {
    var t := Shifted(s, Min(s));
    var k :| 0 <= k < |s| && s[k] == Min(s);
    assert t[k] == 0.0;
  }

  predicate SameShape(a: Matrix, b: Matrix) {
    |a| == |b| && forall i | 0 <= i < |a| :: |a[i]| == |b[i]|
  }

  /** The entrywise difference of two rows of one length. */
  function Difference(a: Row, b: Row): Row
    requires |a| == |b|
  {
    seq(|a|, j requires 0 <= j < |a| => a[j] - b[j])
  }

  /** One row of the cross-term exponent: the max-shifted `a` minus the min-shifted `b`. */
  function RowExponent(a: Row, b: Row): Row
    requires a != [] && |a| == |b|
  {
    Difference(Shifted(a, Max(a)), Shifted(b, Min(b)))
  }

  /**
   * Every entry of a row of the exponent is at most 0, and the row differs
   * from the unshifted `a - b` by one constant.
   */
  lemma RowExponentBounded(a: Row, b: Row)
    requires a != [] && |a| == |b|
    ensures NonPositive(RowExponent(a, b))
    ensures IsRowShift(Difference(a, b), RowExponent(a, b))
  {
    ShiftedByMax(a);
    ShiftedByMin(b);
  }

  /** Shifting either row by a constant does not change the exponent row. */
  lemma RowExponentShiftInvariant(a: Row, b: Row, a': Row, b': Row)
    requires a != [] && |a| == |b|
    requires IsRowShift(a, a') && IsRowShift(b, b')
    ensures RowExponent(a, b) == RowExponent(a', b')
  {
    MaxOfShift(a, a');
    MinOfShift(b, b');
  }

  /** A shift of `a` whose minimum is 0 is `a` minus its minimum. */
  lemma MinShiftDetermined(a: Row, b: Row)
    requires a != [] && IsRowShift(a, b) && Min(b) == 0.0
    ensures b == Shifted(a, Min(a))
  {
    MinOfShift(a, b);
  }

  /**
   * The exponent `numer_Z - denom_Z` of the cross term, evaluated on the
   * realized logits `zn` and `zd`. The reductions fail on an empty row and
   * the subtraction on operands of different shapes.
   */
  function RatioExponents(zn: Matrix, zd: Matrix): (r: Result<Matrix>)
    ensures r.Ok? <==> NoEmptyRow(zn) && NoEmptyRow(zd) && SameShape(zn, zd)
    ensures r.Err? ==> r.failure == if NoEmptyRow(zn) && NoEmptyRow(zd) then ShapeMismatch else EmptyReduction
    ensures r.Ok? ==> |r.value| == |zn|
    ensures r.Ok? ==> forall i | 0 <= i < |zn| :: zn[i] != [] && |zn[i]| == |zd[i]| && r.value[i] == RowExponent(zn[i], zd[i])
  {
    var n :- SubtractRowMax(zn);
    var d :- SubtractRowMin(zd);
    if !SameShape(n, d) then Err(ShapeMismatch)
    else
      assert forall i | 0 <= i < |zn| :: n[i] == Shifted(zn[i], Max(zn[i])) && d[i] == Shifted(zd[i], Min(zd[i])) by {
        forall i | 0 <= i < |zn| ensures n[i] == Shifted(zn[i], Max(zn[i])) && d[i] == Shifted(zd[i], Min(zd[i])) {
          MaxShiftDetermined(zn[i], n[i]);
          MinShiftDetermined(zd[i], d[i]);
        }
      }
      Ok(seq(|n|, i requires 0 <= i < |n| => Difference(n[i], d[i])))
  }

  /**
   * The numerical-stability claim: whenever the exponents can be computed,
   * every one of them is at most 0, and each row differs from the unshifted
   * `zn - zd` only by a constant, which the normalization cancels.
   */
  lemma RatioExponentsNonPositive(zn: Matrix, zd: Matrix)
    requires RatioExponents(zn, zd).Ok?
    ensures forall i, j | 0 <= i < |zn| && 0 <= j < |zn[i]| :: RatioExponents(zn, zd).value[i][j] <= 0.0
    ensures forall i | 0 <= i < |zn| :: IsRowShift(Difference(zn[i], zd[i]), RatioExponents(zn, zd).value[i])
  {
    forall i | 0 <= i < |zn| ensures NonPositive(RatioExponents(zn, zd).value[i])
      && IsRowShift(Difference(zn[i], zd[i]), RatioExponents(zn, zd).value[i])
    {
      RowExponentBounded(zn[i], zd[i]);
    }
  }

  /**
   * Shifting each logit row of either argument by a constant does not change
   * the cross-term exponents: they depend only on the softmax outputs.
   */
  lemma RatioExponentsShiftInvariant(zn: Matrix, zd: Matrix, zn': Matrix, zd': Matrix)
    requires |zn'| == |zn| && |zd'| == |zd|
    requires forall i | 0 <= i < |zn| :: IsRowShift(zn[i], zn'[i])
    requires forall i | 0 <= i < |zd| :: IsRowShift(zd[i], zd'[i])
    ensures RatioExponents(zn, zd) == RatioExponents(zn', zd')
  {
    var r, r' := RatioExponents(zn, zd), RatioExponents(zn', zd');
    RowLengthsKept(zn, zn');
    RowLengthsKept(zd, zd');
    assert SameShape(zn, zd) == SameShape(zn', zd');
    if r.Ok? {
      forall i | 0 <= i < |zn| ensures r.value[i] == r'.value[i] {
        RowExponentShiftInvariant(zn[i], zd[i], zn'[i], zd'[i]);
      }
      assert r.value == r'.value;
    }
  }

  /** Shifting rows keeps every row's length, hence which rows are empty. */
  lemma RowLengthsKept(x: Matrix, x': Matrix)
    requires |x'| == |x|
    requires forall i | 0 <= i < |x| :: IsRowShift(x[i], x'[i])
    ensures forall i | 0 <= i < |x| :: |x'[i]| == |x[i]|
    ensures NoEmptyRow(x) == NoEmptyRow(x')
  {
  }

  /**
   * The ratio of a softmax to itself: each row of exponents is the constant
   * `min - max` of that row, which the row sums cancel to give all ones.
   */
  lemma SelfRatioExponents(z: Matrix)
    requires NoEmptyRow(z)
    ensures RatioExponents(z, z).Ok?
    ensures forall i, j | 0 <= i < |z| && 0 <= j < |z[i]| :: RatioExponents(z, z).value[i][j] == Min(z[i]) - Max(z[i])
  {
    assert SameShape(z, z);
    var e := RatioExponents(z, z).value;
    forall i, j | 0 <= i < |z| && 0 <= j < |z[i]| ensures e[i][j] == Min(z[i]) - Max(z[i]) {
      assert e[i] == RowExponent(z[i], z[i]);
    }
  }
}
