/**
 * The checks that kl and elemwise_kl make before building the Bernoulli
 * KL divergence `Y * softplus(-z) + (1 - Y) * softplus(z)` from the logit `z`
 * of a sigmoid output, and the axes kl averages it over.
 */
module Losses {
  import opened Graph
  import opened Rows
  import opened Introspect

  /**
   * The expression the loss builds. `Elementwise(y, z)` stands for
   * `y * softplus(-z) + (1 - y) * softplus(z)`; `Averaged(y, z, axes)` for its
   * mean over `axes`.
   */
  datatype Divergence =
    | Elementwise(target: Node, logit: Node)
    | Averaged(target: Node, logit: Node, axes: seq<nat>)

  predicate InUnitInterval(v: Row) {
    forall j | 0 <= j < |v| :: 0.0 <= v[j] <= 1.0
  }

  /** Every debug value of the targets is non-empty and lies in [0, 1]. */
  predicate TargetsValid(debugValues: seq<Row>) {
    forall k | 0 <= k < |debugValues| :: debugValues[k] != [] && InUnitInterval(debugValues[k])
  }

  /**
   * The test the losses make on an op: it has a scalar op, and that scalar op
   * is the sigmoid. Unlike Recognizes, it does not ask for an Elemwise op.
   */
  predicate CarriesSigmoid(op: Op) {
    op.HasScalarOp() && op.scalarOp.ScalarSigmoid?
  }

  /**
   * The owner of `yHat` itself, whose op must carry the scalar sigmoid. Unlike
   * ArgOfSigmoid, no Print is seen through.
   */
  function SigmoidOwner(yHat: Node): (r: Result<Apply>)
    ensures r.Ok? <==> yHat.owner.Some? && CarriesSigmoid(yHat.owner.value.op)
    ensures r.Ok? ==> r.value == yHat.owner.value
    ensures yHat.owner.None? ==> r == Err(NoOwner)
    ensures yHat.owner.Some? && !yHat.owner.value.op.HasScalarOp() ==> r == Err(NoScalarOp)
    ensures yHat.owner.Some? && yHat.owner.value.op.HasScalarOp() && !yHat.owner.value.op.scalarOp.ScalarSigmoid?
      ==> r == Err(NotScalarSigmoid)
  {
    match yHat.owner
    case None => Err(NoOwner)
    case Some(a) =>
      if !a.op.HasScalarOp() then Err(NoScalarOp)
      else if !a.op.scalarOp.ScalarSigmoid? then Err(NotScalarSigmoid)
      else Ok(a)
  }

  /** Every op arg_of_sigmoid recognizes passes the losses' test too. */
  lemma RecognizedSigmoidCarriesSigmoid(op: Op)
    ensures Recognizes(SigmoidNl, op) ==> CarriesSigmoid(op)
    ensures CarriesSigmoid(op) && !Recognizes(SigmoidNl, op) ==> op.Reduction?
  {
  }

  /**
   * The debug-mode range check on the targets, one realized value (flattened)
   * at a time. The minimum and maximum of an empty value are themselves errors.
   */
  function CheckTargets(debugValues: seq<Row>): (r: Result<()>)
    ensures r.Ok? <==> TargetsValid(debugValues)
    ensures r.Err? ==> Raises(r.failure) == ValueError
    ensures r == Err(TargetOutOfRange) ==>
      exists k | 0 <= k < |debugValues| :: debugValues[k] != [] && !InUnitInterval(debugValues[k])
  {
    if debugValues == [] then Ok(())
    else
      var v := debugValues[0];
      if v == [] then Err(EmptyReduction)
      else if !(Min(v) >= 0.0 && Max(v) <= 1.0) then Err(TargetOutOfRange)
      else
        var rest := CheckTargets(debugValues[1..]);
        assert forall k | 1 <= k < |debugValues| :: debugValues[k] == debugValues[1..][k - 1];
        rest
  }

  /** `0, 1, ..., n - 1`. */
  function Range(n: nat): seq<nat> {
    seq(n, i requires 0 <= i => i as nat)
  }

  /** The position a Python list index `b` denotes in a list of length `n`. */
  function Normalize(n: nat, b: int): int {
    if b < 0 then b + n else b
  }

  /**
   * The axes kl averages over: `range(ndim)` with the entry at Python index
   * `batchAxis` deleted (negative indices count from the end).
   */
  function AxesToReduce(ndim: nat, batchAxis: int): (r: Result<seq<nat>>)
    ensures r.Ok? <==> -(ndim as int) <= batchAxis < ndim
    ensures r.Err? ==> r == Err(AxisOutOfRange) && Raises(r.failure) == IndexError
    ensures r.Ok? ==> |r.value| == ndim - 1
    ensures r.Ok? ==> forall a: nat :: a in r.value <==> a < ndim && a != Normalize(ndim, batchAxis)
    ensures r.Ok? ==> forall i, j | 0 <= i < j < |r.value| :: r.value[i] < r.value[j]
  {
    if !(-(ndim as int) <= batchAxis < ndim) then Err(AxisOutOfRange)
    else
      var k := Normalize(ndim, batchAxis);
      var axes := Range(ndim)[..k] + Range(ndim)[k + 1..];
      assert forall i | 0 <= i < |axes| :: axes[i] == if i < k then i else i + 1;
      assert forall a: nat | a < ndim && a != k :: a in axes by {
        forall a: nat | a < ndim && a != k ensures a in axes {
          var i := if a < k then a else a - 1;
          assert axes[i] == a;
        }
      }
      Ok(axes)
  }

  /** The rank of `Y * softplus(-z) + (1 - Y) * softplus(z)` after broadcasting. */
  function TotalRank(y: Node, z: Node): nat {
    if y.ndim >= z.ndim then y.ndim else z.ndim
  }

  /** The only input of the sigmoid's owner; kl does not check its rank. */
  function SoleInput(a: Apply): Result<Node> {
    if |a.inputs| != 1 then Err(InputArity) else Ok(a.inputs[0])
  }

  /**
   * kl(Y, Y_hat, batch_axis): the per-example mean of the elementwise KL
   * divergence, averaged over every axis but `batchAxis`. `debugValues` are the
   * realized test values of `y` that debug mode exposes (none outside it).
   */
  function Kl(y: Node, yHat: Node, batchAxis: Option<int>, debugValues: seq<Row>): (r: Result<Divergence>)
    ensures batchAxis.None? ==> r == Err(NoBatchAxis)
    ensures r.Ok? ==> && r.value.Averaged? && r.value.target == y
                      && yHat.owner.Some? && CarriesSigmoid(yHat.owner.value.op)
                      && yHat.owner.value.inputs == [r.value.logit]
    ensures r.Ok? ==> TargetsValid(debugValues)
    ensures r.Ok? ==>
      var n := TotalRank(y, r.value.logit);
      && |r.value.axes| == n - 1
      && forall a: nat :: a in r.value.axes <==> a < n && a != Normalize(n, batchAxis.value)
    ensures batchAxis.Some? && yHat.owner.Some? && !CarriesSigmoid(yHat.owner.value.op) ==> r.Err?
    ensures batchAxis.Some? && SigmoidOwner(yHat).Err? ==> r == Err(SigmoidOwner(yHat).failure)
    ensures batchAxis.Some? && SigmoidOwner(yHat).Ok? && CheckTargets(debugValues).Err?
      ==> r == Err(CheckTargets(debugValues).failure)
    ensures batchAxis.Some? && SigmoidOwner(yHat).Ok? && TargetsValid(debugValues) && |yHat.owner.value.inputs| != 1
      ==> r == Err(InputArity)
    ensures batchAxis.Some? && SigmoidOwner(yHat).Ok? && TargetsValid(debugValues) && |yHat.owner.value.inputs| == 1
      ==> var z := yHat.owner.value.inputs[0];
          var axes := AxesToReduce(TotalRank(y, z), batchAxis.value);
          r == if axes.Ok? then Ok(Averaged(y, z, axes.value)) else Err(AxisOutOfRange)
    ensures r.Ok? ==> forall i, j | 0 <= i < j < |r.value.axes| :: r.value.axes[i] < r.value.axes[j]
  {
    if batchAxis.None? then Err(NoBatchAxis)
    else
      var owner :- SigmoidOwner(yHat);
      var _ :- CheckTargets(debugValues);
      var z :- SoleInput(owner);
      var axes :- AxesToReduce(TotalRank(y, z), batchAxis.value);
      Ok(Averaged(y, z, axes))
  }

  /** elemwise_kl(Y, Y_hat): the same checks as Kl, without any reduction. */
  function ElemwiseKl(y: Node, yHat: Node, debugValues: seq<Row>): (r: Result<Divergence>)
    ensures r.Ok? <==> && yHat.owner.Some? && CarriesSigmoid(yHat.owner.value.op)
                       && TargetsValid(debugValues) && |yHat.owner.value.inputs| == 1
    ensures r.Ok? ==> r.value == Elementwise(y, yHat.owner.value.inputs[0])
    ensures SigmoidOwner(yHat).Err? ==> r == Err(SigmoidOwner(yHat).failure)
    ensures SigmoidOwner(yHat).Ok? && CheckTargets(debugValues).Err? ==> r == Err(CheckTargets(debugValues).failure)
    ensures SigmoidOwner(yHat).Ok? && TargetsValid(debugValues) && |yHat.owner.value.inputs| != 1 ==> r == Err(InputArity)
  {
    var owner :- SigmoidOwner(yHat);
    var _ :- CheckTargets(debugValues);
    var z :- SoleInput(owner);
    Ok(Elementwise(y, z))
  }

  /**
   * The losses see through no Print: Print(sigmoid(z)) is refused with a
   * ValueError although ArgOfSigmoid accepts it.
   */
  lemma PrintedSigmoidRefused(y: Node, z: Node, d: nat, e: nat, batchAxis: int, debugValues: seq<Row>)
    requires z.ndim == 2
    ensures ArgOfSigmoid(Output(Print, [Output(Elemwise(ScalarSigmoid), [z], d)], e)) == Ok(z)
    ensures Kl(y, Output(Print, [Output(Elemwise(ScalarSigmoid), [z], d)], e), Some(batchAxis), debugValues) == Err(NoScalarOp)
    ensures ElemwiseKl(y, Output(Print, [Output(Elemwise(ScalarSigmoid), [z], d)], e), debugValues) == Err(NoScalarOp)
    ensures Raises(NoScalarOp) == ValueError
  {
    SigmoidArgumentRecovered(z, d, e);
  }

  /**
   * The losses test for a scalar op, not for an Elemwise op. An op that carries
   * another scalar op, such as a reduction, fails the sigmoid assertion with an
   * AssertionError. One that carries the sigmoid itself is accepted by the
   * losses although arg_of_sigmoid refuses it.
   */
  lemma ScalarOpTestOnly(y: Node, z: Node, d: nat, name: string, batchAxis: int, debugValues: seq<Row>)
    ensures Kl(y, Output(Reduction(OtherScalar(name)), [z], d), Some(batchAxis), debugValues) == Err(NotScalarSigmoid)
    ensures ElemwiseKl(y, Output(Reduction(OtherScalar(name)), [z], d), debugValues) == Err(NotScalarSigmoid)
    ensures Raises(NotScalarSigmoid) == AssertionError
    ensures ArgOfSigmoid(Output(Reduction(ScalarSigmoid), [z], d)) == Err(NotSigmoid)
    ensures ElemwiseKl(y, Output(Reduction(ScalarSigmoid), [z], d), []) == Ok(Elementwise(y, z))
  {
    assert WrongOp(Output(Reduction(ScalarSigmoid), [z], d), SigmoidNl);
  }

  /**
   * For a direct sigmoid output and a valid batch axis, kl fails with a
   * ValueError exactly when some debug value of the targets is empty or has an
   * entry outside [0, 1]; with no debug values there is nothing to check.
   */
  lemma KlRangeCheck(y: Node, z: Node, d: nat, batchAxis: int, debugValues: seq<Row>)
    requires -(TotalRank(y, z) as int) <= batchAxis < TotalRank(y, z)
    ensures var r := Kl(y, Output(Elemwise(ScalarSigmoid), [z], d), Some(batchAxis), debugValues);
      && (r.Ok? <==> TargetsValid(debugValues))
      && (r.Err? ==> Raises(r.failure) == ValueError)
    ensures Kl(y, Output(Elemwise(ScalarSigmoid), [z], d), Some(batchAxis), []).Ok?
  {
  }

  /** Axes reduced for a matrix with batch axis 0, and for a rank-3 tensor with batch axis -1. */
  lemma AxesToReduceExamples()
    ensures AxesToReduce(2, 0) == Ok([1])
    ensures AxesToReduce(3, -1) == Ok([0, 1])
    ensures AxesToReduce(2, 2) == Err(AxisOutOfRange)
  {
    assert Range(2)[..0] + Range(2)[1..] == [1];
    assert Range(3)[..2] + Range(3)[3..] == [0, 1];
  }
}
