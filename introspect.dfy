/**
 * Graph introspection: recovering the argument of a softmax or sigmoid by
 * looking at the op that produced its output, seeing through at most one
 * Print passthrough (pylearn2/expr/nnet.py, arg_of_softmax and arg_of_sigmoid).
 */
module Introspect {
  import opened Graph

  /** The two nonlinearities whose argument can be recovered. */
  datatype Nonlinearity = SoftmaxNl | SigmoidNl

  /** `op` is the op that computes `nl`. */
  predicate Recognizes(nl: Nonlinearity, op: Op) {
    match nl
    case SoftmaxNl => op.Softmax?
    case SigmoidNl => op.Elemwise? && op.scalarOp.ScalarSigmoid?
  }

  /** `y` was produced by applying `nl` to exactly the one input `z`. */
  predicate AppliedTo(y: Node, nl: Nonlinearity, z: Node) {
    y.owner.Some? && Recognizes(nl, y.owner.value.op) && y.owner.value.inputs == [z]
  }

  /** `y` is `nl(z)`, either directly or as the output of one Print of `nl(z)`. */
  predicate TracesTo(y: Node, nl: Nonlinearity, z: Node) {
    || AppliedTo(y, nl, z)
    || (&& y.owner.Some?
        && y.owner.value.op.Print?
        && |y.owner.value.inputs| == 1
        && AppliedTo(y.owner.value.inputs[0], nl, z))
  }

  /**
   * `y` has an owner, and the op reached after seeing through at most one
   * Print (whose single input has an owner) is not the op of `nl`.
   */
  predicate WrongOp(y: Node, nl: Nonlinearity) {
    && y.owner.Some?
    && var a := y.owner.value;
       if a.op.Print? then
         |a.inputs| == 1 && a.inputs[0].owner.Some? && !Recognizes(nl, a.inputs[0].owner.value.op)
       else
         !Recognizes(nl, a.op)
  }

  /** The owner to examine once at most one Print has been peeled off. */
  function PeelPrint(y: Node): Result<Apply> {
    match y.owner
    case None => Err(NoOwner)
    case Some(a) =>
      if !a.op.Print? then Ok(a)
      else if |a.inputs| != 1 then Err(PrintArity)
      else if a.inputs[0].owner.None? then Err(PrintedLeaf)
      else Ok(a.inputs[0].owner.value)
  }

  /** Unpacks the single input of `a` and checks that it is a matrix. */
  function MatrixArgument(a: Apply): Result<Node> {
    if |a.inputs| != 1 then Err(InputArity)
    else if a.inputs[0].ndim != 2 then Err(RankMismatch)
    else Ok(a.inputs[0])
  }

  /** The argument `z` of the softmax that produced `y`. */
  function ArgOfSoftmax(y: Node): (r: Result<Node>)
    ensures r.Ok? ==> TracesTo(y, SoftmaxNl, r.value) && r.value.ndim == 2
    ensures forall z | TracesTo(y, SoftmaxNl, z) :: r == if z.ndim == 2 then Ok(z) else Err(RankMismatch)
    ensures r == Err(NotSoftmax) <==> WrongOp(y, SoftmaxNl)
    ensures y.owner.None? ==> r == Err(NoOwner)
    ensures y.owner.Some? && y.owner.value.op.Print? && |y.owner.value.inputs| != 1 ==> r == Err(PrintArity)
    ensures y.owner.Some? && y.owner.value.op.Print? && |y.owner.value.inputs| == 1 && y.owner.value.inputs[0].owner.None?
      ==> r == Err(PrintedLeaf)
    ensures PeelPrint(y).Ok? && Recognizes(SoftmaxNl, PeelPrint(y).value.op) && |PeelPrint(y).value.inputs| != 1
      ==> r == Err(InputArity)
  {
    var a :- PeelPrint(y);
    if !a.op.Softmax? then Err(NotSoftmax)
    else MatrixArgument(a)
  }

  /** The argument `z` of the elementwise sigmoid that produced `y`. */
  function ArgOfSigmoid(y: Node): (r: Result<Node>)
    ensures r.Ok? ==> TracesTo(y, SigmoidNl, r.value) && r.value.ndim == 2
    ensures forall z | TracesTo(y, SigmoidNl, z) :: r == if z.ndim == 2 then Ok(z) else Err(RankMismatch)
    ensures r == Err(NotSigmoid) <==> WrongOp(y, SigmoidNl)
    ensures y.owner.None? ==> r == Err(NoOwner)
    ensures y.owner.Some? && y.owner.value.op.Print? && |y.owner.value.inputs| != 1 ==> r == Err(PrintArity)
    ensures y.owner.Some? && y.owner.value.op.Print? && |y.owner.value.inputs| == 1 && y.owner.value.inputs[0].owner.None?
      ==> r == Err(PrintedLeaf)
    ensures PeelPrint(y).Ok? && Recognizes(SigmoidNl, PeelPrint(y).value.op) && |PeelPrint(y).value.inputs| != 1
      ==> r == Err(InputArity)
  {
    var a :- PeelPrint(y);
    if !(a.op.Elemwise? && a.op.scalarOp.ScalarSigmoid?) then Err(NotSigmoid)
    else MatrixArgument(a)
  }

  /** softmax(z) and Print(softmax(z)) both give back `z` itself. */
  lemma SoftmaxArgumentRecovered(z: Node, d: nat, e: nat)
    requires z.ndim == 2
    ensures ArgOfSoftmax(Output(Softmax, [z], d)) == Ok(z)
    ensures ArgOfSoftmax(Output(Print, [Output(Softmax, [z], d)], e)) == Ok(z)
  {
    assert TracesTo(Output(Softmax, [z], d), SoftmaxNl, z);
    assert TracesTo(Output(Print, [Output(Softmax, [z], d)], e), SoftmaxNl, z);
  }

  /** sigmoid(z) and Print(sigmoid(z)) both give back `z` itself. */
  lemma SigmoidArgumentRecovered(z: Node, d: nat, e: nat)
    requires z.ndim == 2
    ensures ArgOfSigmoid(Output(Elemwise(ScalarSigmoid), [z], d)) == Ok(z)
    ensures ArgOfSigmoid(Output(Print, [Output(Elemwise(ScalarSigmoid), [z], d)], e)) == Ok(z)
  {
    var s := Output(Elemwise(ScalarSigmoid), [z], d);
    assert TracesTo(s, SigmoidNl, z);
    assert TracesTo(Output(Print, [s], e), SigmoidNl, z);
  }

  /**
   * Only one Print is seen through: Print(Print(softmax(z))) is rejected with
   * a ValueError, Print(Print(sigmoid(z))) with a TypeError.
   */
  lemma DoublePrintRejected(inner: Node, d: nat, e: nat)
    ensures ArgOfSoftmax(Output(Print, [Output(Print, [inner], d)], e)) == Err(NotSoftmax)
    ensures ArgOfSigmoid(Output(Print, [Output(Print, [inner], d)], e)) == Err(NotSigmoid)
    ensures Raises(NotSoftmax) == ValueError && Raises(NotSigmoid) == TypeError
  {
    assert WrongOp(Output(Print, [Output(Print, [inner], d)], e), SoftmaxNl);
    assert WrongOp(Output(Print, [Output(Print, [inner], d)], e), SigmoidNl);
  }

  /** A softmax output is not a sigmoid output and vice versa. */
  lemma OpsNotInterchangeable(z: Node, d: nat)
    ensures ArgOfSigmoid(Output(Softmax, [z], d)) == Err(NotSigmoid)
    ensures ArgOfSoftmax(Output(Elemwise(ScalarSigmoid), [z], d)) == Err(NotSoftmax)
  {
    assert WrongOp(Output(Softmax, [z], d), SigmoidNl);
    assert WrongOp(Output(Elemwise(ScalarSigmoid), [z], d), SoftmaxNl);
  }
}
