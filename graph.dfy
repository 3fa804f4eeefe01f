/**
 * The expression graph as the host tensor framework exposes it to
 * pylearn2's nnet helpers: variables (nodes), the ops that produce them,
 * and the failures the helpers raise while inspecting them.
 */
module Graph {

  datatype Option<+T> = None | Some(value: T)

  /** Scalar primitives an elementwise op may wrap. */
  datatype ScalarOp = ScalarSigmoid | OtherScalar(name: string)

  /**
   * The closed set of op kinds the helpers distinguish. `Print` is the
   * debugging passthrough that forwards its single input unchanged.
   * `Reduction` stands for an op such as a sum or product reduction that
   * carries a scalar op without being Elemwise.
   */
  datatype Op =
    | Softmax
    | Elemwise(scalarOp: ScalarOp)
    | Reduction(scalarOp: ScalarOp)
    | Print
    | OtherOp(name: string)
  {
    /** The op has a `scalar_op` attribute. */
    predicate HasScalarOp() {
      Elemwise? || Reduction?
    }
  }

  /** An owner link: the op that produced a node, and that op's ordered inputs. */
  datatype Apply = Apply(op: Op, inputs: seq<Node>)

  /** A tensor-valued variable: a leaf (no owner) or the output of an Apply. */
  datatype Node = Node(owner: Option<Apply>, ndim: nat)

  /** The node that `op` produces from `inputs`, with rank `ndim`. */
  function Output(op: Op, inputs: seq<Node>, ndim: nat): Node {
    Node(Some(Apply(op, inputs)), ndim)
  }

  /** The Python exception classes the helpers can raise. */
  datatype PyException = AssertionError | AttributeError | IndexError | TypeError | ValueError

  /** One constructor per place where the helpers fail. */
  datatype Failure =
    | NoOwner            // the inspected node is a leaf (assertion on its owner)
    | PrintArity         // a Print owner without exactly one input (assertion)
    | PrintedLeaf        // the Print's input is a leaf: its missing owner has no op
    | NotSoftmax         // the op found is not Softmax
    | NotSigmoid         // the op found is not an Elemwise sigmoid
    | InputArity         // unpacking the op's inputs into exactly one variable fails
    | RankMismatch       // the recovered argument is not a matrix (assertion)
    | NoBatchAxis        // kl was given no batch axis (assertion)
    | NoScalarOp         // kl: the op has no scalar op attribute
    | NotScalarSigmoid   // kl: the op's scalar op is not the sigmoid (assertion)
    | TargetOutOfRange   // kl: a debug value of Y lies outside [0, 1]
    | EmptyReduction     // a min or max reduction over an empty axis
    | AxisOutOfRange     // deleting a list index that does not exist
    | ShapeMismatch      // an elementwise op over operands of different shapes

  /** The exception class raised for each failure. */
  function Raises(f: Failure): (e: PyException)
    ensures f in {NoOwner, PrintArity, RankMismatch, NoBatchAxis, NotScalarSigmoid} <==> e == AssertionError
    ensures f == NotSigmoid <==> e == TypeError
  {
    match f
    case NoOwner => AssertionError
    case PrintArity => AssertionError
    case PrintedLeaf => AttributeError
    case NotSoftmax => ValueError
    case NotSigmoid => TypeError
    case InputArity => ValueError
    case RankMismatch => AssertionError
    case NoBatchAxis => AssertionError
    case NoScalarOp => ValueError
    case NotScalarSigmoid => AssertionError
    case TargetOutOfRange => ValueError
    case EmptyReduction => ValueError
    case AxisOutOfRange => IndexError
    case ShapeMismatch => ValueError
  }

  /** A value, or the failure that was raised instead of producing it. */
  datatype Result<+T> = Ok(value: T) | Err(failure: Failure) {

    predicate IsFailure() {
      Err?
    }

    function PropagateFailure<U>(): Result<U>
      requires Err?
    {
      Err(failure)
    }

    function Extract(): T
      requires Ok?
    {
      value
    }
  }
}
