# pylearn2 `expr/nnet.py` in Dafny

A model of the neural-network expression helpers in pylearn2's `expr/nnet.py`.

The Theano expression graph is a closed datatype (`Graph`). A node is a leaf or the output of an `Apply` of one op, with ordered inputs. The op kinds are `Softmax`, `Elemwise(scalar op)`, `Reduction(scalar op)`, `Print` and any other op. `Reduction` stands for an op, such as a sum or product reduction, that carries a scalar op without being Elemwise. Every graph helper, and each of `SubtractRowMax`, `SubtractRowMin` and `RatioExponents`, is a total function that returns `Result`: either its value, or the `Failure` that the Python code raises at that point. The metrics and `Center` cannot fail, so they return their value directly. The `Rows` reductions `Max` and `Min`, and `Mean`, instead require a non-empty row; their callers check for empty rows first. `Raises` maps each failure to its Python exception class (`ValueError`, `TypeError`, `AssertionError`, `AttributeError`, `IndexError`).

- `Introspect` models `arg_of_softmax` and `arg_of_sigmoid`. Each peels off at most one `Print`, checks the op, unpacks the single input and asserts that it has rank 2. Both are proved complete and sound against an independent description, `TracesTo`: `y` is `nl(z)` or `Print(nl(z))`. Both also reject exactly the nodes whose op after the peel is the wrong one (`WrongOp`).
- `Losses` models the checks in `kl` and `elemwise_kl`:
  - the op check on `Y_hat` itself, which sees through no `Print`;
  - the debug-mode range check on the realized values of `Y`;
  - the axes that `kl` averages over.
  The result is a symbolic `Divergence` that names the targets, the logit and the axes. The softplus formula itself is not evaluated.
- `Activations` models `softmax_numpy`'s row-max subtraction and `pseudoinverse_softmax_numpy`'s zero-mean centering, over `real`.
- `Ratio` models `softmax_ratio`: it recovers both softmax arguments and propagates their failures. It then evaluates the exponent `numer_Z - denom_Z` of the cross term on realized logits. Every such exponent is at most 0, and each row differs from the raw `zn - zd` by a constant.
- `Metrics` models `compute_precision`, `compute_recall` and `compute_f1` over `real`, with the floor of 1 as the named constant `DenominatorFloor`.
- `Rows` holds the shared row arithmetic (sum, max, min, shifts).

Where the code and its docstrings or the natural reading of its names disagree, the model follows the code:
- `kl` and `elemwise_kl` do not reuse `arg_of_sigmoid`. They accept only a direct op whose scalar op is the sigmoid: a `Print`-wrapped one is refused with `ValueError`. They test for a `scalar_op` attribute, not for an Elemwise op, so a reduction that carries the sigmoid would pass and one that carries another scalar op fails the sigmoid assertion. They do not check the rank of the logit.
- `arg_of_softmax` raises `ValueError` on a wrong op, but `arg_of_sigmoid` raises `TypeError`.
- A target out of [0, 1] raises `ValueError`. NumPy's `min` and `max` of an empty debug value raise `ValueError` too, so the model refuses an empty debug value as well.
- `batch_axis` is a single Python list index, deleted from `range(ndim)`. A negative index counts from the end, and an index outside the list raises `IndexError`. It is not a list of axes, as the docstring says.
- The rank that `kl` reduces over is that of `Y * softplus(-z) + (1 - Y) * softplus(z)`. Theano's broadcasting makes that the larger of the two ranks.

## Model

| member | source | states |
|---|---|---|
| Introspect.ArgOfSoftmax | pylearn2/expr/nnet.py:113-128 | Returns `z` exactly when the node is `softmax(z)` or `Print(softmax(z))` and `z` has rank 2. The result always has rank 2. A rank other than 2 fails with the rank assertion. `NotSoftmax` (`ValueError`) is raised exactly when the op after at most one `Print` is not Softmax. A leaf fails its owner assertion. A `Print` without exactly one input fails its assertion, and a `Print` of a leaf raises `AttributeError`. A Softmax without exactly one input fails the unpacking with `ValueError`. |
| Introspect.ArgOfSigmoid | pylearn2/expr/nnet.py:149-168 | The same for an Elemwise op wrapping the scalar sigmoid, with `NotSigmoid` (`TypeError`) raised exactly when the op after at most one `Print` is the wrong one. The owner, `Print` and unpacking failures are pinned as for softmax. |
| Introspect.SoftmaxArgumentRecovered | pylearn2/expr/nnet.py:113-128 | `softmax(z)` and `Print(softmax(z))` both give back `z` itself when `z` has rank 2. |
| Introspect.SigmoidArgumentRecovered | pylearn2/expr/nnet.py:149-168 | `sigmoid(z)` and `Print(sigmoid(z))` both give back `z` itself when `z` has rank 2. |
| Introspect.DoublePrintRejected | pylearn2/expr/nnet.py:117-165 | Only one `Print` is seen through. `Print(Print(x))` is refused by `arg_of_softmax` with a `ValueError` and by `arg_of_sigmoid` with a `TypeError`. |
| Introspect.OpsNotInterchangeable | pylearn2/expr/nnet.py:122-165 | A softmax output is refused by `arg_of_sigmoid`, and a sigmoid output by `arg_of_softmax`. |
| Losses.SigmoidOwner | pylearn2/expr/nnet.py:205-212 | Accepts `Y_hat` exactly when its own owner's op carries the scalar sigmoid, and returns that owner. A leaf fails its owner assertion. An op with no scalar op fails with `NoScalarOp` (`ValueError`). An op whose scalar op is another one fails the sigmoid assertion (`NotScalarSigmoid`, an `AssertionError`). |
| Losses.RecognizedSigmoidCarriesSigmoid | pylearn2/expr/nnet.py:209-212 | Every op `arg_of_sigmoid` recognizes passes the losses' test. The only ops the losses accept and `arg_of_sigmoid` refuses are reductions. |
| Losses.CheckTargets | pylearn2/expr/nnet.py:214-217 | Succeeds exactly when every debug value is non-empty with all entries in [0, 1]. Every failure is a `ValueError`. An out-of-range failure names a debug value that has an entry outside [0, 1]. |
| Losses.AxesToReduce | pylearn2/expr/nnet.py:225-227 | Defined exactly for `-ndim <= batch_axis < ndim`, and raises `IndexError` otherwise. Gives `ndim - 1` axes in strictly ascending order: exactly `0..ndim-1` without the axis that the index denotes. |
| Losses.Kl | pylearn2/expr/nnet.py:202-230 | With no batch axis it fails its assertion. On success, `Y_hat`'s own op carries the scalar sigmoid and has the single input `z`, the targets passed the range check, and the result averages over exactly the non-batch axes of the broadcast rank. A `Y_hat` whose own op does not carry the sigmoid always fails. Given a batch axis, an op check failure is passed on unchanged (`ValueError` with no scalar op, `AssertionError` with another scalar op), and after it a range check failure (`ValueError`). Once both checks pass, a sigmoid owner without exactly one input fails the unpacking (`ValueError`); otherwise the result is exactly the average over the axes `AxesToReduce` gives for the broadcast rank, in ascending order, and an out-of-range batch axis raises `IndexError`. Any op carrying the scalar sigmoid is accepted, a reduction included. |
| Losses.ElemwiseKl | pylearn2/expr/nnet.py:261-284 | Succeeds exactly when `Y_hat`'s own op carries the scalar sigmoid and has one input, and the targets pass the range check. The result is the unreduced divergence of `Y` and that input. An op check failure is passed on unchanged (`ValueError` with no scalar op, `AssertionError` with another scalar op), and after it a range check failure (`ValueError`), and after that the unpacking failure (`ValueError`) of an owner without exactly one input. |
| Losses.ScalarOpTestOnly | pylearn2/expr/nnet.py:209-212 | A reduction carrying another scalar op is refused by both losses with an `AssertionError`. A reduction carrying the sigmoid is accepted by `elemwise_kl` although `arg_of_sigmoid` refuses it with a `TypeError`. |
| Losses.PrintedSigmoidRefused | pylearn2/expr/nnet.py:205-212 | `Print(sigmoid(z))` is refused by both losses with a `ValueError`, although `arg_of_sigmoid` accepts it. |
| Losses.KlRangeCheck | pylearn2/expr/nnet.py:214-217 | For a direct sigmoid and a valid batch axis, `kl` fails exactly when the range check fails, and then with a `ValueError`. With no debug values it succeeds. |
| Losses.AxesToReduceExamples | pylearn2/expr/nnet.py:225-227 | Rank 2 with batch axis 0 reduces `[1]`. Rank 3 with batch axis -1 reduces `[0, 1]`. Batch axis 2 of rank 2 is an `IndexError`. |
| Activations.SubtractRowMax | pylearn2/expr/nnet.py:32 | Fails only on an empty row. Otherwise each row is shifted by a constant, has every entry at most 0, and has maximum exactly 0. |
| Activations.ShiftedByMax | pylearn2/expr/nnet.py:32 | Subtracting a row's maximum gives a shift of the row whose entries are at most 0 and whose maximum is 0. |
| Activations.MaxShiftDetermined | pylearn2/expr/nnet.py:32 | The only shift of a row whose maximum is 0 is the row minus its maximum. |
| Activations.Center | pylearn2/expr/nnet.py:54-56 | The centered logarithms are a shift of the logarithms and sum to 0 (mean 0). |
| Activations.CenterShiftInvariant | pylearn2/expr/nnet.py:37-56 | Rows that differ by a constant, i.e. logarithms of the same softmax image, centre to the same vector. |
| Activations.CenterUnique | pylearn2/expr/nnet.py:50-55 | The zero-mean shift of a row is unique, and it is what `Center` returns. |
| Activations.CenterIdempotent | pylearn2/expr/nnet.py:55 | Centering twice equals centering once. |
| Ratio.SoftmaxRatio | pylearn2/expr/nnet.py:306-307 | A failure of `arg_of_softmax` on `numer` is returned unchanged, and then one on `denom`. When both calls succeed, the result is built from exactly the two recovered logits, which are the rank-2 softmax arguments. |
| Ratio.SubtractRowMin | pylearn2/expr/nnet.py:309 | Fails only on an empty row. Otherwise each row is shifted by a constant, has every entry at least 0, and has minimum exactly 0. |
| Ratio.MinShiftDetermined | pylearn2/expr/nnet.py:309 | The only shift of a row whose minimum is 0 is the row minus its minimum. |
| Ratio.RatioExponents | pylearn2/expr/nnet.py:308-311 | Defined exactly when no row is empty and the shapes agree. An empty row raises `EmptyReduction`, otherwise a mismatch raises `ShapeMismatch`. Each row is the max-shifted numerator row minus the min-shifted denominator row. |
| Ratio.RowExponentBounded | pylearn2/expr/nnet.py:308-311 | A row of exponents has every entry at most 0 and differs from the raw difference by a constant. |
| Ratio.RatioExponentsNonPositive | pylearn2/expr/nnet.py:308-311 | Every exponent `numer_Z - denom_Z` is at most 0, so no cross-term exponential can overflow. Each row differs from `zn - zd` only by a constant. |
| Ratio.RatioExponentsShiftInvariant | pylearn2/expr/nnet.py:308-315 | Shifting logit rows by constants, which leaves both softmaxes unchanged, does not change the exponents. |
| Ratio.SelfRatioExponents | pylearn2/expr/nnet.py:308-315 | For `softmax_ratio(softmax(z), softmax(z))` every exponent in row `i` is the constant `min - max` of that row. |
| Metrics.Precision | pylearn2/expr/nnet.py:335 | For non-negative counts it lies in [0, 1]. It is `tp / (tp + fp)` when `tp + fp >= 1`, exactly `tp` below that, and 0 when `tp = 0`. |
| Metrics.Recall | pylearn2/expr/nnet.py:355 | It is `tp / sum(y)` when `sum(y) >= 1`, lies in [0, 1] for `0 <= tp <= sum(y)`, equals `tp` below the floor, and is 0 when `tp = 0`. |
| Metrics.RecallAllNegative | pylearn2/expr/nnet.py:355 | With all-zero targets, recall equals `tp`, and `recall(y, 0) = 0`. |
| Metrics.F1 | pylearn2/expr/nnet.py:378-379 | For precision and recall in [0, 1] it lies in [0, 1]. It is `2pr / (p + r)` when `p + r >= 1`, exactly `2pr` below that, and 0 when either is 0. |
| Metrics.F1Bounded | pylearn2/expr/nnet.py:378-379 | The floored F1 of arguments in [0, 1] lies in [0, 1]. |
| Metrics.F1Symmetric | pylearn2/expr/nnet.py:378-379 | F1 is symmetric in precision and recall. |
| Metrics.FloorUnderestimates | pylearn2/expr/nnet.py:335-379 | Where the natural denominator is positive, floored precision and F1 never exceed their unfloored values. |
| Metrics.F1Harmonic | pylearn2/expr/nnet.py:359-379 | The documented F1: `2pr / (p + r)`, or 0 when both are 0. It agrees with `F1` when `p + r >= 1` and always lies between precision and recall. |
| Metrics.F1FloorDistorts | pylearn2/expr/nnet.py:378-379 | At `p = r = 0.4`, `compute_f1` gives 0.32, below both arguments, while the documented formula gives 0.4. |

## Left out

- Exponentials, logarithms and float division: `np.exp`/`np.log` in `softmax_numpy`, `sigmoid_numpy`, `inverse_sigmoid_numpy` and `pseudoinverse_softmax_numpy`, and `T.exp`/`softplus` in the losses and the ratio. Dafny has no `exp` or `log`, so only the exact shift and centering steps are modelled. `Center` takes the logarithms as its input.
- `sigmoid_numpy` and `inverse_sigmoid_numpy` entirely. They are a single transcendental expression each, and the `isinstance(x, theano.gof.Variable)` guard is a type check on the foreign framework.
- Building the Theano graph: the softplus, product, sum and mean nodes of `kl`/`elemwise_kl` and the exp/sum/division nodes of `softmax_ratio`. The results are the symbolic records `Divergence` and `RatioExpr`.
- How `get_debug_values` obtains values. The model takes them as a given sequence of flattened arrays, which is empty outside debug mode.
- Error message wording. Only the failure kind and its exception class are modelled.
- `dimshuffle` and broadcasting of operands whose shapes differ. `RatioExponents` takes two matrices and reports any shape difference as a failure.
- NaN entries and floating-point rounding. Entries are exact reals.
- A matrix with zero rows is modelled as having nothing to reduce. NumPy also raises for the shape (0, 0), which a sequence of rows cannot represent.
- `hasattr(Y_hat, 'owner')`: every modelled node has an owner field, so that assertion cannot fail.

## Findings

| source | as written | input that shows it | evidently intended | confidence | as-written member | corrected member |
|---|---|---|---|---|---|---|
| pylearn2/expr/nnet.py:378-379 | `compute_f1` divides by `max(1, precision + recall)`. But `precision + recall` is a real in [0, 2], so the floor also changes non-degenerate inputs with `p + r < 1`. | `precision = recall = 0.4` gives 0.32, below both arguments. | `2pr / (p + r)` as the docstring states, with the guard only for `p + r = 0`. The result then lies between precision and recall. | medium, not executed | Metrics.F1FloorDistorts | Metrics.F1Harmonic |
