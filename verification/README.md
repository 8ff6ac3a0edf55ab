# Bookkeeping core of a multilayer regression network

This project models, over exact reals and naturals, the discrete part of
`notebookcode.py`, a NumPy notebook that trains fully connected neural
networks for nonlinear regression. The numerics are the random
initialisation, the forward and backward passes, tanh, and the square root in
Adam's step. They are either parameters of the model or left out. What remains
is modelled and proved:

- **Topology** (`topology.dfy`): the constructor's hidden-layer argument (`0`, `[]` and
  `[0]` mean "no hidden layers") and the list of per-layer weight-matrix
  shapes `(fan_in + 1, units)` it builds.
- **Arena** (`arena.dfy`): `make_weights_and_views` lays every layer's matrix end to end
  in one flat vector and records each layer's window. The model keeps the
  offset table and proves that the windows are consecutive, disjoint and
  gap-free, and that together they rebuild the arena.
- **Activation** (`activation.dfy`): `relu` and the `grad_relu` mask.
- **Optimizers** (`optimizers.dfy`): `Optimizers.sgd` and `Optimizers.adam`, each as an epoch loop
  with its error trace.
  - Adam's moment recurrences and bias-correction trackers are proved to follow
    closed forms: the trackers are powers of the decay rates, and the moments
    are discounted sums of the gradient history.
  - Two calls on one optimizer compose like one long call.
- **Folds** (`folds.dfy`): `partition`, for a given permutation or none. It cuts the rows
  into folds and hands out validation, test and training parts. Every failure
  the code runs into is a named error.
- **Standardization** (`standardization.dfy`): the statistics guard of `train` (first call only,
  zero input standard deviations become 1) and the standardisation round trip.
- **Network** (`network.dfy`): the constructor and `train`, meaning the stats guard,
  the standardisation and the dispatch on the optimizer's name.

`outcomes.dfy` holds the `Result`/`Option` types and the error kinds.
`arrays.dfy` holds vectors and matrices. `sequences.dfy` holds concatenation
of a list of parts.

Parameters stand in for what the model cannot compute:

- `errorF`/`gradientF` (or `loss`/`grad` for the optimizers) are the network's
  error and gradient functions of the weight vector;
- `root` is the square root, assumed never to return a negative value;
- `initWeights`/`initGradients` are the random initial values;
- `shuffled` is the permutation `np.random.shuffle` produces;
- `measured` are the means and standard deviations of the training data.

## Model

| member | source | states |
|---|---|---|
| Topology.NormalizeHidden | notebookcode.py:849-854 | A bare integer other than 0 is refused (it cannot be iterated). The result is the empty list exactly for `0`, `[]` and `[0]`. Any other list is kept as given. |
| Topology.LayerShapes | notebookcode.py:855-861 | There is one shape more than there are hidden layers. Layer 0 has `n_inputs + 1` rows, and each later layer has the previous layer's width plus 1 rows. Hidden layer i has `hidden[i]` columns, and the last layer has `n_outputs` columns. |
| Topology.ShapesFor | notebookcode.py:850-861 | Fails exactly when the hidden argument is refused. `0`, `[]` and `[0]` give the single linear layer `(n_inputs + 1, n_outputs)`. |
| Topology.ShapesDetermined | notebookcode.py:856-861 | Any shape list obeying the chaining rules above equals the constructor's list, so those rules characterise it completely. |
| Topology.ZeroWidthLayersAreKept | notebookcode.py:850-861 | `[0, 0]` is not normalised away: it yields two zero-width hidden layers before the output layer. |
| Arena.MakeViews | notebookcode.py:887-893 | The windows follow the shapes in order. The first starts at 0 and each next one starts where the previous one ends. Window i starts at the total size of the layers before it, and the last window ends at the total size. |
| Arena.MakeArenaAndViews | notebookcode.py:880-893 | The flat vector is exactly as long as all matrices together, holds the initial values, and ends where the last window ends. |
| Arena.Window | notebookcode.py:891 | A layer's window has `rows * cols` entries. |
| Arena.CellIndex | notebookcode.py:891 | A cell of a layer's matrix, in row-major order, lies inside that layer's window. |
| Arena.CellIndexInjective | notebookcode.py:891 | Different cells of one matrix occupy different positions of the flat vector. |
| Arena.ViewsOrdered | notebookcode.py:889-892 | An earlier layer's window ends no later than a later layer's window starts. |
| Arena.ViewsDisjoint | notebookcode.py:887-893 | A position that lies in one layer's window lies in no other layer's window. |
| Arena.ViewsInArena | notebookcode.py:883-893 | Every window lies inside the flat vector. |
| Arena.ViewsCover | notebookcode.py:883-893 | Every position of the flat vector lies in some layer's window, so there are no gaps. |
| Arena.WindowsFlattenToArena | notebookcode.py:883-884 | The windows laid end to end in layer order are exactly the flat vector. |
| Arena.WriteStaysInView | notebookcode.py:887-893 | Writing through one layer's view changes no other layer's matrix, and the written cell reads back the value written. |
| Activation.Relu | notebookcode.py:1009-1012 | The result is `max(s, 0)`: never negative, never below `s`, and either `s` or 0. |
| Activation.GradRelu | notebookcode.py:1014-1019 | The mask is 1 exactly when `s > 0` and 0 exactly when `s <= 0`, including `s == 0`. |
| Activation.ReluIdempotent | notebookcode.py:1009-1012 | Applying ReLU twice is applying it once. |
| Activation.MaskFromOutputMatchesMaskFromSum | notebookcode.py:996-997 | Taking the mask from the cached ReLU output, as back-propagation does, gives the mask of the weighted sum. |
| Activation.ReluMatrix | notebookcode.py:1009-1012 | The same shape as the input, and every entry is the ReLU of the input entry. |
| Activation.GradReluMatrix | notebookcode.py:1014-1019 | The same shape, and every entry is 1 exactly for positive inputs and 0 otherwise. |
| Activation.ReluMatrixIdempotent | notebookcode.py:1009-1012 | Elementwise ReLU on a matrix is idempotent. |
| Activation.MaskMatrixFromOutput | notebookcode.py:996-997 | The mask of a layer's ReLU output matrix equals the mask of its weighted sums. |
| Optimizers.Sgd | notebookcode.py:52-78 | The loop runs exactly `n_epochs` epochs and returns the weights after that many steps `w - lr * grad(w)`. The trace has one entry per epoch: the (converted) error at that epoch's starting weights. The gradient buffer ends up holding the gradient at the last epoch's starting weights, and is untouched when no epoch runs. |
| Optimizers.SgdComposes | notebookcode.py:63-69 | `a` epochs of SGD followed by `b` more equal `a + b` epochs, because SGD keeps no state. |
| Optimizers.SgdFixedPoint | notebookcode.py:69 | Where the gradient vanishes, SGD never moves. |
| Optimizers.SgdOnParabola | notebookcode.py:136-146 | On the test parabola each epoch shrinks the distance to the minimum by the factor `1 - 2 lr`. |
| Optimizers.SgdParabolaTestConverges | notebookcode.py:142-147 | The optimizer test's SGD run (100 epochs from 0, learning rate 0.1, minimum 5) ends within 0.1 of the minimum. |
| Optimizers.FreshAdam | notebookcode.py:44-49 | A new optimizer has zero moments as long as the weight vector, and both trackers at 1. |
| Optimizers.AdamMoments | notebookcode.py:106-111 | One epoch's state update keeps both moments as long as the weights and the trackers in (0, 1], and the trackers fall to at most 0.9 and 0.999. |
| Optimizers.MomentsKeepNonNegative | notebookcode.py:107 | One update of the second moments keeps a non-negative second moment non-negative. |
| Optimizers.SecondMomentsStayNonNegative | notebookcode.py:107 | A second moment that starts non-negative stays non-negative through any number of epochs, so the square root never receives a negative `vhat`. |
| Optimizers.AdamEpoch | notebookcode.py:93-116 | One epoch keeps the weight length and a valid optimizer state. The order of its steps is stated by `Optimizers.AdamStepUsesUpdatedTrackers`. |
| Optimizers.AdamUpdate | notebookcode.py:113-116 | The divisor `sqrt(vhat) + eps` is positive. So a weight whose first moment is 0 stays put, and with a non-negative learning rate a weight never moves in the direction of its first moment's sign. |
| Optimizers.AdamStep | notebookcode.py:113-116 | The weight vector keeps its length. Every entry with a zero first moment keeps its value, and with a non-negative learning rate every other entry moves against the sign of its first moment. |
| Optimizers.AdamStepUsesUpdatedTrackers | notebookcode.py:106-116 | Epoch `k` updates the moments and multiplies the trackers first. The weight step then uses the trackers after that multiplication, `beta1t * 0.9^k` and `beta2t * 0.999^k`, both below 1, so the bias correction never divides by 0. |
| Optimizers.FreshAdamFirstCorrection | notebookcode.py:110-114 | The trackers of a fresh optimizer start at 1, yet its first epoch divides the moments by `1 - 0.9` and `1 - 0.999`, not by `1 - 1`. |
| Optimizers.AdamEpochs | notebookcode.py:93-116 | Any number of epochs keeps the weight length and a valid optimizer state. |
| Optimizers.Adam | notebookcode.py:80-126 | The loop runs exactly `n_epochs` epochs and ends in the state of that many epochs, with the trackers multiplied by `0.9^n` and `0.999^n`. The trace holds the (converted) error at each epoch's starting weights. As with SGD, the gradient buffer ends up holding the gradient at the last epoch's starting weights. |
| Optimizers.TrackersArePowers | notebookcode.py:110-111 | After `k` epochs the trackers are their starting values times `0.9^k` and `0.999^k`. From a fresh optimizer they are `0.9^k` and `0.999^k`. |
| Optimizers.TrackersStep | notebookcode.py:110-111 | Each epoch multiplies the trackers by the decay rates exactly once. |
| Optimizers.AdamComposes | notebookcode.py:41-49 | Two calls of `a` and then `b` epochs on one optimizer end where one call of `a + b` epochs ends, because moments and trackers persist on the object. |
| Optimizers.FirstMomentStep | notebookcode.py:106 | Epoch `k` moves every first moment towards the gradient it measures: `m' = 0.9 m + 0.1 g`. |
| Optimizers.SecondMomentStep | notebookcode.py:107 | Epoch `k` moves every second moment towards the squared gradient: `v' = 0.999 v + 0.001 g^2`. |
| Optimizers.MomentAfterSnoc | notebookcode.py:106 | One more gradient in the history is one more moving-average update. |
| Optimizers.MomentIsDiscountedSum | notebookcode.py:106-107 | The recurrence equals the closed form `beta^n m0 + sum_j (1 - beta) beta^(n-1-j) g_j`. |
| Optimizers.FirstMomentFollowsHistory | notebookcode.py:106 | After `k` epochs each first moment is the recurrence run over that weight's gradient history, starting from the optimizer's moment. |
| Optimizers.SecondMomentFollowsHistory | notebookcode.py:107 | After `k` epochs each second moment is the recurrence run over that weight's squared gradient history. |
| Optimizers.MomentOfConstant | notebookcode.py:106 | From 0 under a constant input `x`, the moment after `k` updates is `(1 - beta^k) x`. |
| Optimizers.ConstantGradientMoments | notebookcode.py:106-107 | A fresh optimizer under a constant gradient `c` holds `(1 - 0.9^k) c` and `(1 - 0.999^k) c^2` after `k` epochs. |
| Optimizers.ConstantGradientBiasCorrection | notebookcode.py:110-114 | Under a constant gradient, the bias-corrected moments `mhat` and `vhat` of a fresh optimizer are exactly `c` and `c^2` from the first epoch on. |
| Folds.FloorDiv | notebookcode.py:649 | Python's `//`: the quotient rounded down, for both signs of the divisor. |
| Folds.Reorder | notebookcode.py:644-645 | `X[rows, :]`: the result has one row per index, and its row `i` is the input's row `rows[i]`. `Folds.ReorderKeepsRows` is its partner. |
| Folds.PermutationInRange | notebookcode.py:641-643 | A shuffled `arange(n)` has `n` entries, all valid row indices. |
| Folds.ReorderKeepsRows | notebookcode.py:641-645 | Reordering by a permutation loses and repeats no row (multiset equality). |
| Folds.SameIndicesSameRows | notebookcode.py:644-645 | Index lists holding the same indices pick the same rows up to order. |
| Folds.MakeFolds | notebookcode.py:648-657 | With `k >= 1` folds, the first `k - 1` hold `n // k` consecutive rows each and the last holds the rest. A negative count leaves one fold of all rows. In every case the folds laid end to end are the rows. |
| Folds.Partition | notebookcode.py:640-665 | The errors come in the code's order: too few target rows, zero folds, fewer than two folds, exactly two folds. It succeeds exactly for three or more folds. Validation is fold 0, test is fold 1 and training is folds 2.. stacked in order, with sizes adding up to `n`. No row is lost or repeated, and without shuffling the parts are the rows in their original order. |
| Standardization.FixZeroStds | notebookcode.py:921 | No standard deviation is zero afterwards. Each entry is kept, or was zero and became 1. |
| Standardization.FixZeroStdsIdempotent | notebookcode.py:921 | Applying the fix twice is applying it once. |
| Standardization.FixZeroStdsChangesOnlyZeros | notebookcode.py:921 | The fix changes the vector exactly when it holds a zero. |
| Standardization.SetupStats | notebookcode.py:918-923 | Statistics already present are kept unchanged. Otherwise the measured ones are taken, with the zero input standard deviations replaced by exactly 1 (`Standardization.FixZeroStds`) and the target statistics left as measured. |
| Standardization.StatsFrozenAfterFirstCall | notebookcode.py:918-923 | Once set, the statistics ignore whatever a later call measures. |
| Standardization.SetupKeepsXReady | notebookcode.py:918-921 | After the guard, no input standard deviation is zero. |
| Standardization.Standardize | notebookcode.py:926-927 | Fails on a width mismatch, or on a zero standard deviation with a non-empty matrix, and only then. On success every entry maps back to the original under `* std + mean`. |
| Standardization.Unstandardize | notebookcode.py:1006 | Fails exactly on a width mismatch. Otherwise each entry minus the mean is the output entry times the standard deviation. |
| Standardization.UnstandardizeStandardize | notebookcode.py:1004-1006 | Mapping standardised data back gives the original data. |
| Standardization.StandardizeUnstandardize | notebookcode.py:1004-1006 | With non-zero standard deviations, standardising the mapped-back output gives the output again. |
| Standardization.InputsAlwaysStandardize | notebookcode.py:921-926 | After the guard, inputs of the right width always standardise. |
| Standardization.ConstantColumnOnlyFailsForTargets | notebookcode.py:921-927 | A constant input column standardises to 0, but the same constant target column meets a zero standard deviation, because the targets have no guard. |
| Network.Construct | notebookcode.py:844-877 | Fails exactly for a non-zero integer hidden argument. Otherwise the weight and gradient buffers fit the topology's shapes and windows, the weights hold the initial values, and the network starts untrained with no trace and no statistics. |
| Network.ConvertError | notebookcode.py:933 | The converted error is the root of the mean squared error times the first target column's standard deviation. With a root that is never negative, it is never negative when that deviation is not. |
| Network.ConversionIgnoresLaterColumns | notebookcode.py:933 | Two target standard-deviation vectors with the same first entry give the same conversion, so later target columns never affect the reported error. |
| Network.Fit | notebookcode.py:935-950 | Any name other than "sgd" and "adam" is refused before an epoch runs. Otherwise the result is that optimizer's run from the current weights (a fresh Adam state for "adam"). The trace is converted with the first target standard deviation, and the gradient buffer is left holding the last epoch's gradient. |
| Network.StandardizeData | notebookcode.py:925-927 | Succeeds exactly when both inputs and targets standardise. If the inputs fail, their error is the one reported; if only the targets fail, the targets' error is. On success both come out standardised. |
| Network.Train | notebookcode.py:907-956 | The statistics are fixed before anything can fail. Only the statistics, the weights, the gradient buffer and the trace change, and the layout stays well-formed. A data error is reported as is. With good data the call fails exactly for an unknown method. On success the weights, the trace and the gradient buffer are those the chosen optimizer's run leaves on the standardised data. The buffer holds `gradient_f` at the last epoch's starting weights (notebookcode.py:990-992, 1000). On failure the weights, the buffer and the trace are untouched. |

## Left out

- Floating point. Every quantity is an exact real, so rounding, overflow, and the inf/nan values numpy produces are not modelled.
- The square root in Adam's step and in the error conversion is the parameter `root`. The model only assumes it never returns a negative value, so nothing is proved about the size of Adam's weight step. `np.sqrt` gives NaN for a negative argument, but Adam only takes roots of non-negative `vhat`, as `Optimizers.SecondMomentsStayNonNegative` shows.
- The tanh, sigmoid and swish activations (notebookcode.py:963-968, 1021-1033) are transcendental. `sigmoid` also refers to an undefined name.
- The forward and backward passes (notebookcode.py:959-1000) are dense floating-point linear algebra. They are the parameters `errorF` and `gradientF`. The gradient buffer is modelled as holding whatever `gradientF` last returned. How `gradient_f` fills it layer by layer through its views is not modelled.
- The mean and standard deviation themselves (notebookcode.py:919-923) are the parameter `measured`.
- Random initial weights and the shuffle in `partition` are parameters: an initial-value function and a given permutation.
- Printing in the optimizers, data loading, plotting, `run_experiment`, `rmse`, `__repr__` and `__str__` are I/O or reporting.
- `use` (notebookcode.py:1002-1007) is modelled only through its standardise and unstandardise steps, since its forward pass is left out.
- In-place updates of the shared weight buffer are modelled by returning the new weights. The aliasing between the optimizer and the network's views is not modelled.
- Network.Train: requires at least one target standard deviation. With a target of zero columns, the source's error conversion raises an index error after the first epoch's update has already been applied.
- Network.Train: the fields `trained` and `total_epochs` are never updated, as in the source. The model states that they stay as constructed.
- Network.Train: the layer outputs `Ys` that `error_f` caches for `gradient_f` are not a field of the model. The gradient buffer is stated only as the whole vector `gradientF` returns.
- Network.Construct: layer widths, `n_inputs` and `n_outputs` are naturals. A negative dimension makes `np.random.uniform(size=shape)` raise a ValueError (notebookcode.py:883), and the model does not represent that error path.
- Standardization.Standardize: a zero standard deviation on a non-empty matrix gives `Err(ZeroStd)`, whereas numpy divides and yields inf/nan values, after which training goes on with them. This makes the contract weaker than the source's behaviour, which does not stop there.
- Standardization.Standardize: numpy would broadcast statistics of length 1 across any number of columns. The model requires equal widths and reports `ShapeMismatch` otherwise.
- Folds.MakeFolds: requires a non-zero fold count. The zero case is the division error that `Folds.Partition` reports before the loop is reached.
- Optimizers.Sgd: requires a gradient as long as the weight vector, as does `Optimizers.Adam` (through its readiness predicate). numpy would broadcast a length-1 gradient or raise on other lengths.
- Folds.Partition: succeeds only for three or more folds, because with two folds `np.vstack` receives an empty list and raises (notebookcode.py:662).
- Folds.Partition: rows are opaque values, so the column slices `[:, :]` and the shapes `np.vstack` checks are not modelled.
