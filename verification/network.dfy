/** The `NeuralNetwork` class, as far as its bookkeeping goes: the
    constructor lays out the weight and gradient buffers for the topology,
    and `train` fixes the standardisation statistics, standardises the data,
    and hands the weight buffer to a fresh optimizer chosen by name.

    The network's error and gradient functions (the forward and backward
    passes) are parameters: `errorF(X, T, w)` and `gradientF(X, T, w)` give
    the mean squared error and its gradient for the weight vector `w` on the
    standardised data.  Random initial values are the parameters
    `initWeights` and `initGradients`; the square root is `root`.
 */
module Network {
  import opened Arrays
  import opened Outcomes
  import opened Topology
  import opened Arena
  import opened Optimizers
  import opened Standardization

  /** The attributes of a network object. */
  datatype Net = Net(nInputs: nat, hidden: seq<nat>, nOutputs: nat, activation: string,
                     shapes: seq<Shape>,
                     weights: Vector, views: seq<View>,
                     gradients: Vector, gradientViews: seq<View>,
                     trained: bool, totalEpochs: nat, errorTrace: seq<real>,
                     stats: Option<Stats>)

  /** The layout the constructor establishes and training keeps: one matrix
      per layer in the shapes of the topology, with the weights and the
      gradients each in a buffer exactly as long as all of them. */
  predicate WellFormed(net: Net) {
    && net.shapes == LayerShapes(net.nInputs, net.hidden, net.nOutputs)
    && |net.weights| == TotalSize(net.shapes) && Consecutive(net.views, net.shapes)
    && |net.gradients| == TotalSize(net.shapes) && Consecutive(net.gradientViews, net.shapes)
  }

  /** `NeuralNetwork(n_inputs, n_hiddens_per_layer, n_outputs, activation_function)`. */
  method Construct(nInputs: nat, spec: HiddenSpec, nOutputs: nat, activation: string,
                   initWeights: nat -> real, initGradients: nat -> real)
    returns (r: Result<Net>)
    ensures r.Err? <==> spec.Count? && spec.n != 0
    ensures r.Err? ==> r.error == NotIterable
    ensures r.Ok? ==> WellFormed(r.value)
    ensures r.Ok? ==> r.value.nInputs == nInputs && r.value.nOutputs == nOutputs && r.value.activation == activation
    ensures r.Ok? ==> r.value.hidden == NormalizeHidden(spec).value
    ensures r.Ok? ==> |r.value.shapes| == |r.value.hidden| + 1
    ensures r.Ok? ==> r.value.views[|r.value.views| - 1].End() == |r.value.weights|
    ensures r.Ok? ==> forall j :: 0 <= j < |r.value.weights| ==> r.value.weights[j] == initWeights(j)
    ensures r.Ok? ==> !r.value.trained && r.value.totalEpochs == 0 && r.value.errorTrace == [] && r.value.stats == None
  {
    var hidden :- NormalizeHidden(spec);
    var shapes := LayerShapes(nInputs, hidden, nOutputs);
    var weights, views := MakeArenaAndViews(shapes, initWeights);
    var gradients, gradientViews := MakeArenaAndViews(shapes, initGradients);
    r := Ok(Net(nInputs, hidden, nOutputs, activation, shapes, weights, views, gradients, gradientViews,
                false, 0, [], None));
  }

  /** `gradient_f` returns the gradient buffer, which has one entry per weight. */
  ghost predicate GradientFits(gradientF: (Matrix, Matrix, Vector) -> Vector, n: nat) {
    forall x: Matrix, t: Matrix, w: Vector :: |w| == n ==> |gradientF(x, t, w)| == n
  }

  /** `error_f` with the training data bound, as the optimizer sees it. */
  function LossOn(errorF: (Matrix, Matrix, Vector) -> real, x: Matrix, t: Matrix): (loss: Vector -> real)
    ensures forall w :: loss(w) == errorF(x, t, w)
  {
    w => errorF(x, t, w)
  }

  /** `gradient_f` with the training data bound. */
  function GradientOn(gradientF: (Matrix, Matrix, Vector) -> Vector, x: Matrix, t: Matrix): (g: Vector -> Vector)
    ensures forall w :: g(w) == gradientF(x, t, w)
  {
    w => gradientF(x, t, w)
  }

  /** `error_convert_f`: the root of the mean squared error, scaled back to
      target units.  The product with `Tstds` is indexed at 0, so only the
      first target column's standard deviation is used. */
  function ConvertError(root: real -> real, tStds: Vector): (convert: real -> real)
    requires |tStds| > 0
    ensures forall e :: convert(e) == root(e) * tStds[0]
    ensures NonNegativeRoot(root) && tStds[0] >= 0.0 ==> forall e :: convert(e) >= 0.0
  {
    e => root(e) * tStds[0]
  }

  /** Target columns other than the first have no influence on the
      reported error. */
  lemma ConversionIgnoresLaterColumns(root: real -> real, tStds: Vector, other: Vector, e: real)
    requires |tStds| > 0 && |other| > 0 && other[0] == tStds[0]
    ensures ConvertError(root, tStds)(e) == ConvertError(root, other)(e)
  {
  }

  /** What a run of the named optimizer from `w0` produces: gradient descent
      or a fresh Adam optimizer, `Epochs(nEpochs)` epochs of it, ending at
      `w`, with `trace` holding the converted error measured at the start of
      every epoch, and with the gradient buffer `g0` left holding `g`, the
      gradient at the weights the last epoch started from. */
  ghost predicate Fitted(w0: Vector, g0: Vector, loss: Vector -> real, grad: Vector -> Vector, nEpochs: int, lr: real,
                         root: real -> real, scale: real, optimizer: string, w: Vector, g: Vector, trace: seq<real>)
  {
    && ShapePreserving(grad, |w0|) && NonNegativeRoot(root)
    && |w| == |w0| && |trace| == Epochs(nEpochs)
    && (Epochs(nEpochs) == 0 ==> g == g0)
    && (optimizer == "sgd" ==>
          && w == SgdWeights(w0, grad, lr, Epochs(nEpochs))
          && (Epochs(nEpochs) > 0 ==> g == grad(SgdWeights(w0, grad, lr, Epochs(nEpochs) - 1)))
          && forall i :: 0 <= i < |trace| ==> trace[i] == root(loss(SgdWeights(w0, grad, lr, i))) * scale)
    && (optimizer == "adam" ==>
          && w == AdamEpochs(w0, FreshAdam(|w0|), grad, lr, root, Epochs(nEpochs)).weights
          && (Epochs(nEpochs) > 0 ==> g == grad(AdamEpochs(w0, FreshAdam(|w0|), grad, lr, root, Epochs(nEpochs) - 1).weights))
          && forall i :: 0 <= i < |trace| ==>
               trace[i] == root(loss(AdamEpochs(w0, FreshAdam(|w0|), grad, lr, root, i).weights)) * scale)
  }

  /** The dispatch on the method name: any name other than "sgd" and "adam"
      is refused before any epoch runs.  The result holds the weights, the
      gradient buffer and the error trace after the run. */
  method Fit(w0: Vector, g0: Vector, loss: Vector -> real, grad: Vector -> Vector, nEpochs: int, lr: real,
             root: real -> real, tStds: Vector, optimizer: string)
    returns (r: Result<(Vector, Vector, seq<real>)>)
    requires ShapePreserving(grad, |w0|) && NonNegativeRoot(root) && |tStds| > 0
    ensures r.Err? <==> optimizer != "sgd" && optimizer != "adam"
    ensures r.Err? ==> r.error == UnknownMethod
    ensures r.Ok? ==> Fitted(w0, g0, loss, grad, nEpochs, lr, root, tStds[0], optimizer, r.value.0, r.value.1, r.value.2)
  {
    var convert := ConvertError(root, tStds);
    if optimizer == "sgd" {
      var w, g, trace := Sgd(w0, g0, loss, grad, nEpochs, lr, Some(convert));
      r := Ok((w, g, trace));
    } else if optimizer == "adam" {
      var w, st, g, trace := Adam(FreshAdam(|w0|), w0, g0, loss, grad, nEpochs, lr, Some(convert), root);
      r := Ok((w, g, trace));
    } else {
      r := Err(UnknownMethod);
    }
  }

  /** `X = (X - Xmeans) / Xstds` and then `T = (T - Tmeans) / Tstds`; the
      first failure is the one reported. */
  function StandardizeData(s: Stats, x: Matrix, t: Matrix): (r: Result<(Matrix, Matrix)>)
    ensures r.Ok? <==> Standardize(x, s.xMeans, s.xStds).Ok? && Standardize(t, s.tMeans, s.tStds).Ok?
    ensures r.Err? && Standardize(x, s.xMeans, s.xStds).Err? ==> r.error == Standardize(x, s.xMeans, s.xStds).error
    ensures r.Err? && Standardize(x, s.xMeans, s.xStds).Ok? ==> r.error == Standardize(t, s.tMeans, s.tStds).error
    ensures r.Ok? ==> r.value.0 == Standardize(x, s.xMeans, s.xStds).value
    ensures r.Ok? ==> r.value.1 == Standardize(t, s.tMeans, s.tStds).value
  {
    var xs :- Standardize(x, s.xMeans, s.xStds);
    var ts :- Standardize(t, s.tMeans, s.tStds);
    Ok((xs, ts))
  }

  /** `train(X, T, n_epochs, learning_rate, method)`.  `measured` are the
      statistics of this call's `X` and `T`, used only if the network has none
      yet.  The statistics are fixed before anything can fail, so even a call
      with an unknown method leaves them set.  Each call starts a new
      optimizer; only the weights, the gradient buffer (which `gradient_f`
      overwrites every epoch) and the error trace change, and neither
      `trained` nor `total_epochs` is ever updated. */
  method Train(net: Net, X: Matrix, T: Matrix, nEpochs: int, lr: real, optimizer: string, measured: Stats,
               errorF: (Matrix, Matrix, Vector) -> real, gradientF: (Matrix, Matrix, Vector) -> Vector,
               root: real -> real)
    returns (next: Net, status: Result<seq<real>>)
    requires GradientFits(gradientF, |net.weights|) && NonNegativeRoot(root)
    requires |SetupStats(net.stats, measured).tStds| > 0
    ensures next.stats == Some(SetupStats(net.stats, measured))
    ensures next.(stats := net.stats, weights := net.weights, gradients := net.gradients, errorTrace := net.errorTrace) == net
    ensures WellFormed(net) ==> WellFormed(next)
    ensures status.Err? ==> next.weights == net.weights && next.gradients == net.gradients && next.errorTrace == net.errorTrace
    ensures status.Ok? ==> next.errorTrace == status.value
    ensures var data := StandardizeData(SetupStats(net.stats, measured), X, T);
            && (data.Err? ==> status == Err(data.error))
            && (data.Ok? ==> (status.Err? <==> optimizer != "sgd" && optimizer != "adam"))
            && (data.Ok? && status.Ok? ==>
                  Fitted(net.weights, net.gradients,
                         LossOn(errorF, data.value.0, data.value.1), GradientOn(gradientF, data.value.0, data.value.1),
                         nEpochs, lr, root, SetupStats(net.stats, measured).tStds[0], optimizer,
                         next.weights, next.gradients, status.value))
  {
    var s := SetupStats(net.stats, measured);
    next := net.(stats := Some(s));
    var data := StandardizeData(s, X, T);
    if data.Err? {
      return next, Err(data.error);
    }
    var (xs, ts) := data.value;
    var loss := LossOn(errorF, xs, ts);
    var grad := GradientOn(gradientF, xs, ts);
    assert ShapePreserving(grad, |net.weights|);
    var fit := Fit(net.weights, net.gradients, loss, grad, nEpochs, lr, root, s.tStds, optimizer);
    if fit.Err? {
      return next, Err(fit.error);
    }
    var (w, g, trace) := fit.value;
    next := next.(weights := w, gradients := g, errorTrace := trace);
    status := Ok(trace);
  }
}
