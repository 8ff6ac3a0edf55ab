/** The `Optimizers` class: plain gradient descent and Adam over the flat
    parameter vector, over exact reals.

    The loss and gradient functions the network hands to the optimizer read
    the current weights through the shared buffer; here they are functions of
    the weight vector.  The square root used by Adam's step and by the error
    conversion is a parameter `root`, of which the model only assumes that it
    never returns a negative value.  Weights are returned rather
    than updated in place.
 */
module Optimizers {
  import opened Arrays
  import opened Outcomes

  const Beta1: real := 0.9
  const Beta2: real := 0.999
  const Epsilon: real := 0.00000001

  function Pow(b: real, k: nat): real
    decreases k
  {
    if k == 0 then 1.0 else b * Pow(b, k - 1)
  }

  /** `range(n_epochs)` runs no epochs at all when `n_epochs` is negative. */
  function Epochs(nEpochs: int): (k: nat)
    ensures nEpochs >= 0 ==> k == nEpochs
    ensures nEpochs < 0 ==> k == 0
  {
    if nEpochs < 0 then 0 else nEpochs
  }

  /** The gradient of a weight vector is a vector of the same length. */
  ghost predicate ShapePreserving(grad: Vector -> Vector, n: nat) {
    forall w: Vector :: |w| == n ==> |grad(w)| == n
  }

  /** The square root stand-in never returns a negative value. */
  ghost predicate NonNegativeRoot(root: real -> real) {
    forall x :: root(x) >= 0.0
  }

  /** The value appended to the error trace: converted when a converter is given. */
  function Report(convert: Option<real -> real>, error: real): real {
    match convert
    case Some(f) => f(error)
    case None => error
  }

  // ---------------------------------------------------------------- SGD

  /** One update `w -= learning_rate * grad`. */
  function SgdStep(w: Vector, g: Vector, lr: real): (r: Vector)
    requires |g| == |w|
    ensures |r| == |w|
  {
    seq(|w|, i requires 0 <= i < |w| => w[i] - lr * g[i])
  }

  /** The weights after `k` epochs of gradient descent from `w`. */
  function SgdWeights(w: Vector, grad: Vector -> Vector, lr: real, k: nat): (r: Vector)
    requires ShapePreserving(grad, |w|)
    ensures |r| == |w|
    decreases k
  {
    if k == 0 then w
    else
      var prev := SgdWeights(w, grad, lr, k - 1);
      SgdStep(prev, grad(prev), lr)
  }

  /** `Optimizers.sgd`: exactly `n_epochs` epochs; each evaluates the error
      and the gradient at the current weights, then steps the weights; the
      trace holds the (converted) error measured before each step.
      `g0` is the gradient buffer on entry: every epoch's gradient is written
      over it, so on return it holds the gradient taken at the start of the
      last epoch, and is untouched when no epoch runs. */
  method Sgd(w0: Vector, g0: Vector, loss: Vector -> real, grad: Vector -> Vector, nEpochs: int, lr: real,
             convert: Option<real -> real>)
    returns (w: Vector, g: Vector, trace: seq<real>)
    requires ShapePreserving(grad, |w0|)
    ensures |trace| == Epochs(nEpochs)
    ensures w == SgdWeights(w0, grad, lr, Epochs(nEpochs))
    ensures forall i :: 0 <= i < |trace| ==> trace[i] == Report(convert, loss(SgdWeights(w0, grad, lr, i)))
    ensures Epochs(nEpochs) == 0 ==> g == g0
    ensures Epochs(nEpochs) > 0 ==> g == grad(SgdWeights(w0, grad, lr, Epochs(nEpochs) - 1))
  {
    var n := Epochs(nEpochs);
    w, g := w0, g0;
    trace := [];
    var epoch := 0;
    while epoch < n
      invariant 0 <= epoch <= n
      invariant w == SgdWeights(w0, grad, lr, epoch)
      invariant epoch == 0 ==> g == g0
      invariant epoch > 0 ==> g == grad(SgdWeights(w0, grad, lr, epoch - 1))
      invariant |trace| == epoch
      invariant forall i {:trigger trace[i]} :: 0 <= i < epoch ==> trace[i] == Report(convert, loss(SgdWeights(w0, grad, lr, i)))
    {
      var error := loss(w);
      g := grad(w);
      w := SgdStep(w, g, lr);
      trace := trace + [Report(convert, error)];
      epoch := epoch + 1;
    }
  }

  /** SGD keeps no state between calls, so training `a` epochs and then `b`
      more lands on the same weights as training `a + b` epochs at once. */
  lemma {:induction false} SgdComposes(w: Vector, grad: Vector -> Vector, lr: real, a: nat, b: nat)
    requires ShapePreserving(grad, |w|)
    ensures SgdWeights(SgdWeights(w, grad, lr, a), grad, lr, b) == SgdWeights(w, grad, lr, a + b)
    decreases b
  {
    if b > 0 {
      SgdComposes(w, grad, lr, a, b - 1);
    }
  }

  /** At a point where the gradient vanishes, SGD stays put. */
  lemma {:induction false} SgdFixedPoint(w: Vector, grad: Vector -> Vector, lr: real, k: nat)
    requires ShapePreserving(grad, |w|)
    requires forall i :: 0 <= i < |w| ==> grad(w)[i] == 0.0
    ensures SgdWeights(w, grad, lr, k) == w
    decreases k
  {
    if k > 0 {
      SgdFixedPoint(w, grad, lr, k - 1);
    }
  }

  /** The gradient `2 (w - wmin)` of the parabola `(w - wmin)^2` used to test the optimizers. */
  function ParabolaGradient(wmin: real): Vector -> Vector {
    w => seq(|w|, i requires 0 <= i < |w| => 2.0 * (w[i] - wmin))
  }

  lemma ParabolaShape(wmin: real, n: nat)
    ensures ShapePreserving(ParabolaGradient(wmin), n)
  {
  }

  /** On the parabola each SGD epoch shrinks the distance to the minimum by
      the factor `1 - 2 lr`. */
  lemma SgdOnParabola(w: Vector, wmin: real, lr: real, k: nat)
    ensures ShapePreserving(ParabolaGradient(wmin), |w|)
    ensures forall i :: 0 <= i < |w| ==>
              SgdWeights(w, ParabolaGradient(wmin), lr, k)[i] - wmin == Pow(1.0 - 2.0 * lr, k) * (w[i] - wmin)
  {
    ParabolaShape(wmin, |w|);
    forall i | 0 <= i < |w|
      ensures SgdWeights(w, ParabolaGradient(wmin), lr, k)[i] - wmin == Pow(1.0 - 2.0 * lr, k) * (w[i] - wmin)
    {
      SgdOnParabolaAt(w, wmin, lr, k, i);
    }
  }

  /** The same for one weight, by induction on the number of epochs. */
  lemma {:induction false} SgdOnParabolaAt(w: Vector, wmin: real, lr: real, k: nat, i: nat)
    requires ShapePreserving(ParabolaGradient(wmin), |w|) && i < |w|
    ensures SgdWeights(w, ParabolaGradient(wmin), lr, k)[i] - wmin == Pow(1.0 - 2.0 * lr, k) * (w[i] - wmin)
    decreases k
  {
    if k > 0 {
      SgdOnParabolaAt(w, wmin, lr, k - 1, i);
      ParabolaEpoch(w, wmin, lr, k, i);
    }
  }

  /** Epoch `k` on the parabola turns the factor `(1 - 2 lr)^(k-1)` into `(1 - 2 lr)^k`. */
  lemma ParabolaEpoch(w: Vector, wmin: real, lr: real, k: nat, i: nat)
    requires ShapePreserving(ParabolaGradient(wmin), |w|) && k > 0 && i < |w|
    requires SgdWeights(w, ParabolaGradient(wmin), lr, k - 1)[i] - wmin == Pow(1.0 - 2.0 * lr, k - 1) * (w[i] - wmin)
    ensures SgdWeights(w, ParabolaGradient(wmin), lr, k)[i] - wmin == Pow(1.0 - 2.0 * lr, k) * (w[i] - wmin)
  {
    var prev := SgdWeights(w, ParabolaGradient(wmin), lr, k - 1);
    var next := SgdWeights(w, ParabolaGradient(wmin), lr, k);
    assert next == SgdStep(prev, ParabolaGradient(wmin)(prev), lr);
    ParabolaStep(prev, wmin, lr, i);
    ContractionStep(prev[i] - wmin, next[i] - wmin, w[i] - wmin, 1.0 - 2.0 * lr,
                    Pow(1.0 - 2.0 * lr, k - 1), Pow(1.0 - 2.0 * lr, k));
  }

  /** One step on the parabola: `w - lr * 2 (w - wmin) - wmin = (1 - 2 lr) (w - wmin)`. */
  lemma ParabolaStep(w: Vector, wmin: real, lr: real, i: nat)
    requires i < |w|
    ensures |ParabolaGradient(wmin)(w)| == |w|
    ensures SgdStep(w, ParabolaGradient(wmin)(w), lr)[i] - wmin == (1.0 - 2.0 * lr) * (w[i] - wmin)
  {
    var d := w[i] - wmin;
    assert SgdStep(w, ParabolaGradient(wmin)(w), lr)[i] == w[i] - lr * (2.0 * d);
  }

  /** Scaling by `b` once more turns the factor `b^(k-1)` into `b^k`. */
  lemma ContractionStep(d: real, d': real, d0: real, b: real, p: real, q: real)
    requires d == p * d0 && d' == b * d && q == b * p
    ensures d' == q * d0
  {
  }

  lemma {:induction false} PowDecreasing(b: real, k: nat, k': nat)
    requires 0.0 <= b <= 1.0 && k <= k'
    ensures 0.0 <= Pow(b, k') <= Pow(b, k)
    decreases k' - k
  {
    PowNonNegative(b, k);
    if k < k' {
      PowDecreasing(b, k + 1, k');
      assert Pow(b, k + 1) == b * Pow(b, k);
    }
  }

  lemma {:induction false} PowNonNegative(b: real, k: nat)
    requires 0.0 <= b
    ensures 0.0 <= Pow(b, k)
    decreases k
  {
    if k > 0 {
      PowNonNegative(b, k - 1);
    }
  }

  lemma {:induction false} PowAdd(b: real, a: nat, c: nat)
    ensures Pow(b, a + c) == Pow(b, a) * Pow(b, c)
    decreases c
  {
    if c > 0 {
      PowAdd(b, a, c - 1);
    }
  }

  /** The optimizer test: from `w = 0`, 100 SGD epochs with learning rate 0.1
      on the parabola with minimum 5 end within 0.1 of the minimum. */
  lemma SgdParabolaTestConverges()
    ensures ShapePreserving(ParabolaGradient(5.0), 1)
    ensures -0.1 < SgdWeights([0.0], ParabolaGradient(5.0), 0.1, 100)[0] - 5.0 < 0.1
  {
    ParabolaShape(5.0, 1);
    SgdOnParabolaAt([0.0], 5.0, 0.1, 100, 0);
    assert Pow(0.8, 5) == 0.32768 by {
      assert Pow(0.8, 1) == 0.8;
      assert Pow(0.8, 2) == 0.64;
      assert Pow(0.8, 3) == 0.512;
      assert Pow(0.8, 4) == 0.4096;
    }
    PowAdd(0.8, 5, 5);
    assert Pow(0.8, 10) == 0.1073741824;
    PowAdd(0.8, 10, 10);
    assert Pow(0.8, 20) < 0.012;
    PowDecreasing(0.8, 20, 100);
  }

  // ---------------------------------------------------------------- Adam

  /** Adam's accumulators: first and second moments and the powers of the
      decay rates used for bias correction. */
  datatype AdamState = AdamState(mt: Vector, vt: Vector, beta1t: real, beta2t: real)

  /** A freshly constructed optimizer: zero moments and both trackers at 1. */
  function FreshAdam(n: nat): (st: AdamState)
    ensures |st.mt| == |st.vt| == n && ValidAdam(st, n)
    ensures forall i :: 0 <= i < n ==> st.mt[i] == 0.0 && st.vt[i] == 0.0
    ensures st.beta1t == 1.0 && st.beta2t == 1.0
  {
    AdamState(Repeat(0.0, n), Repeat(0.0, n), 1.0, 1.0)
  }

  /** The state invariant Adam keeps: moments as long as the weights and
      trackers in (0, 1]. */
  predicate ValidAdam(st: AdamState, n: nat) {
    && |st.mt| == n && |st.vt| == n
    && 0.0 < st.beta1t <= 1.0
    && 0.0 < st.beta2t <= 1.0
  }

  /** The exponential moving average update `m := beta m + (1 - beta) g`. */
  function MomentUpdate(m: real, g: real, beta: real): real {
    beta * m + (1.0 - beta) * g
  }

  lemma SecondMomentNonNegative(v: real, g: real)
    requires v >= 0.0
    ensures MomentUpdate(v, g * g, Beta2) >= 0.0
  {
    assert g * g >= 0.0;
  }

  /** `beta m + (1 - beta) g` elementwise. */
  function Ema(m: Vector, g: Vector, beta: real): (r: Vector)
    requires |m| == |g|
    ensures |r| == |g|
    ensures forall i :: 0 <= i < |g| ==> r[i] == MomentUpdate(m[i], g[i], beta)
  {
    seq(|g|, i requires 0 <= i < |g| => MomentUpdate(m[i], g[i], beta))
  }

  /** `np.square`: the elementwise square. */
  function Squares(g: Vector): (r: Vector)
    ensures |r| == |g|
    ensures forall i :: 0 <= i < |g| ==> r[i] == g[i] * g[i]
  {
    seq(|g|, i requires 0 <= i < |g| => g[i] * g[i])
  }

  /** Moment and tracker updates of one Adam epoch for gradient `g`. */
  function AdamMoments(st: AdamState, g: Vector): (r: AdamState)
    requires ValidAdam(st, |g|)
    ensures ValidAdam(r, |g|)
    ensures r.beta1t <= Beta1 && r.beta2t <= Beta2
  {
    AdamState(Ema(st.mt, g, Beta1), Ema(st.vt, Squares(g), Beta2), st.beta1t * Beta1, st.beta2t * Beta2)
  }

  /** The bias-corrected update of one weight, `w -= lr * mhat / (sqrt(vhat) + eps)`,
      taken with the already updated moments and trackers.  The divisor is
      positive, so a weight whose first moment is 0 stays put and, for a
      non-negative learning rate, every other weight moves against the sign
      of its first moment. */
  function AdamUpdate(w: real, m: real, v: real, beta1t: real, beta2t: real, lr: real, root: real -> real): (r: real)
    requires beta1t < 1.0 && beta2t < 1.0
    requires NonNegativeRoot(root)
    ensures m == 0.0 ==> r == w
    ensures lr >= 0.0 && m >= 0.0 ==> r <= w
    ensures lr >= 0.0 && m <= 0.0 ==> r >= w
  {
    var mhat := m / (1.0 - beta1t);
    var vhat := v / (1.0 - beta2t);
    QuotientSign(m, 1.0 - beta1t);
    StepSign(lr, mhat, root(vhat) + Epsilon);
    w - lr * mhat / (root(vhat) + Epsilon)
  }

  lemma QuotientSign(m: real, d: real)
    requires d > 0.0
    ensures m == 0.0 ==> m / d == 0.0
    ensures m >= 0.0 ==> m / d >= 0.0
    ensures m <= 0.0 ==> m / d <= 0.0
  {
  }

  lemma StepSign(lr: real, mhat: real, d: real)
    requires d > 0.0
    ensures mhat == 0.0 ==> lr * mhat / d == 0.0
    ensures lr >= 0.0 && mhat >= 0.0 ==> lr * mhat / d >= 0.0
    ensures lr >= 0.0 && mhat <= 0.0 ==> lr * mhat / d <= 0.0
  {
    if lr >= 0.0 && mhat <= 0.0 {
      assert lr * mhat <= 0.0;
    }
  }

  /** The weight step of one epoch, over the whole vector: entries with a
      zero first moment keep their weight, and the others move against the
      sign of their first moment. */
  function AdamStep(w: Vector, st: AdamState, lr: real, root: real -> real): (r: Vector)
    requires ValidAdam(st, |w|) && st.beta1t < 1.0 && st.beta2t < 1.0
    requires NonNegativeRoot(root)
    ensures |r| == |w|
    ensures forall i :: 0 <= i < |w| && st.mt[i] == 0.0 ==> r[i] == w[i]
    ensures lr >= 0.0 ==> forall i :: 0 <= i < |w| && st.mt[i] >= 0.0 ==> r[i] <= w[i]
    ensures lr >= 0.0 ==> forall i :: 0 <= i < |w| && st.mt[i] <= 0.0 ==> r[i] >= w[i]
  {
    seq(|w|, i requires 0 <= i < |w| => AdamUpdate(w[i], st.mt[i], st.vt[i], st.beta1t, st.beta2t, lr, root))
  }

  datatype AdamRun = AdamRun(weights: Vector, state: AdamState)

  /** One Adam epoch from `run`: moments and trackers first, then the weights. */
  function AdamEpoch(run: AdamRun, grad: Vector -> Vector, lr: real, root: real -> real): (r: AdamRun)
    requires |grad(run.weights)| == |run.weights| && ValidAdam(run.state, |run.weights|)
    requires NonNegativeRoot(root)
    ensures |r.weights| == |run.weights| && ValidAdam(r.state, |run.weights|)
  {
    var st := AdamMoments(run.state, grad(run.weights));
    AdamRun(AdamStep(run.weights, st, lr, root), st)
  }

  /** What a run of Adam needs: a gradient of the weights' length, a state
      that fits the weights and a square root that is never negative. */
  ghost predicate AdamReady(w: Vector, st: AdamState, grad: Vector -> Vector, root: real -> real) {
    ShapePreserving(grad, |w|) && ValidAdam(st, |w|) && NonNegativeRoot(root)
  }

  /** Weights and optimizer state after `k` Adam epochs. */
  function AdamEpochs(w: Vector, st: AdamState, grad: Vector -> Vector, lr: real, root: real -> real, k: nat)
    : (r: AdamRun)
    requires AdamReady(w, st, grad, root)
    ensures |r.weights| == |w| && ValidAdam(r.state, |w|)
    decreases k
  {
    if k == 0 then AdamRun(w, st)
    else AdamEpoch(AdamEpochs(w, st, grad, lr, root, k - 1), grad, lr, root)
  }

  /** `Optimizers.adam` on an optimizer in state `st0`: exactly `n_epochs`
      epochs, each measuring error and gradient at the current weights,
      updating the moments, multiplying the trackers by the decay rates and
      then stepping the weights.  The gradient buffer `g0` is overwritten by
      every epoch's gradient, as in `Sgd`. */
  method Adam(st0: AdamState, w0: Vector, g0: Vector, loss: Vector -> real, grad: Vector -> Vector, nEpochs: int,
              lr: real, convert: Option<real -> real>, root: real -> real)
    returns (w: Vector, st: AdamState, g: Vector, trace: seq<real>)
    requires AdamReady(w0, st0, grad, root)
    ensures |trace| == Epochs(nEpochs)
    ensures Epochs(nEpochs) == 0 ==> g == g0
    ensures Epochs(nEpochs) > 0 ==> g == grad(AdamEpochs(w0, st0, grad, lr, root, Epochs(nEpochs) - 1).weights)
    ensures AdamRun(w, st) == AdamEpochs(w0, st0, grad, lr, root, Epochs(nEpochs))
    ensures st.beta1t == st0.beta1t * Pow(0.9, Epochs(nEpochs))
    ensures st.beta2t == st0.beta2t * Pow(0.999, Epochs(nEpochs))
    ensures forall i :: 0 <= i < |trace| ==>
              trace[i] == Report(convert, loss(AdamEpochs(w0, st0, grad, lr, root, i).weights))
  {
    TrackersArePowers(w0, st0, grad, lr, root, Epochs(nEpochs));
    w, st, g, trace := AdamLoop(st0, w0, g0, loss, grad, Epochs(nEpochs), lr, convert, root);
  }

  /** The epoch loop of `Optimizers.adam`, run for `n` epochs. */
  method AdamLoop(st0: AdamState, w0: Vector, g0: Vector, loss: Vector -> real, grad: Vector -> Vector, n: nat,
                  lr: real, convert: Option<real -> real>, root: real -> real)
    returns (w: Vector, st: AdamState, g: Vector, trace: seq<real>)
    requires AdamReady(w0, st0, grad, root)
    ensures |trace| == n
    ensures n == 0 ==> g == g0
    ensures n > 0 ==> g == grad(AdamEpochs(w0, st0, grad, lr, root, n - 1).weights)
    ensures AdamRun(w, st) == AdamEpochs(w0, st0, grad, lr, root, n)
    ensures forall i :: 0 <= i < |trace| ==>
              trace[i] == Report(convert, loss(AdamEpochs(w0, st0, grad, lr, root, i).weights))
  {
    w, st, g := w0, st0, g0;
    trace := [];
    var epoch := 0;
    while epoch < n
      invariant 0 <= epoch <= n
      invariant AdamRun(w, st) == AdamEpochs(w0, st0, grad, lr, root, epoch)
      invariant epoch == 0 ==> g == g0
      invariant epoch > 0 ==> g == grad(AdamEpochs(w0, st0, grad, lr, root, epoch - 1).weights)
      invariant |trace| == epoch
      invariant forall i {:trigger trace[i]} :: 0 <= i < epoch ==>
                  trace[i] == Report(convert, loss(AdamEpochs(w0, st0, grad, lr, root, i).weights))
    {
      var error := loss(w);
      g := grad(w);
      var next := AdamEpoch(AdamRun(w, st), grad, lr, root);
      w, st := next.weights, next.state;
      trace := trace + [Report(convert, error)];
      epoch := epoch + 1;
    }
  }

  /** Epoch `k` first updates the moments and multiplies the trackers, and
      only then steps the weights, with the trackers already multiplied: the
      bias correction of epoch `k` divides by `1 - beta1t * 0.9^k`, which is
      never 0, rather than by the tracker the epoch started with. */
  lemma AdamStepUsesUpdatedTrackers(w: Vector, st: AdamState, grad: Vector -> Vector, lr: real,
                                    root: real -> real, k: nat)
    requires AdamReady(w, st, grad, root) && k > 0
    ensures AdamEpochs(w, st, grad, lr, root, k).state
            == AdamMoments(AdamEpochs(w, st, grad, lr, root, k - 1).state,
                           grad(AdamEpochs(w, st, grad, lr, root, k - 1).weights))
    ensures AdamEpochs(w, st, grad, lr, root, k).state.beta1t == st.beta1t * Pow(0.9, k) < 1.0
    ensures AdamEpochs(w, st, grad, lr, root, k).state.beta2t == st.beta2t * Pow(0.999, k) < 1.0
    ensures AdamEpochs(w, st, grad, lr, root, k).weights
            == AdamStep(AdamEpochs(w, st, grad, lr, root, k - 1).weights, AdamEpochs(w, st, grad, lr, root, k).state, lr, root)
  {
    TrackersArePowers(w, st, grad, lr, root, k);
    PowDecreasing(0.9, 1, k);
    PowDecreasing(0.999, 1, k);
  }

  /** A fresh optimizer's first epoch divides the moments by `1 - 0.9` and
      `1 - 0.999`, never by `1 - 1`. */
  lemma FreshAdamFirstCorrection(w: Vector, grad: Vector -> Vector, lr: real, root: real -> real)
    requires ShapePreserving(grad, |w|) && NonNegativeRoot(root)
    ensures 1.0 - AdamEpochs(w, FreshAdam(|w|), grad, lr, root, 1).state.beta1t == 0.1
    ensures 1.0 - AdamEpochs(w, FreshAdam(|w|), grad, lr, root, 1).state.beta2t == 0.001
  {
  }

  /** Each epoch multiplies the trackers by the decay rates once: after `k`
      epochs they have grown by the factors `0.9^k` and `0.999^k`. */
  lemma TrackersArePowers(w: Vector, st: AdamState, grad: Vector -> Vector, lr: real,
                          root: real -> real, k: nat)
    requires AdamReady(w, st, grad, root)
    ensures AdamEpochs(w, st, grad, lr, root, k).state.beta1t == st.beta1t * Pow(0.9, k)
    ensures AdamEpochs(w, st, grad, lr, root, k).state.beta2t == st.beta2t * Pow(0.999, k)
  {
    FirstTrackerIsPower(w, st, grad, lr, root, k);
    SecondTrackerIsPower(w, st, grad, lr, root, k);
  }

  lemma {:induction false} FirstTrackerIsPower(w: Vector, st: AdamState, grad: Vector -> Vector, lr: real,
                                               root: real -> real, k: nat)
    requires AdamReady(w, st, grad, root)
    ensures AdamEpochs(w, st, grad, lr, root, k).state.beta1t == st.beta1t * Pow(0.9, k)
    decreases k
  {
    if k > 0 {
      FirstTrackerIsPower(w, st, grad, lr, root, k - 1);
      TrackersStep(w, st, grad, lr, root, k);
    }
  }

  lemma {:induction false} SecondTrackerIsPower(w: Vector, st: AdamState, grad: Vector -> Vector, lr: real,
                                                root: real -> real, k: nat)
    requires AdamReady(w, st, grad, root)
    ensures AdamEpochs(w, st, grad, lr, root, k).state.beta2t == st.beta2t * Pow(0.999, k)
    decreases k
  {
    if k > 0 {
      SecondTrackerIsPower(w, st, grad, lr, root, k - 1);
      TrackersStep(w, st, grad, lr, root, k);
    }
  }

  /** Epoch `k` multiplies the trackers left by epoch `k - 1` by the decay rates. */
  lemma TrackersStep(w: Vector, st: AdamState, grad: Vector -> Vector, lr: real, root: real -> real, k: nat)
    requires AdamReady(w, st, grad, root) && k > 0
    ensures AdamEpochs(w, st, grad, lr, root, k).state.beta1t == AdamEpochs(w, st, grad, lr, root, k - 1).state.beta1t * 0.9
    ensures AdamEpochs(w, st, grad, lr, root, k).state.beta2t == AdamEpochs(w, st, grad, lr, root, k - 1).state.beta2t * 0.999
  {
  }

  /** Moments and trackers live on the optimizer, so two calls of `a` and
      `b` epochs on the same optimizer do what one call of `a + b` does. */
  lemma {:induction false} AdamComposes(w: Vector, st: AdamState, grad: Vector -> Vector, lr: real,
                                        root: real -> real, a: nat, b: nat, mid: AdamRun)
    requires AdamReady(w, st, grad, root) && mid == AdamEpochs(w, st, grad, lr, root, a)
    requires AdamReady(mid.weights, mid.state, grad, root)
    ensures AdamEpochs(mid.weights, mid.state, grad, lr, root, b) == AdamEpochs(w, st, grad, lr, root, a + b)
    decreases b
  {
    if b == 0 {
      assert a + b == a;
    } else {
      AdamComposes(w, st, grad, lr, root, a, b - 1, mid);
      assert a + b - 1 == a + (b - 1);
    }
  }

  /** A moment after the gradient history `gs`, oldest first, starting from `m0`. */
  function MomentAfter(m0: real, gs: seq<real>, beta: real): real
    decreases |gs|
  {
    if |gs| == 0 then m0 else MomentAfter(MomentUpdate(m0, gs[0], beta), gs[1..], beta)
  }

  /** The discounted sum `sum_j (1 - beta) beta^(n-1-j) gs[j]`. */
  function DiscountedSum(gs: seq<real>, beta: real): real
    decreases |gs|
  {
    if |gs| == 0 then 0.0 else (1.0 - beta) * Pow(beta, |gs| - 1) * gs[0] + DiscountedSum(gs[1..], beta)
  }

  /** Extending the history by one gradient is one more moment update. */
  lemma {:induction false} MomentAfterSnoc(m0: real, gs: seq<real>, g: real, beta: real)
    ensures MomentAfter(m0, gs + [g], beta) == MomentUpdate(MomentAfter(m0, gs, beta), g, beta)
    decreases |gs|
  {
    if |gs| == 0 {
      assert (gs + [g])[1..] == [];
    } else {
      assert (gs + [g])[1..] == gs[1..] + [g];
      MomentAfterSnoc(MomentUpdate(m0, gs[0], beta), gs[1..], g, beta);
    }
  }

  /** The moment recurrence is an exponentially weighted sum of the gradient
      history plus the decayed starting value. */
  lemma {:induction false} MomentIsDiscountedSum(m0: real, gs: seq<real>, beta: real)
    ensures MomentAfter(m0, gs, beta) == Pow(beta, |gs|) * m0 + DiscountedSum(gs, beta)
    decreases |gs|
  {
    if |gs| > 0 {
      MomentIsDiscountedSum(MomentUpdate(m0, gs[0], beta), gs[1..], beta);
      DecayFirstGradient(beta, Pow(beta, |gs[1..]|), Pow(beta, |gs| - 1), Pow(beta, |gs|), m0, gs[0]);
    }
  }

  /** Decaying the first update by the `p = beta^(n-1)` still to come. */
  lemma DecayFirstGradient(beta: real, p: real, q: real, p': real, m0: real, g: real)
    requires p == q && p' == beta * q
    ensures p * MomentUpdate(m0, g, beta) == p' * m0 + (1.0 - beta) * q * g
  {
  }

  /** Under a gradient that never changes, a moment started at 0 holds
      `(1 - beta^k) x` after `k` updates. */
  lemma {:induction false} MomentOfConstant(x: real, beta: real, k: nat)
    ensures MomentAfter(0.0, Repeat(x, k), beta) == (1.0 - Pow(beta, k)) * x
  {
    if k > 0 {
      assert MomentAfter(0.0, Repeat(x, k), beta) == MomentUpdate(MomentAfter(0.0, Repeat(x, k - 1), beta), x, beta) by {
        assert Repeat(x, k - 1) + [x] == Repeat(x, k);
        MomentAfterSnoc(0.0, Repeat(x, k - 1), x, beta);
      }
      MomentOfConstant(x, beta, k - 1);
      BiasFactorStep(MomentAfter(0.0, Repeat(x, k - 1), beta), Pow(beta, k - 1), Pow(beta, k), x, beta);
    }
  }

  /** One moment update of `(1 - p) x` towards `x` leaves `(1 - p') x` with `p' = beta p`. */
  lemma BiasFactorStep(m: real, p: real, p': real, x: real, beta: real)
    requires m == (1.0 - p) * x && p' == beta * p
    ensures MomentUpdate(m, x, beta) == (1.0 - p') * x
  {
  }

  /** Component `i` of the gradients the first `k` epochs measured. */
  ghost function GradientHistory(w: Vector, st: AdamState, grad: Vector -> Vector, lr: real, root: real -> real,
                                 k: nat, i: nat): (h: seq<real>)
    requires AdamReady(w, st, grad, root) && i < |w|
    ensures |h| == k
    decreases k
  {
    if k == 0 then []
    else GradientHistory(w, st, grad, lr, root, k - 1, i) + [grad(AdamEpochs(w, st, grad, lr, root, k - 1).weights)[i]]
  }

  /** Epoch `k` moves the moments left by epoch `k - 1` towards the gradient it measures. */
  lemma FirstMomentStep(w: Vector, st: AdamState, grad: Vector -> Vector, lr: real, root: real -> real, k: nat, i: nat)
    requires AdamReady(w, st, grad, root) && k > 0 && i < |w|
    ensures AdamEpochs(w, st, grad, lr, root, k).state.mt[i]
         == MomentUpdate(AdamEpochs(w, st, grad, lr, root, k - 1).state.mt[i],
                         grad(AdamEpochs(w, st, grad, lr, root, k - 1).weights)[i], 0.9)
  {
  }

  lemma SecondMomentStep(w: Vector, st: AdamState, grad: Vector -> Vector, lr: real, root: real -> real, k: nat, i: nat)
    requires AdamReady(w, st, grad, root) && k > 0 && i < |w|
    ensures AdamEpochs(w, st, grad, lr, root, k).state.vt[i]
         == MomentUpdate(AdamEpochs(w, st, grad, lr, root, k - 1).state.vt[i],
                         Squares(grad(AdamEpochs(w, st, grad, lr, root, k - 1).weights))[i], 0.999)
  {
  }

  /** Second moments never become negative: each is a weighted average of a
      non-negative value and a square. */
  lemma {:induction false} SecondMomentsStayNonNegative(w: Vector, st: AdamState, grad: Vector -> Vector, lr: real,
                                                        root: real -> real, k: nat, i: nat)
    requires AdamReady(w, st, grad, root) && i < |w| && st.vt[i] >= 0.0
    ensures AdamEpochs(w, st, grad, lr, root, k).state.vt[i] >= 0.0
    decreases k
  {
    if k > 0 {
      SecondMomentsStayNonNegative(w, st, grad, lr, root, k - 1, i);
      var prev := AdamEpochs(w, st, grad, lr, root, k - 1);
      assert AdamEpochs(w, st, grad, lr, root, k) == AdamEpoch(prev, grad, lr, root);
      MomentsKeepNonNegative(prev.state, grad(prev.weights), i);
    }
  }

  /** One moment update keeps a non-negative second moment non-negative. */
  lemma MomentsKeepNonNegative(st: AdamState, g: Vector, i: nat)
    requires ValidAdam(st, |g|) && i < |g| && st.vt[i] >= 0.0
    ensures AdamMoments(st, g).vt[i] >= 0.0
  {
    SecondMomentNonNegative(st.vt[i], g[i]);
  }

  /** The moments Adam keeps are the moment recurrence run over the gradient
      history (the second moment over the squared gradients), from the
      optimizer's starting moments. */
  lemma {:induction false} FirstMomentFollowsHistory(w: Vector, st: AdamState, grad: Vector -> Vector, lr: real,
                                                     root: real -> real, k: nat, i: nat)
    requires AdamReady(w, st, grad, root) && i < |w|
    ensures AdamEpochs(w, st, grad, lr, root, k).state.mt[i]
         == MomentAfter(st.mt[i], GradientHistory(w, st, grad, lr, root, k, i), 0.9)
    decreases k
  {
    if k > 0 {
      FirstMomentFollowsHistory(w, st, grad, lr, root, k - 1, i);
      FirstMomentStep(w, st, grad, lr, root, k, i);
      MomentAfterSnoc(st.mt[i], GradientHistory(w, st, grad, lr, root, k - 1, i),
                      grad(AdamEpochs(w, st, grad, lr, root, k - 1).weights)[i], 0.9);
    }
  }

  lemma {:induction false} SecondMomentFollowsHistory(w: Vector, st: AdamState, grad: Vector -> Vector, lr: real,
                                                      root: real -> real, k: nat, i: nat)
    requires AdamReady(w, st, grad, root) && i < |w|
    ensures AdamEpochs(w, st, grad, lr, root, k).state.vt[i]
         == MomentAfter(st.vt[i], Squares(GradientHistory(w, st, grad, lr, root, k, i)), 0.999)
    decreases k
  {
    if k > 0 {
      SecondMomentFollowsHistory(w, st, grad, lr, root, k - 1, i);
      SecondMomentStep(w, st, grad, lr, root, k, i);
      SquaresSnoc(GradientHistory(w, st, grad, lr, root, k - 1, i), grad(AdamEpochs(w, st, grad, lr, root, k - 1).weights), i);
      MomentAfterSnoc(st.vt[i], Squares(GradientHistory(w, st, grad, lr, root, k - 1, i)),
                      Squares(grad(AdamEpochs(w, st, grad, lr, root, k - 1).weights))[i], 0.999);
    }
  }

  /** Squaring the history extended by component `i` of `g` extends the squared history by that component of `g`'s square. */
  lemma SquaresSnoc(h: Vector, g: Vector, i: nat)
    requires i < |g|
    ensures Squares(h + [g[i]]) == Squares(h) + [Squares(g)[i]]
  {
    var l, r := Squares(h + [g[i]]), Squares(h) + [Squares(g)[i]];
    assert |l| == |r|;
    forall j | 0 <= j < |l|
      ensures l[j] == r[j]
    {
      if j < |h| {
        assert (h + [g[i]])[j] == h[j];
      }
    }
  }

  /** A gradient function that ignores the weights. */
  function ConstantGradient(c: Vector): Vector -> Vector {
    _ => c
  }

  /** Under a constant gradient every epoch measures the same component. */
  lemma {:induction false} ConstantHistory(w: Vector, c: Vector, lr: real, root: real -> real, k: nat, i: nat)
    requires |c| == |w| && NonNegativeRoot(root) && i < |w|
    ensures ShapePreserving(ConstantGradient(c), |w|)
    ensures GradientHistory(w, FreshAdam(|w|), ConstantGradient(c), lr, root, k, i) == Repeat(c[i], k)
  {
    assert ShapePreserving(ConstantGradient(c), |w|);
    if k > 0 {
      ConstantHistory(w, c, lr, root, k - 1, i);
      HistoryStep(w, FreshAdam(|w|), ConstantGradient(c), lr, root, k, i);
      assert Repeat(c[i], k - 1) + [c[i]] == Repeat(c[i], k);
    }
  }

  lemma HistoryStep(w: Vector, st: AdamState, grad: Vector -> Vector, lr: real, root: real -> real, k: nat, i: nat)
    requires AdamReady(w, st, grad, root) && k > 0 && i < |w|
    ensures GradientHistory(w, st, grad, lr, root, k, i)
         == GradientHistory(w, st, grad, lr, root, k - 1, i) + [grad(AdamEpochs(w, st, grad, lr, root, k - 1).weights)[i]]
  {
  }

  lemma SquaresOfConstant(x: real, sq: real, k: nat)
    requires sq == x * x
    ensures Squares(Repeat(x, k)) == Repeat(sq, k)
  {
    var l, r := Squares(Repeat(x, k)), Repeat(sq, k);
    assert |l| == |r|;
    forall j | 0 <= j < k
      ensures l[j] == r[j]
    {
    }
  }

  /** `k` copies of `x`. */
  function Repeat(x: real, k: nat): (r: seq<real>)
    ensures |r| == k && forall j :: 0 <= j < k ==> r[j] == x
  {
    seq(k, _ => x)
  }

  /** A fresh optimizer under a constant gradient: after `k` epochs the
      moments are `(1 - 0.9^k) g` and `(1 - 0.999^k) g^2`. */
  lemma ConstantGradientMoments(w: Vector, c: Vector, lr: real, root: real -> real, k: nat, i: nat)
    requires |c| == |w| && NonNegativeRoot(root) && i < |w|
    ensures ShapePreserving(ConstantGradient(c), |w|)
    ensures AdamEpochs(w, FreshAdam(|w|), ConstantGradient(c), lr, root, k).state.mt[i] == (1.0 - Pow(0.9, k)) * c[i]
    ensures AdamEpochs(w, FreshAdam(|w|), ConstantGradient(c), lr, root, k).state.vt[i] == (1.0 - Pow(0.999, k)) * (c[i] * c[i])
  {
    ConstantGradientFirstMoment(w, c, lr, root, k, i);
    ConstantGradientSecondMoment(w, c, lr, root, k, i);
  }

  lemma ConstantGradientFirstMoment(w: Vector, c: Vector, lr: real, root: real -> real, k: nat, i: nat)
    requires |c| == |w| && NonNegativeRoot(root) && i < |w|
    ensures ShapePreserving(ConstantGradient(c), |w|)
    ensures AdamEpochs(w, FreshAdam(|w|), ConstantGradient(c), lr, root, k).state.mt[i] == (1.0 - Pow(0.9, k)) * c[i]
  {
    FirstMomentOfConstantHistory(w, c, lr, root, k, i);
    MomentOfConstant(c[i], 0.9, k);
  }

  /** Under a constant gradient the first moment is the recurrence over `k`
      copies of the gradient, started from 0. */
  lemma FirstMomentOfConstantHistory(w: Vector, c: Vector, lr: real, root: real -> real, k: nat, i: nat)
    requires |c| == |w| && NonNegativeRoot(root) && i < |w|
    ensures ShapePreserving(ConstantGradient(c), |w|)
    ensures AdamEpochs(w, FreshAdam(|w|), ConstantGradient(c), lr, root, k).state.mt[i] == MomentAfter(0.0, Repeat(c[i], k), 0.9)
  {
    ConstantHistory(w, c, lr, root, k, i);
    FirstMomentFollowsHistory(w, FreshAdam(|w|), ConstantGradient(c), lr, root, k, i);
  }

  lemma ConstantGradientSecondMoment(w: Vector, c: Vector, lr: real, root: real -> real, k: nat, i: nat)
    requires |c| == |w| && NonNegativeRoot(root) && i < |w|
    ensures ShapePreserving(ConstantGradient(c), |w|)
    ensures AdamEpochs(w, FreshAdam(|w|), ConstantGradient(c), lr, root, k).state.vt[i] == (1.0 - Pow(0.999, k)) * (c[i] * c[i])
  {
    SecondMomentOfConstantHistory(w, c, lr, root, k, i);
    MomentOfConstant(c[i] * c[i], 0.999, k);
  }

  /** Under a constant gradient the second moment is the recurrence over `k`
      copies of the gradient's square, started from 0. */
  lemma SecondMomentOfConstantHistory(w: Vector, c: Vector, lr: real, root: real -> real, k: nat, i: nat)
    requires |c| == |w| && NonNegativeRoot(root) && i < |w|
    ensures ShapePreserving(ConstantGradient(c), |w|)
    ensures AdamEpochs(w, FreshAdam(|w|), ConstantGradient(c), lr, root, k).state.vt[i]
            == MomentAfter(0.0, Repeat(c[i] * c[i], k), 0.999)
  {
    SquaredConstantHistory(w, c, lr, root, k, i);
    SecondMomentFollowsHistory(w, FreshAdam(|w|), ConstantGradient(c), lr, root, k, i);
  }

  lemma SquaredConstantHistory(w: Vector, c: Vector, lr: real, root: real -> real, k: nat, i: nat)
    requires |c| == |w| && NonNegativeRoot(root) && i < |w|
    ensures ShapePreserving(ConstantGradient(c), |w|)
    ensures Squares(GradientHistory(w, FreshAdam(|w|), ConstantGradient(c), lr, root, k, i)) == Repeat(c[i] * c[i], k)
  {
    var h := GradientHistory(w, FreshAdam(|w|), ConstantGradient(c), lr, root, k, i);
    assert h == Repeat(c[i], k) by {
      ConstantHistory(w, c, lr, root, k, i);
    }
    SquaresOfConstant(c[i], c[i] * c[i], k);
  }

  /** Under a constant gradient the bias-corrected moments of a fresh
      optimizer are exactly the gradient and its square, from the first
      epoch on: the correction divides out the `1 - beta^k` factor the zero
      start leaves behind. */
  lemma ConstantGradientBiasCorrection(w: Vector, c: Vector, lr: real, root: real -> real, k: nat, i: nat)
    requires |c| == |w| && NonNegativeRoot(root) && k >= 1 && i < |w|
    ensures ShapePreserving(ConstantGradient(c), |w|)
    ensures var st := AdamEpochs(w, FreshAdam(|w|), ConstantGradient(c), lr, root, k).state;
            st.beta1t < 1.0 && st.beta2t < 1.0 &&
            st.mt[i] / (1.0 - st.beta1t) == c[i] && st.vt[i] / (1.0 - st.beta2t) == c[i] * c[i]
  {
    FirstMomentBiasCorrection(w, c, lr, root, k, i);
    SecondMomentBiasCorrection(w, c, lr, root, k, i);
  }

  lemma FirstMomentBiasCorrection(w: Vector, c: Vector, lr: real, root: real -> real, k: nat, i: nat)
    requires |c| == |w| && NonNegativeRoot(root) && k >= 1 && i < |w|
    ensures ShapePreserving(ConstantGradient(c), |w|)
    ensures var st := AdamEpochs(w, FreshAdam(|w|), ConstantGradient(c), lr, root, k).state;
            st.beta1t < 1.0 && st.mt[i] / (1.0 - st.beta1t) == c[i]
  {
    ConstantGradientFirstMoment(w, c, lr, root, k, i);
    FirstTrackerIsPower(w, FreshAdam(|w|), ConstantGradient(c), lr, root, k);
    PowDecreasing(0.9, 1, k);
    CancelFactor(AdamEpochs(w, FreshAdam(|w|), ConstantGradient(c), lr, root, k).state.mt[i],
                 AdamEpochs(w, FreshAdam(|w|), ConstantGradient(c), lr, root, k).state.beta1t, Pow(0.9, k), c[i]);
  }

  lemma SecondMomentBiasCorrection(w: Vector, c: Vector, lr: real, root: real -> real, k: nat, i: nat)
    requires |c| == |w| && NonNegativeRoot(root) && k >= 1 && i < |w|
    ensures ShapePreserving(ConstantGradient(c), |w|)
    ensures var st := AdamEpochs(w, FreshAdam(|w|), ConstantGradient(c), lr, root, k).state;
            st.beta2t < 1.0 && st.vt[i] / (1.0 - st.beta2t) == c[i] * c[i]
  {
    ConstantGradientSecondMoment(w, c, lr, root, k, i);
    SecondTrackerIsPower(w, FreshAdam(|w|), ConstantGradient(c), lr, root, k);
    PowDecreasing(0.999, 1, k);
    CancelFactor(AdamEpochs(w, FreshAdam(|w|), ConstantGradient(c), lr, root, k).state.vt[i],
                 AdamEpochs(w, FreshAdam(|w|), ConstantGradient(c), lr, root, k).state.beta2t, Pow(0.999, k), c[i] * c[i]);
  }

  lemma CancelFactor(m: real, t: real, p: real, x: real)
    requires t == 1.0 * p && p < 1.0 && m == (1.0 - p) * x
    ensures t < 1.0 && m / (1.0 - t) == x
  {
    var q := 1.0 - p;
    assert q != 0.0 && m == q * x;
    assert m / q == x;
  }
}
