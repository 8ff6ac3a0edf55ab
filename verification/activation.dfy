/** The ReLU activation and the gradient mask used when back-propagating
    through a ReLU layer, over exact reals.  The network applies both
    elementwise to matrices of weighted sums (one row per sample).
 */
module Activation {
  import opened Arrays

  /** `relu`: negative sums become 0, the others are kept. */
  function Relu(s: real): (y: real)
    ensures y >= 0.0 && y >= s
    ensures y == s || y == 0.0
  {
    if s < 0.0 then 0.0 else s
  }

  /** `grad_relu`: 1 for a positive sum, 0 for a negative one or an exact 0. */
  function GradRelu(s: real): (d: real)
    ensures d == 1.0 <==> s > 0.0
    ensures d == 0.0 <==> s <= 0.0
  {
    if s > 0.0 then 1.0 else 0.0
  }

  /** Applying ReLU twice is the same as applying it once. */
  lemma ReluIdempotent(s: real)
    ensures Relu(Relu(s)) == Relu(s)
  {
  }

  /** The back-propagation step takes the mask from the cached ReLU output
      rather than from the weighted sum.  Both give the same mask, including
      the sum exactly 0, which yields 0 either way. */
  lemma MaskFromOutputMatchesMaskFromSum(s: real)
    ensures GradRelu(Relu(s)) == GradRelu(s)
  {
  }

  /** Elementwise application to a matrix. */
  function ReluMatrix(m: Matrix): (y: Matrix)
    ensures |y| == |m|
    ensures forall i :: 0 <= i < |m| ==> |y[i]| == |m[i]|
    ensures forall i, j :: 0 <= i < |m| && 0 <= j < |m[i]| ==>
              y[i][j] >= 0.0 && y[i][j] >= m[i][j] && (y[i][j] == m[i][j] || y[i][j] == 0.0)
  {
    seq(|m|, i requires 0 <= i < |m| => seq(|m[i]|, j requires 0 <= j < |m[i]| => Relu(m[i][j])))
  }

  function GradReluMatrix(m: Matrix): (d: Matrix)
    ensures |d| == |m|
    ensures forall i :: 0 <= i < |m| ==> |d[i]| == |m[i]|
    ensures forall i, j :: 0 <= i < |m| && 0 <= j < |m[i]| ==>
              (d[i][j] == 1.0 <==> m[i][j] > 0.0) && (d[i][j] == 0.0 <==> m[i][j] <= 0.0)
  {
    seq(|m|, i requires 0 <= i < |m| => seq(|m[i]|, j requires 0 <= j < |m[i]| => GradRelu(m[i][j])))
  }

  /** Matrix form of idempotence. */
  lemma ReluMatrixIdempotent(m: Matrix)
    ensures ReluMatrix(ReluMatrix(m)) == ReluMatrix(m)
  {
    var y := ReluMatrix(m);
    var yy := ReluMatrix(y);
    forall i | 0 <= i < |m|
      ensures yy[i] == y[i]
    {
      forall j | 0 <= j < |m[i]|
        ensures yy[i][j] == y[i][j]
      {
        ReluIdempotent(m[i][j]);
      }
    }
  }

  /** Matrix form of the cached-output mask: masking the layer's ReLU output
      gives the mask of its weighted sums. */
  lemma MaskMatrixFromOutput(m: Matrix)
    ensures GradReluMatrix(ReluMatrix(m)) == GradReluMatrix(m)
  {
    var a := GradReluMatrix(ReluMatrix(m));
    var b := GradReluMatrix(m);
    forall i | 0 <= i < |m|
      ensures a[i] == b[i]
    {
      forall j | 0 <= j < |m[i]|
        ensures a[i][j] == b[i][j]
      {
        MaskFromOutputMatchesMaskFromSum(m[i][j]);
      }
    }
  }
}
