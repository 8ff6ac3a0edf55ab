/** Network topology: how the constructor's `(n_inputs, n_hiddens_per_layer,
    n_outputs)` arguments become the list of per-layer weight-matrix shapes.

    Every layer's matrix has one bias row followed by one row per input unit,
    and one column per unit of the layer.
 */
module Topology {
  import opened Outcomes

  /** The hidden-layer argument as the caller may pass it: a bare integer or a
      list of widths. */
  datatype HiddenSpec = Count(n: int) | Widths(widths: seq<nat>)

  /** Shape of one layer's matrix: `rows` = fan-in + 1 (bias row), `cols` = units. */
  datatype Shape = Shape(rows: nat, cols: nat)

  /** The constructor's normalisation.  `0`, `[]` and `[0]` all mean "no hidden
      layers"; any other list is kept as given, even one holding zeros, such as
      `[0, 0]`.  Any other integer cannot be iterated over when the shapes are
      built, which the model reports as `NotIterable`. */
  function NormalizeHidden(spec: HiddenSpec): (r: Result<seq<nat>>)
    ensures r.Err? <==> spec.Count? && spec.n != 0
    ensures r.Ok? && spec.Widths? && spec.widths != [0] ==> r.value == spec.widths
    ensures r.Ok? && r.value == [] <==> spec in {Count(0), Widths([]), Widths([0])}
  {
    match spec
    case Count(n) => if n == 0 then Ok([]) else Err(NotIterable)
    case Widths(ws) => if ws == [] || ws == [0] then Ok([]) else Ok(ws)
  }

  /** The shape list built by the constructor's loop: each hidden layer takes
      the previous layer's width (the inputs, for the first) plus the bias row,
      and a final output layer follows the last hidden layer. */
  function LayerShapes(nInputs: nat, hidden: seq<nat>, nOutputs: nat): (r: seq<Shape>)
    ensures |r| == |hidden| + 1
    ensures r[0].rows == nInputs + 1
    ensures forall i :: 0 < i < |r| ==> r[i].rows == r[i - 1].cols + 1
    ensures forall i :: 0 <= i < |hidden| ==> r[i].cols == hidden[i]
    ensures r[|r| - 1].cols == nOutputs
    decreases |hidden|
  {
    if |hidden| == 0 then [Shape(nInputs + 1, nOutputs)]
    else [Shape(nInputs + 1, hidden[0])] + LayerShapes(hidden[0], hidden[1..], nOutputs)
  }

  /** The shapes for a hidden-layer argument, or the error the constructor raises. */
  function ShapesFor(nInputs: nat, spec: HiddenSpec, nOutputs: nat): (r: Result<seq<Shape>>)
    ensures r.Err? <==> NormalizeHidden(spec).Err?
    ensures r.Ok? ==> |r.value| == |NormalizeHidden(spec).value| + 1
    // `0`, `[]` and `[0]` give a purely linear model: one (n_inputs + 1) x n_outputs matrix
    ensures spec in {Count(0), Widths([]), Widths([0])} ==> r == Ok([Shape(nInputs + 1, nOutputs)])
  {
    var hidden :- NormalizeHidden(spec);
    Ok(LayerShapes(nInputs, hidden, nOutputs))
  }

  /** Two shape lists that obey the chaining rule for the same inputs, widths
      and outputs are the same list: the contract of `LayerShapes` pins its
      result down completely. */
  lemma {:induction false} ShapesDetermined(nInputs: nat, hidden: seq<nat>, nOutputs: nat, s: seq<Shape>)
    requires |s| == |hidden| + 1
    requires s[0].rows == nInputs + 1
    requires forall i :: 0 < i < |s| ==> s[i].rows == s[i - 1].cols + 1
    requires forall i :: 0 <= i < |hidden| ==> s[i].cols == hidden[i]
    requires s[|s| - 1].cols == nOutputs
    ensures s == LayerShapes(nInputs, hidden, nOutputs)
  {
    var r := LayerShapes(nInputs, hidden, nOutputs);
    forall i | 0 <= i < |s|
      ensures s[i] == r[i]
    {
      ShapesAgreeAt(s, r, hidden, nOutputs, i);
    }
  }

  lemma {:induction false} ShapesAgreeAt(s: seq<Shape>, r: seq<Shape>, hidden: seq<nat>, nOutputs: nat, i: nat)
    requires |s| == |r| == |hidden| + 1
    requires s[0].rows == r[0].rows
    requires forall k :: 0 < k < |s| ==> s[k].rows == s[k - 1].cols + 1
    requires forall k :: 0 < k < |r| ==> r[k].rows == r[k - 1].cols + 1
    requires forall k :: 0 <= k < |hidden| ==> s[k].cols == hidden[k] && r[k].cols == hidden[k]
    requires s[|s| - 1].cols == nOutputs && r[|r| - 1].cols == nOutputs
    requires i < |s|
    ensures s[i] == r[i]
  {
    if i > 0 {
      ShapesAgreeAt(s, r, hidden, nOutputs, i - 1);
    }
  }

  /** Only the one-element list `[0]` is normalised away: `[0, 0]` keeps two
      zero-width hidden layers, so the output layer is left with nothing but
      its bias row. */
  lemma ZeroWidthLayersAreKept(nInputs: nat, nOutputs: nat)
    ensures ShapesFor(nInputs, Widths([0, 0]), nOutputs)
         == Ok([Shape(nInputs + 1, 0), Shape(1, 0), Shape(1, nOutputs)])
  {
    var r := LayerShapes(nInputs, [0, 0], nOutputs);
    assert |r| == 3 && r[0].cols == 0 && r[1].cols == 0;
    assert r == [Shape(nInputs + 1, 0), Shape(1, 0), Shape(1, nOutputs)];
  }
}
