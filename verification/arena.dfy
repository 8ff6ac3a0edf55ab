/** The network's parameter storage: one flat vector holding every layer's
    matrix end to end (the "arena"), and a table of views, one per layer,
    each naming the window of the arena that holds that layer's matrix in
    row-major order.  The same layout is used for the weight vector and for
    the gradient vector.

    The values stored in a fresh arena come from a random draw in the
    source; here they are whatever the `init` parameter supplies.
 */
module Arena {
  import opened Topology
  import opened Sequences

  /** Number of entries of a matrix of this shape. */
  function Size(s: Shape): nat {
    s.rows * s.cols
  }

  /** Number of entries of all the matrices together. */
  function TotalSize(shapes: seq<Shape>): nat
    decreases |shapes|
  {
    if |shapes| == 0 then 0 else TotalSize(shapes[..|shapes| - 1]) + Size(shapes[|shapes| - 1])
  }

  /** One layer's window: it starts at `start` and holds a `shape` matrix. */
  datatype View = View(start: nat, shape: Shape) {
    function End(): nat {
      start + Size(shape)
    }
  }

  /** The views describe the shapes in order, the first window starts at 0
      and every later window starts where the previous one ends. */
  predicate Consecutive(views: seq<View>, shapes: seq<Shape>) {
    && |views| == |shapes|
    && (forall i :: 0 <= i < |views| ==> views[i].shape == shapes[i])
    && (|views| > 0 ==> views[0].start == 0)
    && (forall i :: 0 < i < |views| ==> views[i].start == views[i - 1].End())
  }

  /** The loop of `make_weights_and_views` that records each layer's window. */
  method MakeViews(shapes: seq<Shape>) returns (views: seq<View>)
    ensures Consecutive(views, shapes)
    ensures forall i :: 0 <= i < |views| ==> views[i].start == TotalSize(shapes[..i])
    ensures |views| > 0 ==> views[|views| - 1].End() == TotalSize(shapes)
  {
    views := [];
    var start := 0;
    var i := 0;
    while i < |shapes|
      invariant 0 <= i <= |shapes|
      invariant |views| == i
      invariant start == TotalSize(shapes[..i])
      invariant forall k :: 0 <= k < i ==> views[k] == View(TotalSize(shapes[..k]), shapes[k])
    {
      assert shapes[..i + 1][..i] == shapes[..i];
      views := views + [View(start, shapes[i])];
      start := start + Size(shapes[i]);
      i := i + 1;
    }
    assert shapes[..|shapes|] == shapes;
    PrefixSumsAreConsecutive(views, shapes);
  }

  /** Windows starting at the prefix sums of the sizes are consecutive, and
      the last one ends at the total size. */
  lemma PrefixSumsAreConsecutive(views: seq<View>, shapes: seq<Shape>)
    requires |views| == |shapes|
    requires forall k :: 0 <= k < |views| ==> views[k] == View(TotalSize(shapes[..k]), shapes[k])
    ensures Consecutive(views, shapes)
    ensures |views| > 0 ==> views[|views| - 1].End() == TotalSize(shapes)
  {
    forall k | 0 < k < |views|
      ensures views[k].start == views[k - 1].End()
    {
      assert shapes[..k][..k - 1] == shapes[..k - 1];
    }
    if |views| > 0 {
      assert shapes[..|views|][..|views| - 1] == shapes[..|views| - 1];
      assert shapes[..|views|] == shapes;
    }
  }

  /** `make_weights_and_views`: an arena exactly as long as all the matrices
      together, with its table of views. */
  method MakeArenaAndViews(shapes: seq<Shape>, init: nat -> real) returns (arena: seq<real>, views: seq<View>)
    ensures |arena| == TotalSize(shapes)
    ensures forall j :: 0 <= j < |arena| ==> arena[j] == init(j)
    ensures Consecutive(views, shapes)
    ensures |views| > 0 ==> views[|views| - 1].End() == |arena|
  {
    arena := seq(TotalSize(shapes), j requires 0 <= j => init(j));
    views := MakeViews(shapes);
  }

  /** The part of the arena a view looks at, flattened. */
  function Window<T>(arena: seq<T>, v: View): (w: seq<T>)
    requires v.End() <= |arena|
    ensures |w| == Size(v.shape)
  {
    arena[v.start..v.End()]
  }

  /** Where cell `(r, c)` of a view's matrix lives in the arena (row-major;
      row 0 is the bias row). */
  function CellIndex(v: View, r: nat, c: nat): (j: nat)
    requires r < v.shape.rows && c < v.shape.cols
    ensures v.start <= j < v.End()
  {
    RowMajorBound(r, c, v.shape.rows, v.shape.cols);
    v.start + r * v.shape.cols + c
  }

  lemma RowMajorBound(r: nat, c: nat, rows: nat, cols: nat)
    requires r < rows && c < cols
    ensures r * cols + c < rows * cols
  {
    assert (r + 1) * cols <= rows * cols;
  }

  /** Different cells of one matrix live at different places of the arena. */
  lemma CellIndexInjective(v: View, r: nat, c: nat, r': nat, c': nat)
    requires r < v.shape.rows && c < v.shape.cols
    requires r' < v.shape.rows && c' < v.shape.cols
    requires CellIndex(v, r, c) == CellIndex(v, r', c')
    ensures r == r' && c == c'
  {
    RowMajorOrder(r, c, r', c', v.shape.cols);
    RowMajorOrder(r', c', r, c, v.shape.cols);
  }

  lemma RowMajorOrder(r: nat, c: nat, r': nat, c': nat, cols: nat)
    requires c < cols
    ensures r < r' ==> r * cols + c < r' * cols + c'
  {
    if r < r' {
      assert (r + 1) * cols <= r' * cols;
    }
  }

  /** Every window ends no later than the next one starts, so the windows of
      earlier layers lie wholly before those of later layers. */
  lemma {:induction false} ViewsOrdered(views: seq<View>, shapes: seq<Shape>, i: nat, k: nat)
    requires Consecutive(views, shapes)
    requires i < k < |views|
    ensures views[i].End() <= views[k].start
    decreases k - i
  {
    if i + 1 < k {
      ViewsOrdered(views, shapes, i + 1, k);
    }
  }

  /** Windows of different layers share no position of the arena. */
  lemma ViewsDisjoint(views: seq<View>, shapes: seq<Shape>, i: nat, k: nat, j: nat)
    requires Consecutive(views, shapes)
    requires i < |views| && k < |views| && i != k
    requires views[i].start <= j < views[i].End()
    ensures !(views[k].start <= j < views[k].End())
  {
    if i < k {
      ViewsOrdered(views, shapes, i, k);
    } else {
      ViewsOrdered(views, shapes, k, i);
    }
  }

  /** Every window lies inside the arena that ends where the last window ends. */
  lemma ViewsInArena(views: seq<View>, shapes: seq<Shape>)
    requires Consecutive(views, shapes)
    requires |views| > 0
    ensures forall i :: 0 <= i < |views| ==> views[i].End() <= views[|views| - 1].End()
  {
    forall i | 0 <= i < |views| - 1
      ensures views[i].End() <= views[|views| - 1].End()
    {
      ViewsOrdered(views, shapes, i, |views| - 1);
    }
  }

  /** Every position of the arena lies in some layer's window: there are no gaps. */
  lemma ViewsCover(views: seq<View>, shapes: seq<Shape>, j: nat)
    requires Consecutive(views, shapes)
    requires |views| > 0 && j < views[|views| - 1].End()
    ensures exists i :: 0 <= i < |views| && views[i].start <= j < views[i].End()
  {
    var i := FindView(views, shapes, j, 0);
  }

  lemma {:induction false} FindView(views: seq<View>, shapes: seq<Shape>, j: nat, k: nat) returns (i: nat)
    requires Consecutive(views, shapes)
    requires k < |views| && views[k].start <= j < views[|views| - 1].End()
    ensures i < |views| && views[i].start <= j < views[i].End()
    decreases |views| - k
  {
    if j < views[k].End() {
      i := k;
    } else {
      i := FindView(views, shapes, j, k + 1);
    }
  }

  /** The windows, laid end to end in layer order, give back the whole arena. */
  lemma {:induction false} WindowsFlattenToArena(arena: seq<real>, views: seq<View>, shapes: seq<Shape>)
    requires Consecutive(views, shapes)
    requires |views| > 0 && views[|views| - 1].End() == |arena|
    ensures forall i :: 0 <= i < |views| ==> views[i].End() <= |arena|
    ensures Concat(seq(|views|, i requires 0 <= i < |views| => Window(arena, views[i]))) == arena
  {
    var n := |views|;
    ViewsInArena(views, shapes);
    WindowsFlattenPrefix(arena, views, shapes, n);
    assert arena[..views[n - 1].End()] == arena;
  }

  lemma {:induction false} WindowsFlattenPrefix(arena: seq<real>, views: seq<View>, shapes: seq<Shape>, m: nat)
    requires Consecutive(views, shapes)
    requires |views| > 0 && views[|views| - 1].End() == |arena|
    requires 0 < m <= |views|
    ensures forall i :: 0 <= i < |views| ==> views[i].End() <= |arena|
    ensures Concat(seq(m, i requires 0 <= i < m => Window(arena, views[i]))) == arena[..views[m - 1].End()]
  {
    ViewsInArena(views, shapes);
    var parts := seq(m, i requires 0 <= i < m => Window(arena, views[i]));
    if m == 1 {
      assert parts == [Window(arena, views[0])];
      ConcatSingle(Window(arena, views[0]));
    } else {
      WindowsFlattenPrefix(arena, views, shapes, m - 1);
      var front := seq(m - 1, i requires 0 <= i < m - 1 => Window(arena, views[i]));
      assert parts[..m - 1] == front;
      assert views[m - 1].start == views[m - 2].End();
      assert arena[..views[m - 2].End()] + arena[views[m - 1].start..views[m - 1].End()]
          == arena[..views[m - 1].End()];
    }
  }

  /** Writing a sentinel into one layer's window changes no other layer's
      matrix, and the written cell reads back the sentinel. */
  lemma WriteStaysInView(arena: seq<real>, views: seq<View>, shapes: seq<Shape>, i: nat, j: nat, x: real, k: nat)
    requires Consecutive(views, shapes)
    requires |views| > 0 && views[|views| - 1].End() == |arena|
    requires i < |views| && views[i].start <= j < views[i].End()
    requires k < |views|
    ensures forall v :: v in views ==> v.End() <= |arena|
    ensures k != i ==> Window(arena[j := x], views[k]) == Window(arena, views[k])
    ensures Window(arena[j := x], views[i])[j - views[i].start] == x
  {
    ViewsInArena(views, shapes);
    if k != i {
      ViewsDisjoint(views, shapes, i, k, j);
    }
  }
}
