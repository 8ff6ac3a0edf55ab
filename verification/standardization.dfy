/** The standardisation the network applies to its data: each input column
    is shifted by its mean and divided by its standard deviation, and the
    targets likewise; predictions are mapped back by the inverse.

    The means and standard deviations themselves are floating-point
    statistics of the data; the model takes them as given values and keeps
    only what `train` does with them: they are taken from the first call's
    data and never again, and a zero input standard deviation becomes 1.
 */
module Standardization {
  import opened Arrays
  import opened Outcomes

  /** `Xmeans`, `Xstds`, `Tmeans`, `Tstds`. */
  datatype Stats = Stats(xMeans: Vector, xStds: Vector, tMeans: Vector, tStds: Vector)

  /** `Xstds[Xstds == 0] = 1`: a constant input column is only shifted, not
      scaled. */
  function FixZeroStds(stds: Vector): (r: Vector)
    ensures |r| == |stds|
    ensures forall j :: 0 <= j < |r| ==> r[j] != 0.0
    ensures forall j :: 0 <= j < |r| ==> r[j] == stds[j] || (stds[j] == 0.0 && r[j] == 1.0)
  {
    seq(|stds|, j requires 0 <= j < |stds| => if stds[j] == 0.0 then 1.0 else stds[j])
  }

  /** Fixing twice is fixing once. */
  lemma FixZeroStdsIdempotent(stds: Vector)
    ensures FixZeroStds(FixZeroStds(stds)) == FixZeroStds(stds)
  {
  }

  /** The fix changes a vector exactly when it holds a zero. */
  lemma FixZeroStdsChangesOnlyZeros(stds: Vector)
    ensures FixZeroStds(stds) == stds <==> forall j :: 0 <= j < |stds| ==> stds[j] != 0.0
  {
    if FixZeroStds(stds) == stds {
      forall j | 0 <= j < |stds|
        ensures stds[j] != 0.0
      {
        assert FixZeroStds(stds)[j] != 0.0;
      }
    }
  }

  /** Every input standard deviation can be divided by. */
  predicate XReady(s: Stats) {
    forall j :: 0 <= j < |s.xStds| ==> s.xStds[j] != 0.0
  }

  /** The guard at the top of `train`: statistics already present are kept
      as they are; otherwise those `measured` on this call's data are taken,
      with the zero input standard deviations replaced by 1.  The target
      standard deviations get no such fix. */
  function SetupStats(current: Option<Stats>, measured: Stats): (s: Stats)
    ensures current.Some? ==> s == current.value
    ensures current.None? ==> XReady(s)
    ensures current.None? ==> s.xMeans == measured.xMeans && s.tMeans == measured.tMeans && s.tStds == measured.tStds
    ensures current.None? ==> |s.xStds| == |measured.xStds|
    ensures current.None? ==> s.xStds == FixZeroStds(measured.xStds)
  {
    match current
    case Some(stats) => stats
    case None => Stats(measured.xMeans, FixZeroStds(measured.xStds), measured.tMeans, measured.tStds)
  }

  /** The statistics are frozen by the first call: a later call, whatever
      data it measures, leaves them as they are. */
  lemma StatsFrozenAfterFirstCall(current: Option<Stats>, first: Stats, later: Stats)
    ensures SetupStats(Some(SetupStats(current, first)), later) == SetupStats(current, first)
  {
  }

  /** Statistics that are ready stay ready: when the guard is entered with
      ready statistics or none, the input columns can always be divided by
      afterwards. */
  lemma SetupKeepsXReady(current: Option<Stats>, measured: Stats)
    requires current.Some? ==> XReady(current.value)
    ensures XReady(SetupStats(current, measured))
  {
  }

  /** `(A - means) / stds`, row by row.  The operands must agree on the
      number of columns (numpy refuses to broadcast otherwise).  Dividing a
      non-empty matrix by a zero standard deviation produces infinities or
      NaNs in numpy; the model reports `ZeroStd`.  A standardised entry maps
      back to the original one under `* stds + means`. */
  function Standardize(a: Matrix, means: Vector, stds: Vector): (r: Result<Matrix>)
    ensures r.Err? && r.error == ShapeMismatch <==> !(|stds| == |means| && HasColumns(a, |means|))
    ensures r.Err? && r.error == ZeroStd <==>
              |stds| == |means| && HasColumns(a, |means|) && |a| > 0 && exists j :: 0 <= j < |stds| && stds[j] == 0.0
    ensures r.Err? ==> r.error in {ShapeMismatch, ZeroStd}
    ensures r.Ok? ==> |r.value| == |a| && HasColumns(r.value, |means|)
    ensures r.Ok? ==> forall i, j :: 0 <= i < |a| && 0 <= j < |means| ==> r.value[i][j] * stds[j] + means[j] == a[i][j]
  {
    if |stds| != |means| || !HasColumns(a, |means|) then Err(ShapeMismatch)
    else if |a| > 0 && exists j :: 0 <= j < |stds| && stds[j] == 0.0 then Err(ZeroStd)
    else
      Ok(seq(|a|, i requires 0 <= i < |a| =>
               seq(|means|, j requires 0 <= j < |means| => (a[i][j] - means[j]) / stds[j])))
  }

  /** `Y * Tstds + Tmeans`, as `use` does to the network's output. */
  function Unstandardize(y: Matrix, means: Vector, stds: Vector): (r: Result<Matrix>)
    ensures r.Err? <==> !(|stds| == |means| && HasColumns(y, |means|))
    ensures r.Err? ==> r.error == ShapeMismatch
    ensures r.Ok? ==> |r.value| == |y| && HasColumns(r.value, |means|)
    ensures r.Ok? ==> forall i, j :: 0 <= i < |y| && 0 <= j < |means| ==>
              r.value[i][j] - means[j] == y[i][j] * stds[j]
  {
    if |stds| != |means| || !HasColumns(y, |means|) then Err(ShapeMismatch)
    else
      Ok(seq(|y|, i requires 0 <= i < |y| =>
               seq(|means|, j requires 0 <= j < |means| => y[i][j] * stds[j] + means[j])))
  }

  /** Standardising and then mapping back gives the original data. */
  lemma UnstandardizeStandardize(a: Matrix, means: Vector, stds: Vector)
    requires Standardize(a, means, stds).Ok?
    ensures Unstandardize(Standardize(a, means, stds).value, means, stds) == Ok(a)
  {
    var z := Standardize(a, means, stds).value;
    var back := Unstandardize(z, means, stds);
    assert back.Ok?;
    forall i | 0 <= i < |a|
      ensures back.value[i] == a[i]
    {
      assert |back.value[i]| == |a[i]| == |means|;
      forall j | 0 <= j < |means|
        ensures back.value[i][j] == a[i][j]
      {
        assert back.value[i][j] - means[j] == z[i][j] * stds[j];
        assert z[i][j] * stds[j] + means[j] == a[i][j];
      }
    }
    assert back.value == a;
  }

  /** Mapping back and then standardising gives the original output, when
      every standard deviation is non-zero. */
  lemma StandardizeUnstandardize(y: Matrix, means: Vector, stds: Vector)
    requires Unstandardize(y, means, stds).Ok?
    requires forall j :: 0 <= j < |stds| ==> stds[j] != 0.0
    ensures Standardize(Unstandardize(y, means, stds).value, means, stds) == Ok(y)
  {
    var a := Unstandardize(y, means, stds).value;
    var z := Standardize(a, means, stds);
    assert z.Ok?;
    forall i | 0 <= i < |y|
      ensures z.value[i] == y[i]
    {
      assert |z.value[i]| == |y[i]| == |means|;
      forall j | 0 <= j < |means|
        ensures z.value[i][j] == y[i][j]
      {
        assert z.value[i][j] * stds[j] + means[j] == a[i][j];
        assert a[i][j] - means[j] == y[i][j] * stds[j];
        CancelNonZero(z.value[i][j], y[i][j], stds[j]);
      }
    }
    assert z.value == y;
  }

  lemma CancelNonZero(u: real, v: real, d: real)
    requires d != 0.0 && u * d == v * d
    ensures u == v
  {
    assert (u - v) * d == 0.0;
  }

  /** After the guard, standardising inputs of the right width never meets a
      zero standard deviation, whatever the data. */
  lemma InputsAlwaysStandardize(current: Option<Stats>, measured: Stats, x: Matrix)
    requires current.Some? ==> XReady(current.value)
    requires |SetupStats(current, measured).xStds| == |SetupStats(current, measured).xMeans|
    requires HasColumns(x, |SetupStats(current, measured).xMeans|)
    ensures Standardize(x, SetupStats(current, measured).xMeans, SetupStats(current, measured).xStds).Ok?
  {
  }

  /** The targets have no such guard: a constant target column, whose
      standard deviation is 0, makes standardising the targets fail on the
      first call, while the same constant input column does not. */
  lemma ConstantColumnOnlyFailsForTargets(c: real)
    ensures var s := SetupStats(None, Stats([c], [0.0], [c], [0.0]));
            && Standardize([[c]], s.xMeans, s.xStds) == Ok([[0.0]])
            && Standardize([[c]], s.tMeans, s.tStds) == Err(ZeroStd)
  {
    var s := SetupStats(None, Stats([c], [0.0], [c], [0.0]));
    assert s.xStds == [1.0] && s.tStds == [0.0];
    assert HasColumns([[c]], 1);
    assert !(exists j :: 0 <= j < |s.xStds| && s.xStds[j] == 0.0);
    var z := Standardize([[c]], s.xMeans, s.xStds);
    assert z.Ok? && |z.value| == 1 && |z.value[0]| == 1;
    assert z.value[0][0] * 1.0 + c == c;
    assert z.value[0] == [0.0];
    assert z.value == [[0.0]];
    assert s.tStds[0] == 0.0;
  }
}
