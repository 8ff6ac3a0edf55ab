/** `partition`: reorder the samples (by a random permutation, or not at
    all), cut them into `n_folds` consecutive folds of `n_samples // n_folds`
    rows each, the last fold taking whatever is left over, and hand out the
    first fold for validation, the second for testing and the rest, stacked,
    for training.

    Input rows and target rows are of any types `R` and `S`; only their order
    and pairing matter here.  The random permutation is a parameter.
 */
module Folds {
  import opened Outcomes
  import opened Sequences

  /** Python's `//`: the quotient rounded down, also for a negative divisor. */
  function FloorDiv(a: int, b: int): (q: int)
    requires b != 0
    ensures b > 0 ==> b * q <= a < b * q + b
    ensures b < 0 ==> b * q >= a > b * q + b
  {
    if b > 0 then a / b else (-a) / (-b)
  }

  /** `np.arange(n)`. */
  function Range(n: nat): (r: seq<nat>)
    ensures |r| == n && forall i :: 0 <= i < n ==> r[i] == i
  {
    seq(n, i requires 0 <= i => i)
  }

  /** `order` lists each of `0, ..., n - 1` exactly once, as
      `np.random.shuffle` leaves `np.arange(n)`. */
  predicate IsPermutation(order: seq<nat>, n: nat) {
    multiset(order) == multiset(Range(n))
  }

  /** `A[order, :]`: the rows picked out by `order`, in that order. */
  function Reorder<A>(rows: seq<A>, order: seq<nat>): (r: seq<A>)
    requires forall i :: 0 <= i < |order| ==> order[i] < |rows|
    ensures |r| == |order| && forall i :: 0 <= i < |order| ==> r[i] == rows[order[i]]
  {
    seq(|order|, i requires 0 <= i < |order| => rows[order[i]])
  }

  /** The six arrays `partition` returns. */
  datatype Split<R, S> = Split(xTrain: seq<R>, tTrain: seq<S>,
                               xValidate: seq<R>, tValidate: seq<S>,
                               xTest: seq<R>, tTest: seq<S>)

  /** Where fold `i` starts when every fold before it holds `perFold` rows. */
  function FoldStart(perFold: nat, i: nat): nat {
    perFold * i
  }

  lemma FoldStartStep(perFold: nat, i: nat)
    ensures FoldStart(perFold, i + 1) == FoldStart(perFold, i) + perFold
  {
  }

  lemma FoldStartMonotone(perFold: nat, i: nat, j: nat)
    requires i <= j
    ensures FoldStart(perFold, i) <= FoldStart(perFold, j)
  {
    assert perFold * j == perFold * i + perFold * (j - i);
  }

  /** The fold-building loop.  With at least one fold, the first `k - 1` folds
      hold `|rows| // k` rows each and the last holds the remaining
      `|rows| - (|rows| // k) * (k - 1)`; with a negative fold count the loop
      does not run and the single fold is every row.  Either way the folds,
      laid end to end, are the rows again. */
  method MakeFolds<A>(rows: seq<A>, k: int) returns (folds: seq<seq<A>>, perFold: int)
    requires k != 0
    ensures perFold == FloorDiv(|rows|, k)
    ensures k < 0 ==> folds == [rows]
    ensures k > 0 ==> 0 <= perFold && FoldStart(perFold, k - 1) <= |rows| && |folds| == k
    ensures k > 0 ==> forall i :: 0 <= i < k - 1 ==>
              FoldStart(perFold, i) + perFold <= |rows| && folds[i] == rows[FoldStart(perFold, i)..FoldStart(perFold, i) + perFold]
    ensures k > 0 ==> folds[k - 1] == rows[FoldStart(perFold, k - 1)..]
    ensures Concat(folds) == rows
    ensures k >= 3 ==> 2 * perFold <= |rows| && folds[0] == rows[..perFold] && folds[1] == rows[perFold..2 * perFold]
                       && Concat(folds[2..]) == rows[2 * perFold..]
  {
    perFold := FloorDiv(|rows|, k);
    if k < 0 {
      folds := [rows[0..]];
      ConcatSingle(rows);
      return;
    }
    LastFoldStart(|rows|, k, perFold);
    folds := CutFolds(rows, k, perFold);
    if k >= 3 {
      FoldStartMonotone(perFold, 2, k - 1);
      StackAfterTwo(folds, rows, perFold);
    }
  }

  /** The loop itself: `k - 1` folds of `p` rows, then the rest. */
  method CutFolds<A>(rows: seq<A>, k: nat, p: nat) returns (folds: seq<seq<A>>)
    requires k > 0 && FoldStart(p, k - 1) <= |rows|
    ensures |folds| == k
    ensures forall i :: 0 <= i < k - 1 ==>
              FoldStart(p, i) + p <= |rows| && folds[i] == rows[FoldStart(p, i)..FoldStart(p, i) + p]
    ensures folds[k - 1] == rows[FoldStart(p, k - 1)..]
    ensures Concat(folds) == rows
  {
    folds := [];
    var start := 0;
    var foldi := 0;
    while foldi < k - 1
      invariant 0 <= foldi <= k - 1
      invariant |folds| == foldi
      invariant start == FoldStart(p, foldi) <= |rows|
      invariant forall i :: 0 <= i < foldi ==>
                  FoldStart(p, i) + p <= |rows| && folds[i] == rows[FoldStart(p, i)..FoldStart(p, i) + p]
      invariant Concat(folds) == rows[..start]
    {
      FoldStartStep(p, foldi);
      FoldStartMonotone(p, foldi + 1, k - 1);
      assert (folds + [rows[start..start + p]])[..foldi] == folds;
      assert rows[..start] + rows[start..start + p] == rows[..start + p];
      folds := folds + [rows[start..start + p]];
      start := start + p;
      foldi := foldi + 1;
    }
    assert (folds + [rows[start..]])[..|folds|] == folds;
    assert rows[..start] + rows[start..] == rows;
    folds := folds + [rows[start..]];
  }

  /** With `k >= 1` folds of `n // k` rows, the first `k - 1` folds fit. */
  lemma LastFoldStart(n: nat, k: int, p: int)
    requires k > 0 && k * p <= n < k * p + k
    ensures 0 <= p && FoldStart(p, k - 1) <= n
  {
    assert 0 < k * p + k == k * (p + 1);
    assert p * (k - 1) == k * p - p;
  }

  /** `partition`.  `randomShuffle` chooses whether the rows are reordered by
      `shuffled` (the permutation the random generator produced) or kept in
      their original order.

      Failures, in the order the source meets them: fewer target rows than
      input rows (the reordering indexes past the end of `T`); zero folds
      (division by zero); fewer than two folds (there is no second fold to
      test on); exactly two folds (nothing is left to stack for training). */
  method Partition<R, S>(X: seq<R>, T: seq<S>, nFolds: int, randomShuffle: bool, shuffled: seq<nat>)
    returns (r: Result<Split<R, S>>, order: seq<nat>)
    requires randomShuffle ==> IsPermutation(shuffled, |X|)
    ensures order == if randomShuffle then shuffled else Range(|X|)
    ensures r.Err? && r.error == RowIndexOutOfRange <==> |T| < |X|
    ensures r.Err? && r.error == DivisionByZero <==> |T| >= |X| && nFolds == 0
    ensures r.Err? && r.error == FoldIndexOutOfRange <==> |T| >= |X| && (nFolds < 0 || nFolds == 1)
    ensures r.Err? && r.error == NothingToStack <==> |T| >= |X| && nFolds == 2
    ensures r.Ok? <==> |T| >= |X| && nFolds >= 3
    ensures r.Ok? ==>
              var p := |X| / nFolds;
              && 2 * p <= |X| && |order| == |X|
              && (forall i :: 0 <= i < |X| ==> order[i] < |X|)
              && r.value.xValidate == Reorder(X, order[..p]) && r.value.tValidate == Reorder(T, order[..p])
              && r.value.xTest == Reorder(X, order[p..2 * p]) && r.value.tTest == Reorder(T, order[p..2 * p])
              && r.value.xTrain == Reorder(X, order[2 * p..]) && r.value.tTrain == Reorder(T, order[2 * p..])
    ensures r.Ok? ==> var p := |X| / nFolds;
                      |r.value.xValidate| == |r.value.xTest| == p && |r.value.xTrain| == |X| - 2 * p
    // no sample is lost or repeated; target rows past the inputs' row count are dropped
    ensures r.Ok? ==> multiset(r.value.xValidate + r.value.xTest + r.value.xTrain) == multiset(X)
    ensures r.Ok? ==> multiset(r.value.tValidate + r.value.tTest + r.value.tTrain) == multiset(T[..|X|])
    // without shuffling the parts are the samples in their original order
    ensures r.Ok? && !randomShuffle ==> r.value.xValidate + r.value.xTest + r.value.xTrain == X
    ensures r.Ok? && !randomShuffle ==> r.value.tValidate + r.value.tTest + r.value.tTrain == T[..|X|]
  {
    order := if randomShuffle then shuffled else Range(|X|);
    if !randomShuffle {
      assert IsPermutation(order, |X|);
    }
    if |T| < |X| {
      return Err(RowIndexOutOfRange), order;
    }
    PermutationInRange(order, |X|);
    var xs := Reorder(X, order);
    var ts := Reorder(T, order);
    if nFolds == 0 {
      return Err(DivisionByZero), order;
    }
    var xFolds, p := MakeFolds(xs, nFolds);
    var tFolds, _ := MakeFolds(ts, nFolds);
    if |xFolds| < 2 {
      return Err(FoldIndexOutOfRange), order;
    }
    var xTrainFolds := xFolds[2..];
    var tTrainFolds := tFolds[2..];
    if |xTrainFolds| == 0 {
      return Err(NothingToStack), order;
    }
    ReorderSlices(X, order, p);
    ReorderSlices(T, order, p);
    PartsKeepRows(X, order, |X|, p);
    PartsKeepRows(T, order, |X|, p);
    assert X[..|X|] == X;
    if !randomShuffle {
      PartsInOrder(X, |X|, p);
      PartsInOrder(T, |X|, p);
    }
    r := Ok(Split(Concat(xTrainFolds), Concat(tTrainFolds), xFolds[0], tFolds[0], xFolds[1], tFolds[1]));
  }

  /** Stacking every fold after the first two gives the rows after the first
      `2 p`. */
  lemma StackAfterTwo<A>(folds: seq<seq<A>>, rows: seq<A>, p: nat)
    requires |folds| >= 3 && Concat(folds) == rows
    requires FoldStart(p, 2) <= |rows|
    requires forall i :: 0 <= i < 2 ==> folds[i] == rows[FoldStart(p, i)..FoldStart(p, i) + p]
    ensures 2 * p <= |rows| && folds[0] == rows[..p] && folds[1] == rows[p..2 * p]
    ensures Concat(folds[2..]) == rows[2 * p..]
  {
    assert FoldStart(p, 0) == 0 && FoldStart(p, 1) == p && FoldStart(p, 2) == 2 * p;
    var two, rest := folds[..2], folds[2..];
    assert folds == two + rest;
    ConcatAppend(two, rest);
    assert two[..1] == [folds[0]];
    ConcatSingle(folds[0]);
    var front := Concat(two);
    assert front == folds[0] + folds[1];
    assert front == rows[..2 * p] by {
      assert rows[..p] + rows[p..2 * p] == rows[..2 * p];
    }
    assert Concat(rest) == (front + Concat(rest))[|front|..];
  }

  /** Reordering and then slicing is reordering by the slice of the order. */
  lemma ReorderSlices<A>(rows: seq<A>, order: seq<nat>, p: int)
    requires forall i :: 0 <= i < |order| ==> order[i] < |rows|
    requires 0 <= p && 2 * p <= |order|
    ensures Reorder(rows, order)[..p] == Reorder(rows, order[..p])
    ensures Reorder(rows, order)[p..2 * p] == Reorder(rows, order[p..2 * p])
    ensures Reorder(rows, order)[2 * p..] == Reorder(rows, order[2 * p..])
  {
  }

  /** A permutation of `0, ..., n - 1` has `n` entries, all below `n`. */
  lemma PermutationInRange(order: seq<nat>, n: nat)
    requires IsPermutation(order, n)
    ensures |order| == n
    ensures forall i :: 0 <= i < |order| ==> order[i] < n
  {
    assert |multiset(order)| == |multiset(Range(n))|;
    forall i | 0 <= i < |order|
      ensures order[i] < n
    {
      assert order[i] in multiset(order);
      assert order[i] in multiset(Range(n));
      var j :| 0 <= j < n && Range(n)[j] == order[i];
    }
  }

  /** Cutting rows reordered by a permutation of the first `n` indices into
      three parts loses and repeats none of the first `n` rows. */
  lemma PartsKeepRows<A>(rows: seq<A>, order: seq<nat>, n: nat, p: nat)
    requires IsPermutation(order, n) && n <= |rows| && 2 * p <= n
    ensures |order| == n && forall i :: 0 <= i < |order| ==> order[i] < |rows|
    ensures multiset(Reorder(rows, order[..p]) + Reorder(rows, order[p..2 * p]) + Reorder(rows, order[2 * p..]))
         == multiset(rows[..n])
  {
    PermutationInRange(order, n);
    var all := Reorder(rows, order);
    assert all == Reorder(rows[..n], order);
    ReorderKeepsRows(rows[..n], order);
    assert Reorder(rows, order[..p]) + Reorder(rows, order[p..2 * p]) + Reorder(rows, order[2 * p..]) == all;
  }

  /** Without reordering, the three parts are the first `n` rows in order. */
  lemma PartsInOrder<A>(rows: seq<A>, n: nat, p: nat)
    requires n <= |rows| && 2 * p <= n
    ensures Reorder(rows, Range(n)[..p]) + Reorder(rows, Range(n)[p..2 * p]) + Reorder(rows, Range(n)[2 * p..])
         == rows[..n]
  {
    ReorderRange(rows, n, 0, p);
    ReorderRange(rows, n, p, 2 * p);
    ReorderRange(rows, n, 2 * p, n);
    assert Range(n)[..p] == Range(n)[0..p] && Range(n)[2 * p..] == Range(n)[2 * p..n];
    assert rows[0..p] + rows[p..2 * p] + rows[2 * p..n] == rows[..n];
  }

  /** Picking the rows at a slice of `np.arange(n)` is slicing the rows. */
  lemma ReorderRange<A>(rows: seq<A>, n: nat, a: nat, b: nat)
    requires a <= b <= n <= |rows|
    ensures forall i :: 0 <= i < b - a ==> Range(n)[a..b][i] < |rows|
    ensures Reorder(rows, Range(n)[a..b]) == rows[a..b]
  {
    var order := Range(n)[a..b];
    forall i | 0 <= i < b - a
      ensures order[i] == a + i < |rows|
    {
    }
    assert Reorder(rows, order) == rows[a..b];
  }

  /** Reordering by a permutation of all the row indices loses and repeats
      no row. */
  lemma ReorderKeepsRows<A>(rows: seq<A>, order: seq<nat>)
    requires IsPermutation(order, |rows|)
    ensures forall i :: 0 <= i < |order| ==> order[i] < |rows|
    ensures multiset(Reorder(rows, order)) == multiset(rows)
  {
    PermutationInRange(order, |rows|);
    ReorderByRange(rows);
    SameIndicesSameRows(rows, order, Range(|rows|));
  }

  /** Reordering by `np.arange(n)` changes nothing. */
  lemma ReorderByRange<A>(rows: seq<A>)
    ensures Reorder(rows, Range(|rows|)) == rows
  {
  }

  lemma ReorderAppend<A>(rows: seq<A>, u: seq<nat>, v: seq<nat>)
    requires forall i :: 0 <= i < |u| ==> u[i] < |rows|
    requires forall i :: 0 <= i < |v| ==> v[i] < |rows|
    ensures forall i :: 0 <= i < |u + v| ==> (u + v)[i] < |rows|
    ensures Reorder(rows, u + v) == Reorder(rows, u) + Reorder(rows, v)
  {
  }

  /** Where an index of `s1 + [a]` sits in a list holding the same indices,
      and what is left of that list without it. */
  lemma FindIndex(s1: seq<nat>, a: nat, s2: seq<nat>) returns (j: nat)
    requires multiset(s1 + [a]) == multiset(s2)
    ensures j < |s2| && s2[j] == a
    ensures multiset(s1) == multiset(s2[..j] + s2[j + 1..])
  {
    assert a in multiset(s1 + [a]);
    j :| 0 <= j < |s2| && s2[j] == a;
    var rest := s2[..j] + s2[j + 1..];
    assert s2 == s2[..j] + [a] + s2[j + 1..];
    assert multiset(s2) == multiset(rest) + multiset{a};
    assert multiset(s1 + [a]) == multiset(s1) + multiset{a};
    forall x
      ensures multiset(s1)[x] == multiset(rest)[x]
    {
      assert (multiset(s1) + multiset{a})[x] == (multiset(rest) + multiset{a})[x];
    }
  }

  /** Putting the row at `s2[j]` back in on both sides keeps the picked rows
      equal as multisets. */
  lemma PutBack<A>(rows: seq<A>, s1: seq<nat>, s2: seq<nat>, j: nat)
    requires forall i :: 0 <= i < |s1| ==> s1[i] < |rows|
    requires forall i :: 0 <= i < |s2| ==> s2[i] < |rows|
    requires j < |s2|
    requires multiset(Reorder(rows, s1)) == multiset(Reorder(rows, s2[..j] + s2[j + 1..]))
    ensures multiset(Reorder(rows, s1 + [s2[j]])) == multiset(Reorder(rows, s2))
  {
    var x := rows[s2[j]];
    var front := Reorder(rows, s2[..j]);
    var back := Reorder(rows, s2[j + 1..]);
    ReorderAppend(rows, s2[..j], s2[j + 1..]);
    assert Reorder(rows, s1 + [s2[j]]) == Reorder(rows, s1) + [x];
    assert Reorder(rows, s2) == front + ([x] + back);
    assert multiset(front + ([x] + back)) == multiset(front + back) + multiset{x};
  }

  /** Two index lists holding the same indices, in any order, pick out the
      same rows, in some order. */
  lemma {:induction false} SameIndicesSameRows<A>(rows: seq<A>, s1: seq<nat>, s2: seq<nat>)
    requires forall i :: 0 <= i < |s1| ==> s1[i] < |rows|
    requires forall i :: 0 <= i < |s2| ==> s2[i] < |rows|
    requires multiset(s1) == multiset(s2)
    ensures multiset(Reorder(rows, s1)) == multiset(Reorder(rows, s2))
    decreases |s1|
  {
    if |s1| == 0 {
      assert |multiset(s2)| == 0;
    } else {
      var n := |s1| - 1;
      assert s1 == s1[..n] + [s1[n]];
      var j := FindIndex(s1[..n], s1[n], s2);
      SameIndicesSameRows(rows, s1[..n], s2[..j] + s2[j + 1..]);
      PutBack(rows, s1[..n], s2, j);
    }
  }
}
