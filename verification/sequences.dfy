/** Sequence helpers shared by the buffer layout and the fold partitioning. */
module Sequences {

  /** The parts laid end to end, in order (numpy's `hstack` of flattened
      matrices, or `vstack` of row blocks). */
  function Concat<T>(parts: seq<seq<T>>): (r: seq<T>)
    ensures |parts| == 0 ==> r == []
    decreases |parts|
  {
    if |parts| == 0 then [] else Concat(parts[..|parts| - 1]) + parts[|parts| - 1]
  }

  /** Concatenation distributes over splitting the list of parts. */
  lemma {:induction false} ConcatAppend<T>(a: seq<seq<T>>, b: seq<seq<T>>)
    ensures Concat(a + b) == Concat(a) + Concat(b)
    decreases |b|
  {
    if |b| == 0 {
      assert a + b == a;
    } else {
      var b' := b[..|b| - 1];
      assert (a + b)[..|a + b| - 1] == a + b';
      ConcatAppend(a, b');
    }
  }

  /** Concatenating a single part gives that part back. */
  lemma ConcatSingle<T>(p: seq<T>)
    ensures Concat([p]) == p
  {
    assert [p][..0] == [];
  }
}
