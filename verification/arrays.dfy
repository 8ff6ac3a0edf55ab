/** The numpy arrays of the model, over exact reals: a one-dimensional
    vector, and a matrix as a sequence of rows. */
module Arrays {

  type Vector = seq<real>

  type Matrix = seq<seq<real>>

  /** Every row of `m` has `d` columns, as in a two-dimensional array. */
  predicate HasColumns(m: Matrix, d: nat) {
    forall i :: 0 <= i < |m| ==> |m[i]| == d
  }
}
