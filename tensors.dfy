/**
 * Batched embeddings and similarity logits as matrices of reals.
 * A matrix is a batch of rows of one feature width; the width is kept even
 * when the batch has no rows, as a tensor's shape is. The real numbers stand
 * in for floating point.
 */
module Tensors {

  datatype Batch = Batch(width: nat, rows: seq<seq<real>>)

  /** Every row has the batch's width. */
  predicate Rectangular(b: Batch)
  {
    forall i :: 0 <= i < |b.rows| ==> |b.rows[i]| == b.width
  }

  /** A 2-D tensor: `rows` is its first dimension, `width` its second. */
  type Matrix = b: Batch | Rectangular(b) witness Batch(0, [])

  /** `a` times the transpose of `b` is defined: both have the same feature width. */
  predicate Conformable(a: Matrix, b: Matrix)
  {
    a.width == b.width
  }

  function Dot(u: seq<real>, v: seq<real>): real
    requires |u| == |v|
    decreases |u|
  {
    if |u| == 0 then 0.0 else u[0] * v[0] + Dot(u[1..], v[1..])
  }

  lemma {:induction false} DotCommutes(u: seq<real>, v: seq<real>)
    requires |u| == |v|
    ensures Dot(u, v) == Dot(v, u)
    decreases |u|
  {
    if |u| > 0 {
      DotCommutes(u[1..], v[1..]);
    }
  }

  /**
   * `(a · bᵀ) * scale`: entry (i, j) is the scaled dot product of row i of `a`
   * with row j of `b`, which is how cosine-similarity logits are formed.
   */
  function ScaledSimilarity(a: Matrix, b: Matrix, scale: real): (m: Matrix)
    requires Conformable(a, b)
    ensures |m.rows| == |a.rows| && m.width == |b.rows|
  {
    Batch(|b.rows|,
      seq(|a.rows|, i requires 0 <= i < |a.rows| =>
        seq(|b.rows|, j requires 0 <= j < |b.rows| => Dot(a.rows[i], b.rows[j]) * scale)))
  }

  /** The transpose: the shape is swapped and entry (i, j) is entry (j, i) of `m`. */
  function Transpose(m: Matrix): (t: Matrix)
    ensures |t.rows| == m.width && t.width == |m.rows|
    ensures forall i, j :: 0 <= i < m.width && 0 <= j < |m.rows| ==> t.rows[i][j] == m.rows[j][i]
  {
    Batch(|m.rows|,
      seq(m.width, i requires 0 <= i < m.width =>
        seq(|m.rows|, j requires 0 <= j < |m.rows| => m.rows[j][i])))
  }

  /** Transposing twice gives the matrix back. */
  lemma TransposeInvolutive(m: Matrix)
    ensures Transpose(Transpose(m)) == m
  {
    var t := Transpose(Transpose(m));
    assert |t.rows| == |m.rows| && t.width == m.width;
    forall i | 0 <= i < |m.rows|
      ensures t.rows[i] == m.rows[i]
    {
      assert |t.rows[i]| == m.width == |m.rows[i]|;
    }
    assert t.rows == m.rows;
  }

  /**
   * The transpose of the `a`-against-`b` logits is the `b`-against-`a` logits:
   * image-per-text logits read off the text-per-image ones are the same as
   * computing similarities from the image side.
   */
  lemma {:induction false} SimilarityTranspose(a: Matrix, b: Matrix, scale: real)
    requires Conformable(a, b)
    ensures Conformable(b, a)
    ensures Transpose(ScaledSimilarity(a, b, scale)) == ScaledSimilarity(b, a, scale)
  {
    var t := Transpose(ScaledSimilarity(a, b, scale));
    var s := ScaledSimilarity(b, a, scale);
    forall i, j | 0 <= i < |b.rows| && 0 <= j < |a.rows|
      ensures t.rows[i][j] == s.rows[i][j]
    {
      DotCommutes(a.rows[j], b.rows[i]);
    }
    assert forall i | 0 <= i < |b.rows| :: t.rows[i] == s.rows[i];
    assert t.rows == s.rows;
  }
}
