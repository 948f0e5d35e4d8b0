/** Vectors of reals: the dot product and scaling used by the forward and backward passes. */
module Vectors {

  /** The sum of `a[i] * b[i]` over the first `n` positions, accumulated from left to right. */
  function Dot(a: seq<real>, b: seq<real>, n: nat): real
    requires n <= |a| && n <= |b|
    decreases n
  {
    if n == 0 then 0.0 else Dot(a, b, n - 1) + a[n - 1] * b[n - 1]
  }

  /** The dot product over `n` positions reads nothing beyond those positions. */
  lemma {:induction false} DotPrefix(a: seq<real>, b: seq<real>, a': seq<real>, b': seq<real>, n: nat)
    requires n <= |a| && n <= |b| && n <= |a'| && n <= |b'|
    requires a[..n] == a'[..n] && b[..n] == b'[..n]
    ensures Dot(a, b, n) == Dot(a', b', n)
    decreases n
  {
    if n > 0 {
      assert a[..n - 1] == a[..n][..n - 1] && a'[..n - 1] == a'[..n][..n - 1];
      assert b[..n - 1] == b[..n][..n - 1] && b'[..n - 1] == b'[..n][..n - 1];
      assert a[n - 1] == a[..n][n - 1] && a'[n - 1] == a'[..n][n - 1];
      assert b[n - 1] == b[..n][n - 1] && b'[n - 1] == b'[..n][n - 1];
      DotPrefix(a, b, a', b', n - 1);
    }
  }

  /** Every entry of `v` multiplied by `c`, in order. */
  function Scale(v: seq<real>, c: real): (w: seq<real>)
    ensures |w| == |v|
    ensures forall i :: 0 <= i < |v| ==> w[i] == v[i] * c
    decreases |v|
  {
    if |v| == 0 then [] else [v[0] * c] + Scale(v[1..], c)
  }
}
