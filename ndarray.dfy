/** The two ndarray library operations the CPU path uses, with their standard semantics:
    `ops.assign` from ndarray-ops and `gemv` from ndarray-blas-level2. */
module NdArray {
  import opened LinAlg

  /** The rows of a two-dimensional array, as a value. */
  ghost function Rows(a: array2<int>): (r: seq<seq<int>>)
    reads a
    ensures Shaped(r, a.Length0, a.Length1)
    ensures forall i, j :: 0 <= i < a.Length0 && 0 <= j < a.Length1 ==> r[i][j] == a[i, j]
  {
    seq(a.Length0, i requires 0 <= i < a.Length0 reads a =>
      seq(a.Length1, j requires 0 <= j < a.Length1 reads a => a[i, j]))
  }

  /** `ops.assign(dst, src)`: copies src into dst element by element. */
  method Assign(dst: array<int>, src: array<int>)
    requires dst.Length == src.Length && dst != src
    modifies dst
    ensures dst[..] == src[..]
  {
    var k := 0;
    while k < dst.Length
      invariant 0 <= k <= dst.Length
      invariant forall i :: 0 <= i < k ==> dst[i] == src[i]
    {
      dst[k] := src[k];
      k := k + 1;
    }
  }

  /** `gemv(alpha, a.transpose(1, 0), x, beta, y)`: y := alpha·aᵀx + beta·y, where a is
      stored as `[x.Length, y.Length]` and the transposed view is read as `a[i, j]` for
      entry (j, i). One dot product per output entry j, each summed over i from 0 upwards. */
  method GemvTransposed(alpha: int, a: array2<int>, x: array<int>, beta: int, y: array<int>)
    requires a.Length0 == x.Length && a.Length1 == y.Length && x != y
    modifies y
    ensures y[..] == Gemv(alpha, Rows(a), x[..], beta, old(y[..]))
  {
    ghost var K := Rows(a);
    var j := 0;
    while j < y.Length
      invariant 0 <= j <= y.Length
      invariant forall k :: 0 <= k < j ==> y[k] == alpha * Dot(K, x[..], k, x.Length) + beta * old(y[k])
      invariant forall k :: j <= k < y.Length ==> y[k] == old(y[k])
    {
      var s, i := 0, 0;
      while i < x.Length
        invariant 0 <= i <= x.Length
        invariant s == Dot(K, x[..], j, i)
      {
        s := s + a[i, j] * x[i];
        i := i + 1;
      }
      y[j] := alpha * s + beta * y[j];
      j := j + 1;
    }
  }
}
