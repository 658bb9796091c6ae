/** Exact integer semantics of the affine map a Dense layer computes.
    A kernel is stored as `[input_dim, units]`: row i holds the weights that input i
    contributes to each of the `units` outputs. */
module LinAlg {

  /** K has `rows` rows of `cols` entries each. */
  predicate Shaped(K: seq<seq<int>>, rows: nat, cols: nat) {
    |K| == rows && forall i :: 0 <= i < rows ==> |K[i]| == cols
  }

  /** The first n terms of column j of Kᵀx, summed from left to right:
      K[0][j]·x[0] + … + K[n-1][j]·x[n-1]. */
  function Dot(K: seq<seq<int>>, x: seq<int>, j: nat, n: nat): int
    requires n <= |K| && n <= |x|
    requires forall i :: 0 <= i < n ==> j < |K[i]|
    decreases n
  {
    if n == 0 then 0 else Dot(K, x, j, n - 1) + K[n - 1][j] * x[n - 1]
  }

  /** BLAS xGEMV with the kernel transposed: y' = α·Kᵀx + β·y. */
  function Gemv(alpha: int, K: seq<seq<int>>, x: seq<int>, beta: int, y: seq<int>): seq<int>
    requires Shaped(K, |x|, |y|)
  {
    seq(|y|, j requires 0 <= j < |y| => alpha * Dot(K, x, j, |x|) + beta * y[j])
  }

  /** The plain product Kᵀx, with `cols` outputs. */
  function MatTVec(K: seq<seq<int>>, x: seq<int>, cols: nat): seq<int>
    requires Shaped(K, |x|, cols)
  {
    seq(cols, j requires 0 <= j < cols => Dot(K, x, j, |x|))
  }

  function Add(a: seq<int>, b: seq<int>): seq<int>
    requires |a| == |b|
  {
    seq(|a|, k requires 0 <= k < |a| => a[k] + b[k])
  }

  function Zeros(n: nat): seq<int> {
    seq(n, _ => 0)
  }

  /** n successive bias-free accumulations `y := 1·Kᵀx + 1·y` into the same buffer. */
  function Repeat(K: seq<seq<int>>, x: seq<int>, y: seq<int>, n: nat): (r: seq<int>)
    requires Shaped(K, |x|, |y|)
    ensures |r| == |y|
    decreases n
  {
    if n == 0 then y else Gemv(1, K, x, 1, Repeat(K, x, y, n - 1))
  }

  /** The dot product is additive in the input vector. */
  lemma {:induction false} DotAdditive(K: seq<seq<int>>, x1: seq<int>, x2: seq<int>, j: nat, n: nat)
    requires |x1| == |x2| && n <= |x1| && n <= |K|
    requires forall i :: 0 <= i < n ==> j < |K[i]|
    ensures Dot(K, Add(x1, x2), j, n) == Dot(K, x1, j, n) + Dot(K, x2, j, n)
  {
    if n > 0 {
      DotAdditive(K, x1, x2, j, n - 1);
      var w := K[n - 1][j];
      assert Add(x1, x2)[n - 1] == x1[n - 1] + x2[n - 1];
      assert w * (x1[n - 1] + x2[n - 1]) == w * x1[n - 1] + w * x2[n - 1];
    }
  }

  /** The dot product with an all-zero input is zero. */
  lemma {:induction false} DotOfZeros(K: seq<seq<int>>, j: nat, n: nat)
    requires n <= |K|
    requires forall i :: 0 <= i < n ==> j < |K[i]|
    ensures Dot(K, Zeros(n), j, n) == 0
  {
    if n > 0 {
      DotPrefix(K, Zeros(n), Zeros(n - 1), j, n - 1);
      DotOfZeros(K, j, n - 1);
    }
  }

  /** Dot only looks at the first n entries of the input. */
  lemma {:induction false} DotPrefix(K: seq<seq<int>>, x: seq<int>, x': seq<int>, j: nat, n: nat)
    requires n <= |K| && n <= |x| && n <= |x'|
    requires forall i :: 0 <= i < n ==> j < |K[i]|
    requires forall i :: 0 <= i < n ==> x[i] == x'[i]
    ensures Dot(K, x, j, n) == Dot(K, x', j, n)
  {
    if n > 0 {
      DotPrefix(K, x, x', j, n - 1);
    }
  }

  /** Seeding the buffer with b and accumulating gives b + Kᵀx, whatever the buffer held before. */
  lemma GemvSeeded(K: seq<seq<int>>, x: seq<int>, b: seq<int>)
    requires Shaped(K, |x|, |b|)
    ensures Gemv(1, K, x, 1, b) == Add(b, MatTVec(K, x, |b|))
  {
  }

  /** Two bias-free accumulations, first of x1 then of x2, leave the same buffer as one
      accumulation of x1 + x2: the buffer keeps a running sum of the Kᵀx terms. */
  lemma GemvAccumulates(K: seq<seq<int>>, x1: seq<int>, x2: seq<int>, y: seq<int>)
    requires |x1| == |x2| && Shaped(K, |x1|, |y|)
    ensures Gemv(1, K, x2, 1, Gemv(1, K, x1, 1, y)) == Gemv(1, K, Add(x1, x2), 1, y)
  {
    forall j | 0 <= j < |y|
      ensures Gemv(1, K, x2, 1, Gemv(1, K, x1, 1, y))[j] == Gemv(1, K, Add(x1, x2), 1, y)[j]
    {
      DotAdditive(K, x1, x2, j, |x1|);
    }
  }

  /** After n bias-free accumulations of the same x, entry j has grown by n times its dot product. */
  lemma {:induction false} RepeatedCalls(K: seq<seq<int>>, x: seq<int>, y: seq<int>, n: nat, j: nat)
    requires Shaped(K, |x|, |y|) && j < |y|
    ensures Repeat(K, x, y, n)[j] == y[j] + n * Dot(K, x, j, |x|)
  {
    if n > 0 {
      RepeatedCalls(K, x, y, n - 1, j);
      var d := Dot(K, x, j, |x|);
      assert (n - 1) * d + d == n * d;
    }
  }

  /** Accumulating into a buffer yields exactly the plain product Kᵀx if and only if the buffer
      held zeros beforehand. */
  lemma GemvIsPlainProductIff(K: seq<seq<int>>, x: seq<int>, y: seq<int>)
    requires Shaped(K, |x|, |y|)
    ensures Gemv(1, K, x, 1, y) == MatTVec(K, x, |y|) <==> y == Zeros(|y|)
  {
    var r, p := Gemv(1, K, x, 1, y), MatTVec(K, x, |y|);
    if r == p {
      forall j | 0 <= j < |y| ensures y[j] == 0 {
        assert r[j] == p[j];
      }
    }
    if y == Zeros(|y|) {
      forall j | 0 <= j < |y| ensures r[j] == p[j] {
        assert y[j] == 0;
      }
    }
  }

  /** With an all-zero input the buffer is left as it was (seeded or not). */
  lemma GemvOfZeroInput(K: seq<seq<int>>, y: seq<int>, n: nat)
    requires Shaped(K, n, |y|)
    ensures Gemv(1, K, Zeros(n), 1, y) == y
  {
    forall j | 0 <= j < |y| ensures Gemv(1, K, Zeros(n), 1, y)[j] == y[j] {
      DotOfZeros(K, j, n);
    }
  }

  /** The three-input, two-unit kernel [[1,0],[0,1],[1,1]]. */
  function ExampleKernel(): (K: seq<seq<int>>)
    ensures Shaped(K, 3, 2)
  {
    [[1, 0], [0, 1], [1, 1]]
  }

  /** Zero bias and input [1,2,3] give [4,5]. */
  lemma WorkedExample()
    ensures Gemv(1, ExampleKernel(), [1, 2, 3], 1, [0, 0]) == [4, 5]
  {
    var K := ExampleKernel();
    assert Dot(K, [1, 2, 3], 0, 3) == 4;
    assert Dot(K, [1, 2, 3], 1, 3) == 5;
  }

  /** Without bias, input [1,1,1] gives [2,2] from a zeroed buffer; a second call on the same
      buffer gives [4,4], not [2,2], because nothing resets the buffer between calls. */
  lemma BiasOffScenario()
    ensures Gemv(1, ExampleKernel(), [1, 1, 1], 1, [0, 0]) == [2, 2]
    ensures Repeat(ExampleKernel(), [1, 1, 1], [0, 0], 2) == [4, 4]
  {
    var K := ExampleKernel();
    assert Dot(K, [1, 1, 1], 0, 3) == 2;
    assert Dot(K, [1, 1, 1], 1, 3) == 2;
    assert Repeat(K, [1, 1, 1], [0, 0], 1) == [2, 2];
  }
}
