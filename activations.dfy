/** Element-wise activations. The formulas of the activation library are not part of this model:
    an activation is any function on one element, and `linear` is the identity. */
module Activations {

  /** The activation f applied to every element of s. */
  function Apply(f: int -> int, s: seq<int>): seq<int> {
    seq(|s|, k requires 0 <= k < |s| => f(s[k]))
  }

  /** The identity activation changes nothing. */
  lemma LinearIsIdentity(f: int -> int, s: seq<int>)
    requires forall v :: f(v) == v
    ensures Apply(f, s) == s
  {
    forall k | 0 <= k < |s| ensures Apply(f, s)[k] == s[k] {
      assert f(s[k]) == s[k];
    }
  }

  /** `activationFunc(tensor)`: applies f to the tensor's host buffer in place. */
  method ApplyInPlace(f: int -> int, a: array<int>)
    modifies a
    ensures a[..] == Apply(f, old(a[..]))
  {
    var k := 0;
    while k < a.Length
      invariant 0 <= k <= a.Length
      invariant forall i :: 0 <= i < k ==> a[i] == f(old(a[i]))
      invariant forall i :: k <= i < a.Length ==> a[i] == old(a[i])
    {
      a[k] := f(a[k]);
      k := k + 1;
    }
  }
}
