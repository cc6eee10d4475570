/** Building a list by applying a function to each element of a prefix, as a `for` loop that appends does. */
module Seqs {

  /** `f(k, s[k])` for each index `k` below `n`, in order. */
  function MapUpTo<A, B>(f: (nat, A) -> B, s: seq<A>, n: nat): (r: seq<B>)
    requires n <= |s|
    ensures |r| == n
  {
    if n == 0 then [] else MapUpTo(f, s, n - 1) + [f(n - 1, s[n - 1])]
  }

  /** Element `k` of the list is `f` applied to index `k` and element `k`. */
  lemma {:induction false} MapUpToAt<A, B>(f: (nat, A) -> B, s: seq<A>, n: nat, k: nat)
    requires k < n <= |s|
    ensures MapUpTo(f, s, n)[k] == f(k, s[k])
  {
    if k < n - 1 {
      MapUpToAt(f, s, n - 1, k);
    }
  }
}
