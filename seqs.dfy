/** Mapping and searching a sequence, as Ruby's `Array#map`, `Array#find` and `Array#reject(...)[0]` do. */
module Seqs {
  import opened Wrappers

  /** The leftmost index at or after `start` whose element satisfies `p`. */
  function FirstWhere<T>(s: seq<T>, p: T -> bool, start: nat := 0): (r: Option<nat>)
    requires start <= |s|
    ensures r.Some? ==> start <= r.value < |s| && p(s[r.value])
    ensures r.Some? ==> forall j :: start <= j < r.value ==> !p(s[j])
    ensures r.None? <==> forall j :: start <= j < |s| ==> !p(s[j])
    decreases |s| - start
  {
    if start == |s| then None
    else if p(s[start]) then Some(start)
    else FirstWhere(s, p, start + 1)
  }

  /** Any index that satisfies `p` with no satisfying index before it is the one `FirstWhere` finds. */
  lemma FirstWhereIs<T>(s: seq<T>, p: T -> bool, k: nat)
    requires k < |s| && p(s[k])
    requires forall j :: 0 <= j < k ==> !p(s[j])
    ensures FirstWhere(s, p) == Some(k)
  {
  }

  /** `xs.map(&f)`: one result per element, in order. */
  function Map<A, B>(xs: seq<A>, f: A -> B): (r: seq<B>)
    ensures |r| == |xs|
    ensures forall i :: 0 <= i < |xs| ==> r[i] == f(xs[i])
  {
    seq(|xs|, i requires 0 <= i < |xs| => f(xs[i]))
  }
}
