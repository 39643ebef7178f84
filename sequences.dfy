/** Order-preserving sub-lists, the shape of every `Array.prototype.filter` result. */
module Sequences {

  /** `a` can be obtained from `b` by dropping elements, keeping the order of the rest. */
  ghost predicate IsSubsequence<T>(a: seq<T>, b: seq<T>)
    decreases |b|
  {
    if a == [] then true
    else if b == [] then false
    else (a[0] == b[0] && IsSubsequence(a[1..], b[1..])) || IsSubsequence(a, b[1..])
  }

  /** Keeping or dropping the head of `b` extends a subsequence of its tail. */
  lemma {:induction false} SubsequenceCons<T>(x: T, a: seq<T>, b: seq<T>, keep: bool)
    requires IsSubsequence(a, b)
    ensures IsSubsequence(if keep then [x] + a else a, [x] + b)
  {
    assert ([x] + b)[1..] == b;
    if keep {
      assert ([x] + a)[1..] == a;
    } else if a != [] {
      assert ([x] + b) != [];
    }
  }
}
