/** Facts about sequences shared by the string repairs and the line and flag filters. */
module Seqs {

  /** `a` is obtained from `b` by deleting elements: what is kept keeps its order. */
  predicate Subsequence<T(==)>(a: seq<T>, b: seq<T>)
    decreases |b|
  {
    a == [] || (b != [] && ((a[0] == b[0] && Subsequence(a[1..], b[1..])) || Subsequence(a, b[1..])))
  }

  /** An element in front of both sides is kept. */
  lemma {:induction false} SubsequenceKeep<T>(x: T, a: seq<T>, b: seq<T>)
    requires Subsequence(a, b)
    ensures Subsequence([x] + a, [x] + b)
  {
    assert ([x] + a)[1..] == a;
    assert ([x] + b)[1..] == b;
  }

  /** An element in front of the longer side only is deleted. */
  lemma {:induction false} SubsequenceDrop<T>(x: T, a: seq<T>, b: seq<T>)
    requires Subsequence(a, b)
    ensures Subsequence(a, [x] + b)
  {
    assert ([x] + b)[1..] == b;
  }

  lemma {:induction false} SubsequenceOfPrefixed<T>(x: seq<T>, a: seq<T>, b: seq<T>)
    requires Subsequence(a, b)
    ensures Subsequence(x + a, x + b)
    decreases |x|
  {
    if x == [] {
      assert x + a == a && x + b == b;
    } else {
      SubsequenceOfPrefixed(x[1..], a, b);
      assert (x + a)[0] == (x + b)[0];
      assert (x + a)[1..] == x[1..] + a;
      assert (x + b)[1..] == x[1..] + b;
    }
  }
}
