/** Sequence helpers shared by the model. */
module Seqs {
  /** `f` applied to each element of `xs`, in order. */
  function Map<A, B>(f: A -> B, xs: seq<A>): (r: seq<B>)
    ensures |r| == |xs|
  {
    if xs == [] then [] else [f(xs[0])] + Map(f, xs[1..])
  }

  /** Mapping distributes over concatenation. */
  lemma {:induction false} MapAppend<A, B>(f: A -> B, a: seq<A>, b: seq<A>)
    ensures Map(f, a + b) == Map(f, a) + Map(f, b)
  {
    if a != [] {
      assert (a + b)[1..] == a[1..] + b;
      MapAppend(f, a[1..], b);
    } else {
      assert a + b == b;
    }
  }

  /** Two appends in a row append the concatenation. */
  lemma AppendTwice<T>(c0: seq<T>, c1: seq<T>, c2: seq<T>, a: seq<T>, b: seq<T>)
    requires c1 == c0 + a && c2 == c1 + b
    ensures c2 == c0 + (a + b)
  {
  }

  /** `a` is `b` with some elements left out and the rest kept in their order. */
  predicate Subseq<T(==)>(a: seq<T>, b: seq<T>)
    decreases |b|
  {
    if b == [] then a == []
    else (a != [] && a[0] == b[0] && Subseq(a[1..], b[1..])) || Subseq(a, b[1..])
  }

  /** Leaving out every element gives a subsequence. */
  lemma {:induction false} SubseqEmpty<T>(b: seq<T>)
    ensures Subseq([], b)
    decreases |b|
  {
    if b != [] {
      SubseqEmpty(b[1..]);
    }
  }

  /** A subsequence stays one when the same element is put in front of both, or in front of `b` only. */
  lemma SubseqCons<T>(x: T, a: seq<T>, b: seq<T>)
    requires Subseq(a, b)
    ensures Subseq([x] + a, [x] + b) && Subseq(a, [x] + b)
  {
    assert ([x] + a)[1..] == a && ([x] + b)[1..] == b;
  }

  /**
   * One step of an order-keeping drain: `c` grows from `c0` by `e` (either
   * nothing or `x`), then by a subsequence of `rest`; in all it has gained
   * a subsequence of `[x] + rest`, made of `x` and the later gains.
   */
  lemma SubseqStep<T>(x: T, rest: seq<T>, c0: seq<T>, c1: seq<T>, c: seq<T>, e: seq<T>)
    requires c1 == c0 + e && (e == [] || e == [x])
    requires c1 <= c && Subseq(c[|c1|..], rest)
    ensures c0 <= c && Subseq(c[|c0|..], [x] + rest)
    ensures forall y :: y in c[|c0|..] ==> (e != [] && y == x) || y in c[|c1|..]
  {
    var w := c[|c1|..];
    assert c[|c0|..] == e + w;
    SubseqCons(x, w, rest);
    if e != [] {
      assert e + w == [x] + w;
    } else {
      assert e + w == w;
    }
  }

  /** Splitting off the head: a non-empty prefix is the head and a prefix of the tail, and the suffixes agree. */
  lemma PrefixCons<T>(q: seq<T>, n: nat)
    requires 0 < n <= |q|
    ensures q[..n] == [q[0]] + q[1..][..n - 1]
    ensures q[1..][n - 1..] == q[n..]
  {
  }

  /** Two one-element sequences in a row are the two-element sequence. */
  lemma PairAppend<T>(x: T, y: T)
    ensures [x] + [y] == [x, y]
  {
  }

  /** Two copies of `x` appended to nothing are `[x, x]`. */
  lemma TwoCopies<T>(x: T)
    ensures [] + seq(2, _ => x) == [x, x]
  {
    assert seq(2, _ => x) == [x, x];
  }
}
