/** Subsequences: what is left of a text after deleting some of its
    characters. */
module Subseqs {
  /** a can be had from b by deleting characters. */
  predicate IsSubseq<T(==)>(a: seq<T>, b: seq<T>)
    decreases |b|
  {
    a == [] || (b != [] && ((a[0] == b[0] && IsSubseq(a[1..], b[1..])) || IsSubseq(a, b[1..])))
  }

  lemma {:induction false} SubseqRefl<T>(a: seq<T>)
    ensures IsSubseq(a, a)
    decreases |a|
  {
    if a != [] {
      SubseqRefl(a[1..]);
    }
  }

  /** Keeping a character on both sides. */
  lemma SubseqCons<T>(c: T, a: seq<T>, b: seq<T>)
    requires IsSubseq(a, b)
    ensures IsSubseq([c] + a, [c] + b)
  {
    assert ([c] + a)[1..] == a;
    assert ([c] + b)[1..] == b;
  }

  /** Deleting the first k characters of the larger side. */
  lemma {:induction false} SubseqDrop<T>(a: seq<T>, b: seq<T>, k: nat)
    requires k <= |b| && IsSubseq(a, b[k..])
    ensures IsSubseq(a, b)
    decreases k
  {
    if k > 0 {
      assert b[k..] == b[1..][k - 1..];
      SubseqDrop(a, b[1..], k - 1);
    }
  }

  /** A prefix is a subsequence. */
  lemma {:induction false} PrefixIsSubseq<T>(a: seq<T>, k: nat)
    requires k <= |a|
    ensures IsSubseq(a[..k], a)
    decreases k
  {
    if k > 0 {
      assert a[..k][1..] == a[1..][..k - 1];
      PrefixIsSubseq(a[1..], k - 1);
    }
  }

  /** A suffix is a subsequence. */
  lemma SuffixIsSubseq<T>(a: seq<T>, k: nat)
    requires k <= |a|
    ensures IsSubseq(a[k..], a)
  {
    SubseqRefl(a[k..]);
    SubseqDrop(a[k..], a, k);
  }

  /** Deleting twice is deleting once. */
  lemma {:induction false} SubseqTrans<T>(a: seq<T>, b: seq<T>, c: seq<T>)
    requires IsSubseq(a, b) && IsSubseq(b, c)
    ensures IsSubseq(a, c)
    decreases |c|
  {
    if a != [] {
      if IsSubseq(b, c[1..]) {
        SubseqTrans(a, b, c[1..]);
      } else if a[0] == b[0] && IsSubseq(a[1..], b[1..]) {
        SubseqTrans(a[1..], b[1..], c[1..]);
      } else {
        SubseqTrans(a, b[1..], c[1..]);
      }
    }
  }

  /** Every element of a subsequence is an element of the whole. */
  lemma {:induction false} SubseqElems<T>(a: seq<T>, b: seq<T>)
    requires IsSubseq(a, b)
    ensures forall x :: x in a ==> x in b
    decreases |b|
  {
    if a != [] {
      if a[0] == b[0] && IsSubseq(a[1..], b[1..]) {
        SubseqElems(a[1..], b[1..]);
        assert a == [a[0]] + a[1..];
        assert b == [b[0]] + b[1..];
      } else {
        SubseqElems(a, b[1..]);
        assert b == [b[0]] + b[1..];
      }
    }
  }
}
