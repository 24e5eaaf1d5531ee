/** Sequence identities over any element type, stated once so that proofs
    about strings can use them without re-deriving them character by character. */
module Seqs {

  lemma HeadTail<T>(s: seq<T>)
    requires s != []
    ensures [s[0]] + s[1..] == s
  {
  }

  lemma Cons<T>(c: T, t: seq<T>)
    ensures ([c] + t)[0] == c && ([c] + t)[1..] == t
  {
  }

  /** The head and the tail of a concatenation whose left part is not empty. */
  lemma ConsSplit<T>(m: seq<T>, t: seq<T>)
    requires m != []
    ensures (m + t)[0] == m[0] && (m + t)[1..] == m[1..] + t
  {
  }

  /** Appending the head and then the tail appends the whole. */
  lemma SnocJoin<T>(b: seq<T>, m: seq<T>)
    requires m != []
    ensures b + [m[0]] + m[1..] == b + m
  {
  }

  /** The head before the tail and a suffix is the whole before the suffix. */
  lemma ConsJoin<T>(m: seq<T>, x: seq<T>)
    requires m != []
    ensures [m[0]] + (m[1..] + x) == m + x
  {
  }

  /** A prefix one element longer is the prefix and that element. */
  lemma TakeSnoc<T>(s: seq<T>, i: nat)
    requires i < |s|
    ensures s[..i + 1] == s[..i] + [s[i]]
  {
  }

  /** The prefix as long as the sequence is the sequence. */
  lemma TakeAll<T>(s: seq<T>)
    ensures s[..|s|] == s
  {
  }

  lemma Assoc<T>(a: seq<T>, b: seq<T>, c: seq<T>)
    ensures (a + b) + c == a + (b + c)
  {
  }

  lemma DropParts<T>(p: seq<T>, q: seq<T>, r: seq<T>, b: seq<T>)
    ensures (p + (q + r + b))[|p| + |q| + |r|..] == b
  {
    assert p + (q + r + b) == (p + q + r) + b;
  }

  lemma PrefixJoin<T>(a: seq<T>, b: seq<T>, n: nat)
    requires n <= |a|
    ensures (a + b)[..n] == a[..n]
  {
  }

  lemma DropJoin<T>(a: seq<T>, b: seq<T>, n: nat)
    requires n <= |a|
    ensures (a + b)[n..] == a[n..] + b
  {
  }

  lemma Nest4<T>(p: seq<T>, x: seq<T>, q: seq<T>, t: seq<T>)
    ensures p + x + q + t == p + (x + (q + t))
  {
  }

  lemma Nest5<T>(p: seq<T>, x: seq<T>, q: seq<T>, y: seq<T>, r: seq<T>)
    ensures p + x + q + y + r == p + (x + (q + (y + r)))
  {
    Nest4(p, x, q, y + r);
    assert p + x + q + y + r == (p + x + q) + (y + r);
  }

  lemma Nest6<T>(p: seq<T>, x: seq<T>, q: seq<T>, y: seq<T>, r: seq<T>, b: seq<T>)
    ensures p + x + q + y + r + b == p + (x + (q + (y + (r + b))))
  {
    Nest4(p, x, q, y + r + b);
    assert y + r + b == y + (r + b);
  }

  /** Positions are parameters in the lemmas below, so that callers can name
      them in the form their own terms take. */
  lemma DropPrefix<T>(a: seq<T>, b: seq<T>, n: nat)
    requires n == |a|
    ensures (a + b)[n..] == b
  {
  }

  lemma DropNest<T>(p: seq<T>, x: seq<T>, q: seq<T>, t: seq<T>, n: nat)
    requires n == |p| + |x| + |q|
    ensures (p + (x + (q + t)))[n..] == t
  {
    assert p + (x + (q + t)) == (p + x + q) + t;
  }

  lemma AtNest<T>(p: seq<T>, x: seq<T>, q: seq<T>, t: seq<T>, i: nat, n: nat)
    requires i < |q| && n == |p| + |x| + i
    ensures (p + (x + (q + t)))[n] == q[i]
  {
  }

  lemma AtNestTail<T>(p: seq<T>, x: seq<T>, q: seq<T>, t: seq<T>, i: nat, n: nat)
    requires i < |t| && n == |p| + |x| + |q| + i
    ensures (p + (x + (q + t)))[n] == t[i]
  {
  }

  lemma AbsentNest<T>(p: seq<T>, x: seq<T>, t: seq<T>, c: T, lo: nat, hi: nat)
    requires c !in x && lo == |p| && hi == |p| + |x|
    ensures forall j :: lo <= j < hi ==> (p + (x + t))[j] != c
  {
    forall j | lo <= j < hi ensures (p + (x + t))[j] != c {
      assert (p + (x + t))[j] == x[j - |p|];
    }
  }

  lemma SliceAfterDrop<T>(s: seq<T>, i: nat, j: nat, y: seq<T>, t: seq<T>)
    requires i <= |s| && s[i..] == y + t && j == i + |y|
    ensures s[i..j] == y
  {
    assert s[i..j] == s[i..][..|y|];
  }

  lemma Regroup5<T>(a: seq<T>, p: seq<T>, q: seq<T>, r: seq<T>, b: seq<T>)
    ensures a + p + q + r + b == a + (p + (q + r + b))
  {
  }

  lemma EmptyJoin<T>(a: seq<T>, b: seq<T>)
    requires a == []
    ensures a + b == b && b + a == b
  {
  }

  /** The three parts of a concatenation of three. */
  lemma Sandwich<T>(x: seq<T>, y: seq<T>, z: seq<T>)
    ensures var w := x + y + z;
      w[..|x|] == x && w[|w| - |z|..] == z && w[|x|..|w| - |z|] == y
  {
  }

  /** A sequence between two single elements: they are its ends, and the
      middle is the sequence itself. */
  lemma Framed<T>(a: T, k: seq<T>, b: T)
    ensures var r := [a] + k + [b];
      |r| == |k| + 2 && r[0] == a && r[|r| - 1] == b && r[1..|r| - 1] == k
      && forall j :: 1 <= j < |r| - 1 ==> r[j] == k[j - 1]
  {
  }

  /** A sequence is its prefix of length k followed by the rest. */
  lemma SplitAt<T>(s: seq<T>, k: nat)
    requires k <= |s|
    ensures s == s[..k] + s[k..]
  {
  }

  /** A sequence is what comes before position k, the element at k, and the rest. */
  lemma RemoveAt<T>(s: seq<T>, k: nat)
    requires k < |s|
    ensures s == s[..k] + [s[k]] + s[k + 1..]
  {
    SplitAt(s, k);
    assert s[k..] == [s[k]] + s[k + 1..];
  }

  /** Dropping k and then j elements drops k + j. */
  lemma DropDrop<T>(s: seq<T>, k: nat, j: nat)
    requires k + j <= |s|
    ensures s[k..][j..] == s[k + j..]
  {
  }

  /** The parts of x + y, read back. */
  lemma Parts<T>(x: seq<T>, y: seq<T>)
    ensures (x + y)[..|x|] == x && (x + y)[|x|..] == y
  {
  }

  lemma SliceCons<T>(s: seq<T>, i: nat, j: nat)
    requires i < j <= |s|
    ensures s[i..j] == [s[i]] + s[i + 1..j]
  {
  }
}
