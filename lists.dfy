/** Order-preserving list operations shared by the stores: `filter`, the first
    index that satisfies a test (`findIndex` / `next(...)`), the first
    element, and the prefix that `slice(0, n)` keeps. */
module Lists {
  import opened Wrappers
  import Seqs

  /** `s.filter(p)` / `[x for x in s if p(x)]`. */
  function Filter<T>(p: T -> bool, s: seq<T>): (r: seq<T>)
    ensures |r| <= |s|
    ensures forall i :: 0 <= i < |r| ==> p(r[i]) && r[i] in s
    ensures forall x :: x in s && p(x) ==> x in r
  {
    if s == [] then [] else (if p(s[0]) then [s[0]] else []) + Filter(p, s[1..])
  }

  /** Filtering a concatenation filters each part. */
  lemma {:induction false} FilterConcat<T>(p: T -> bool, a: seq<T>, b: seq<T>)
    ensures Filter(p, a + b) == Filter(p, a) + Filter(p, b)
    decreases |a|
  {
    if a == [] {
      Seqs.EmptyJoin(a, b);
      Seqs.EmptyJoin(Filter(p, a), Filter(p, b));
    } else {
      Seqs.ConsSplit(a, b);
      FilterConcat(p, a[1..], b);
      FilterCons(p, a + b);
      FilterCons(p, a);
      Seqs.Assoc(if p(a[0]) then [a[0]] else [], Filter(p, a[1..]), Filter(p, b));
    }
  }

  lemma FilterCons<T>(p: T -> bool, s: seq<T>)
    requires s != []
    ensures Filter(p, s) == (if p(s[0]) then [s[0]] else []) + Filter(p, s[1..])
  {
  }

  /** A filter that every element passes changes nothing. */
  lemma {:induction false} FilterAll<T>(p: T -> bool, s: seq<T>)
    requires forall i :: 0 <= i < |s| ==> p(s[i])
    ensures Filter(p, s) == s
    decreases |s|
  {
    if s != [] {
      FilterAll(p, s[1..]);
      FilterCons(p, s);
      Seqs.HeadTail(s);
    }
  }

  /** Filtering twice with the same test is filtering once. */
  lemma FilterTwice<T>(p: T -> bool, s: seq<T>)
    ensures Filter(p, Filter(p, s)) == Filter(p, s)
  {
    FilterAll(p, Filter(p, s));
  }

  /** `s.findIndex(p)`: the first position whose element passes, if any. */
  function FindFirst<T>(p: T -> bool, s: seq<T>): (r: Option<nat>)
    ensures r.Some? ==> r.value < |s| && p(s[r.value])
    ensures r.Some? ==> forall j :: 0 <= j < r.value ==> !p(s[j])
    ensures r.None? <==> forall j :: 0 <= j < |s| ==> !p(s[j])
  {
    if s == [] then None
    else if p(s[0]) then Some(0)
    else match FindFirst(p, s[1..])
      case None => None
      case Some(k) => Some(k + 1)
  }

  /** `s.find(p)` / `next((x for x in s if p(x)), None)`. */
  function Find<T>(p: T -> bool, s: seq<T>): (r: Option<T>)
    ensures r.Some? ==> p(r.value) && r.value in s
    ensures r.None? <==> forall j :: 0 <= j < |s| ==> !p(s[j])
  {
    match FindFirst(p, s)
    case None => None
    case Some(k) => Some(s[k])
  }

  /** `s.find(p)` is the first element that passes: everything before its
      position fails the test. */
  lemma FindIsFirst<T>(p: T -> bool, s: seq<T>, k: nat)
    requires k < |s| && p(s[k]) && forall j :: 0 <= j < k ==> !p(s[j])
    ensures Find(p, s) == Some(s[k])
  {
  }

  /** The position of the first x in s. */
  function IndexIn<T(==)>(s: seq<T>, x: T): (k: nat)
    requires x in s
    ensures k < |s| && s[k] == x
    ensures forall j :: 0 <= j < k ==> s[j] != x
  {
    if s[0] == x then 0
    else
      assert s == [s[0]] + s[1..];
      IndexIn(s[1..], x) + 1
  }

  /** Appending keeps the first position of what was already there. */
  lemma IndexInSnoc<T>(s: seq<T>, y: T, x: T)
    requires x in s
    ensures IndexIn(s + [y], x) == IndexIn(s, x)
  {
    var k := IndexIn(s, x);
    var t := s + [y];
    assert t[k] == x;
    assert forall j :: 0 <= j < k ==> t[j] == s[j];
  }

  /** No element occurs twice. */
  predicate Distinct<T(==)>(s: seq<T>) {
    forall i, j :: 0 <= i < j < |s| ==> s[i] != s[j]
  }

  /** `list(dict.fromkeys(s))`: each element once, at its first occurrence. */
  function Dedup<T(==,!new)>(s: seq<T>): (r: seq<T>)
    ensures |r| <= |s|
    ensures forall x :: x in r <==> x in s
    ensures Distinct(r)
    ensures forall i, j :: 0 <= i < j < |r| ==> IndexIn(s, r[i]) < IndexIn(s, r[j])
  {
    if s == [] then []
    else
      var init := s[..|s| - 1];
      var last := s[|s| - 1];
      var d := Dedup(init);
      assert s == init + [last];
      forall x | x in init ensures IndexIn(s, x) == IndexIn(init, x) {
        IndexInSnoc(init, last, x);
      }
      if last in init then d
      else
        assert IndexIn(s, last) == |s| - 1;
        d + [last]
  }

  /** A list without repetitions is its own deduplication. */
  lemma {:induction false} DedupDistinct<T(!new)>(s: seq<T>)
    requires Distinct(s)
    ensures Dedup(s) == s
  {
    if s != [] {
      var init := s[..|s| - 1];
      assert Distinct(init);
      DedupDistinct(init);
      assert s[|s| - 1] !in init;
      assert s == init + [s[|s| - 1]];
    }
  }

  /** `s[:n]` / `s.slice(0, n)`. */
  function Prefix<T>(s: seq<T>, n: nat): (r: seq<T>)
    ensures |r| == if n < |s| then n else |s|
    ensures r == s[..|r|]
  {
    if n < |s| then s[..n] else s
  }
}
