/** The fragment of Python's `re` that the backend's patterns use: literals,
    `\d`, `\s`, `\S` and bracketed classes with bounded or unbounded greedy
    repetition, concatenation, alternation, a greedy `?` and `\b`. A pattern
    is matched by backtracking, as `re` does: `Ends` lists the positions a
    match starting at i can end at, in the order the engine tries them, so
    the first one is the match `re` reports. */
module PyRe {
  import opened Wrappers
  import opened Text
  import opened Subseqs

  datatype Class = Digit | Blank | NonBlank | AsciiAlnum | OneOf(cs: set<char>)

  predicate InClass(c: char, k: Class) {
    match k
    case Digit => IsDigit(c)
    case Blank => PySpace(c)
    case NonBlank => !PySpace(c)
    case AsciiAlnum => AsciiLetter(c) || IsDigit(c)
    case OneOf(cs) => c in cs
  }

  datatype Re =
    | Lit(w: string)
    | Run(k: Class, lo: nat, hi: Option<nat>)   // k{lo,hi}, greedy; hi None is unbounded
    | Cat(a: Re, b: Re)
    | Alt(a: Re, b: Re)
    | Opt(a: Re)                                 // a?, greedy
    | WordB                                      // \b

  /** `\s+`, `\d+` and a one-character class. */
  const Spaces: Re := Run(Blank, 1, None)
  const Digits: Re := Run(Digit, 1, None)
  function One(cs: set<char>): Re { Run(OneOf(cs), 1, Some(1)) }

  /** Words separated by `\s+`, as in `pasado\s+mañana`. */
  function Phrase(words: seq<string>): (r: Re)
    requires words != []
    decreases |words|
  {
    if |words| == 1 then Lit(words[0]) else Cat(Lit(words[0]), Cat(Spaces, Phrase(words[1..])))
  }

  /** `(r0|r1|...)`: the alternatives in order. */
  function Alts(rs: seq<Re>): (r: Re)
    requires rs != []
    decreases |rs|
  {
    if |rs| == 1 then rs[0] else Alt(rs[0], Alts(rs[1..]))
  }

  /** `(w0|w1|...)` over plain words. */
  function WordAlts(ws: seq<string>): (r: Re)
    requires ws != []
    decreases |ws|
  {
    if |ws| == 1 then Lit(ws[0]) else Alt(Lit(ws[0]), WordAlts(ws[1..]))
  }

  /** `\b(...)\b` */
  function Whole(r: Re): Re { Cat(WordB, Cat(r, WordB)) }

  /** The length of the run of class-k characters at i, capped at hi. */
  function RunLen(k: Class, s: string, i: nat, hi: Option<nat>): (n: nat)
    requires i <= |s|
    ensures i + n <= |s|
    ensures forall j :: i <= j < i + n ==> InClass(s[j], k)
    ensures i + n < |s| && (hi.None? || n < hi.value) ==> !InClass(s[i + n], k)
    ensures hi.Some? ==> n <= hi.value
    decreases |s| - i
  {
    if i == |s| || !InClass(s[i], k) || (hi.Some? && hi.value == 0) then 0
    else 1 + RunLen(k, s, i + 1, if hi.Some? then Some(hi.value - 1) else None)
  }

  /** [hi, hi - 1, ..., lo]: a greedy repetition gives back one character
      at a time. */
  function Down(hi: nat, lo: nat): (r: seq<nat>)
    requires lo <= hi
    ensures |r| == hi - lo + 1
    ensures forall j :: 0 <= j < |r| ==> r[j] == hi - j
    decreases hi - lo
  {
    if hi == lo then [hi] else [hi] + Down(hi - 1, lo)
  }

  /** Where a match of re starting at i can end, in the engine's order. */
  function Ends(re: Re, s: string, i: nat): (r: seq<nat>)
    requires i <= |s|
    ensures forall j :: 0 <= j < |r| ==> i <= r[j] <= |s|
    decreases re, 0, 0
  {
    match re
    case Lit(w) => if i + |w| <= |s| && s[i..i + |w|] == w then [i + |w|] else []
    case Run(k, lo, hi) =>
      var n := RunLen(k, s, i, hi);
      if n < lo then [] else Down(i + n, i + lo)
    case Cat(a, b) => CatEnds(b, s, i, Ends(a, s, i))
    case Alt(a, b) => Ends(a, s, i) + Ends(b, s, i)
    case Opt(a) => Ends(a, s, i) + [i]
    case WordB => if Boundary(Py, s, i) then [i] else []
  }

  /** For each end of the first part, in order, the ends of the second part
      continuing from there. */
  function CatEnds(b: Re, s: string, i: nat, js: seq<nat>): (r: seq<nat>)
    requires forall j :: 0 <= j < |js| ==> i <= js[j] <= |s|
    ensures forall j :: 0 <= j < |r| ==> i <= r[j] <= |s|
    decreases b, 1, |js|
  {
    if js == [] then [] else Ends(b, s, js[0]) + CatEnds(b, s, i, js[1..])
  }

  /** The first end of a continuation is the first end of b from the
      earliest start it can continue from. */
  lemma {:induction false} CatEndsFirst(b: Re, s: string, i: nat, js: seq<nat>)
    requires forall j :: 0 <= j < |js| ==> i <= js[j] <= |s|
    requires CatEnds(b, s, i, js) != []
    ensures exists k :: 0 <= k < |js| && Ends(b, s, js[k]) != [] && CatEnds(b, s, i, js)[0] == Ends(b, s, js[k])[0]
    decreases |js|
  {
    if Ends(b, s, js[0]) == [] {
      CatEndsFirst(b, s, i, js[1..]);
      var k :| 0 <= k < |js[1..]| && Ends(b, s, js[1..][k]) != [] && CatEnds(b, s, i, js[1..])[0] == Ends(b, s, js[1..][k])[0];
      assert js[1..][k] == js[k + 1];
    }
  }

  /** A greedy unbounded run ends first where the class stops. */
  lemma RunFirstMaximal(k: Class, lo: nat, s: string, m: nat)
    requires m <= |s| && Ends(Run(k, lo, None), s, m) != []
    ensures var e := Ends(Run(k, lo, None), s, m)[0]; e == |s| || !InClass(s[e], k)
  {
  }

  /** The end of the match of re at i, as `re.match` at that position finds it. */
  function MatchAt(re: Re, s: string, i: nat): (r: Option<nat>)
    requires i <= |s|
    ensures r.Some? <==> Ends(re, s, i) != []
    ensures r.Some? ==> r.value == Ends(re, s, i)[0] && i <= r.value <= |s|
  {
    var e := Ends(re, s, i);
    if e == [] then None else Some(e[0])
  }

  /** `re.sub(re, rep, s[i:])` scanning the original text from i: every
      leftmost match is replaced, an empty match inserts rep and keeps the
      next character. */
  function Sub(re: Re, rep: string, s: string, i: nat): (r: string)
    requires i <= |s|
    decreases |s| - i, 0
  {
    if i == |s| then (if MatchAt(re, s, i).Some? then rep else [])
    else
      match MatchAt(re, s, i)
      case None => [s[i]] + Sub(re, rep, s, i + 1)
      case Some(e) => if e > i then rep + Sub(re, rep, s, e) else rep + [s[i]] + Sub(re, rep, s, i + 1)
  }

  /** `re.sub(re, rep, s)` */
  function SubAll(re: Re, rep: string, s: string): string {
    Sub(re, rep, s, 0)
  }

  /** `re.search(re, s)`: the first position where a match starts, with its end. */
  function SearchFrom(re: Re, s: string, i: nat): (r: Option<(nat, nat)>)
    requires i <= |s|
    ensures r.None? <==> forall j :: i <= j <= |s| ==> MatchAt(re, s, j).None?
    ensures r.Some? ==> i <= r.value.0 <= |s| && MatchAt(re, s, r.value.0) == Some(r.value.1)
    ensures r.Some? ==> forall j :: i <= j < r.value.0 ==> MatchAt(re, s, j).None?
    decreases |s| - i
  {
    match MatchAt(re, s, i)
    case Some(e) => Some((i, e))
    case None => if i == |s| then None else SearchFrom(re, s, i + 1)
  }

  function Search(re: Re, s: string): (r: Option<(nat, nat)>)
    ensures r.None? <==> forall j :: 0 <= j <= |s| ==> MatchAt(re, s, j).None?
    ensures r.Some? ==> r.value.0 <= r.value.1 <= |s| && MatchAt(re, s, r.value.0) == Some(r.value.1)
    ensures r.Some? ==> forall j :: 0 <= j < r.value.0 ==> MatchAt(re, s, j).None?
  {
    SearchFrom(re, s, 0)
  }

  // ---------------------------------------------------------------------------
  // Facts about substitution
  // ---------------------------------------------------------------------------

  /** Where nothing matches, substitution copies the text. */
  lemma {:induction false} SubNoMatch(re: Re, rep: string, s: string, i: nat)
    requires i <= |s|
    requires forall j :: i <= j <= |s| ==> MatchAt(re, s, j).None?
    ensures Sub(re, rep, s, i) == s[i..]
    decreases |s| - i
  {
    if i < |s| {
      SubNoMatch(re, rep, s, i + 1);
      assert s[i..] == [s[i]] + s[i + 1..];
    }
  }

  /** A pattern that starts with `\b` finds nothing in the empty text. */
  lemma SubEmpty(r: Re, rep: string)
    ensures SubAll(Cat(WordB, r), rep, "") == ""
  {
    assert Ends(WordB, "", 0) == [];
    assert Ends(Cat(WordB, r), "", 0) == CatEnds(r, "", 0, []);
  }

  /** Continuing from a single position. */
  lemma CatOne(b: Re, s: string, i: nat, j: nat)
    requires i <= j <= |s|
    ensures CatEnds(b, s, i, [j]) == Ends(b, s, j)
  {
    assert CatEnds(b, s, i, [j]) == Ends(b, s, j) + CatEnds(b, s, i, []);
  }

  /** `\bw\b` for a word w matches at i exactly when w is there with word
      boundaries on both sides, and the match covers w. */
  lemma WholeWordAt(w: string, s: string, i: nat)
    requires i <= |s| && w != []
    ensures MatchAt(Whole(Lit(w)), s, i).Some?
        <==> (Boundary(Py, s, i) && i + |w| <= |s| && s[i..i + |w|] == w && Boundary(Py, s, i + |w|))
    ensures MatchAt(Whole(Lit(w)), s, i).Some? ==> MatchAt(Whole(Lit(w)), s, i).value == i + |w|
  {
    var lit := i + |w| <= |s| && s[i..i + |w|] == w;
    var after: seq<nat> := if lit then Ends(WordB, s, i + |w|) else [];
    InnerEnds(w, s, i);
    if Boundary(Py, s, i) {
      CatOne(Cat(Lit(w), WordB), s, i, i);
    }
    assert Ends(Whole(Lit(w)), s, i) == (if Boundary(Py, s, i) then after else []);
  }

  lemma InnerEnds(w: string, s: string, i: nat)
    requires i <= |s|
    ensures Ends(Cat(Lit(w), WordB), s, i)
         == (if i + |w| <= |s| && s[i..i + |w|] == w then Ends(WordB, s, i + |w|) else [])
  {
    if i + |w| <= |s| && s[i..i + |w|] == w {
      CatOne(WordB, s, i, i + |w|);
    }
  }

  /** w at i of s, with a word boundary on both sides. */
  predicate WordAt(w: string, s: string, i: nat) {
    i + |w| <= |s| && Boundary(Py, s, i) && s[i..i + |w|] == w && Boundary(Py, s, i + |w|)
  }

  /** `re.search(r"\bw\b", s)` finds something exactly when w occurs in s
      as a whole word. */
  lemma WholeWordSearch(w: string, s: string)
    requires w != []
    ensures Search(Whole(Lit(w)), s).Some? <==> exists i :: 0 <= i <= |s| && WordAt(w, s, i)
  {
    forall i | 0 <= i <= |s| ensures MatchAt(Whole(Lit(w)), s, i).Some? <==> WordAt(w, s, i) {
      WholeWordAt(w, s, i);
    }
  }

  // ---------------------------------------------------------------------------
  // Substituting nothing deletes
  // ---------------------------------------------------------------------------

  /** Where nothing matches at two positions, both characters are kept. */
  lemma {:induction false} SubKeepTwo(re: Re, s: string, i: nat)
    requires i + 2 <= |s| && MatchAt(re, s, i).None? && MatchAt(re, s, i + 1).None?
    ensures Sub(re, "", s, i) == [s[i], s[i + 1]] + Sub(re, "", s, i + 2)
  {
    var x := Sub(re, "", s, i + 2);
    SubKeepNone(re, s, i + 1);
    SubKeepNone(re, s, i);
    assert [s[i]] + ([s[i + 1]] + x) == [s[i], s[i + 1]] + x;
  }

  /** A match of some length is skipped by the substitution. */
  lemma SubSkip(re: Re, s: string, i: nat)
    requires i < |s| && MatchAt(re, s, i).Some? && MatchAt(re, s, i).value > i
    ensures Sub(re, "", s, i) == Sub(re, "", s, MatchAt(re, s, i).value)
  {
    var e := MatchAt(re, s, i).value;
    assert "" + Sub(re, "", s, e) == Sub(re, "", s, e);
  }

  /** Where nothing matches, the character is kept. */
  lemma SubKeepNone(re: Re, s: string, i: nat)
    requires i < |s| && MatchAt(re, s, i).None?
    ensures Sub(re, "", s, i) == [s[i]] + Sub(re, "", s, i + 1)
  {
  }

  /** Where only the empty text matches, nothing is inserted and the
      character is kept. */
  lemma SubKeepEmpty(re: Re, s: string, i: nat)
    requires i < |s| && MatchAt(re, s, i) == Some(i)
    ensures Sub(re, "", s, i) == [s[i]] + Sub(re, "", s, i + 1)
  {
    assert "" + [s[i]] + Sub(re, "", s, i + 1) == [s[i]] + Sub(re, "", s, i + 1);
  }

  /** Skipping a match keeps the result a subsequence. */
  lemma SkipCase(s: string, i: nat, e: nat, x: string)
    requires i < e <= |s| && IsSubseq(x, s[e..])
    ensures IsSubseq(x, s[i..])
  {
    assert s[e..] == s[i..][e - i..];
    SubseqDrop(x, s[i..], e - i);
  }

  /** Keeping a character keeps the result a subsequence. */
  lemma KeepCase(s: string, i: nat, x: string)
    requires i < |s| && IsSubseq(x, s[i + 1..])
    ensures IsSubseq([s[i]] + x, s[i..])
  {
    assert s[i..] == [s[i]] + s[i + 1..];
    SubseqCons(s[i], x, s[i + 1..]);
  }

  /** Substituting nothing for the matches only deletes characters. */
  lemma {:induction false} DeleteIsSubseq(re: Re, s: string, i: nat)
    requires i <= |s|
    ensures IsSubseq(Sub(re, "", s, i), s[i..])
    decreases |s| - i
  {
    if i < |s| {
      var m := MatchAt(re, s, i);
      if m.Some? && m.value > i {
        SubSkip(re, s, i);
        DeleteIsSubseq(re, s, m.value);
        SkipCase(s, i, m.value, Sub(re, "", s, m.value));
      } else {
        if m.None? { SubKeepNone(re, s, i); } else { SubKeepEmpty(re, s, i); }
        DeleteIsSubseq(re, s, i + 1);
        KeepCase(s, i, Sub(re, "", s, i + 1));
      }
    }
  }
}
