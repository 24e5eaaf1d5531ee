/** String helpers shared across the whole model: character classes, case mapping,
    prefix and substring tests, stripping, whitespace collapsing, word
    splitting and joining, literal replacement and decimal numbers.
    Strings are sequences of Unicode code points, as in Python 3. */
module Text {
  import opened Wrappers
  import Seqs

  // ---------------------------------------------------------------------------
  // Character classes
  // ---------------------------------------------------------------------------

  /** The Unicode space separators both dialects treat as whitespace:
      U+00A0, U+1680, U+2000 to U+200A, U+202F, U+205F and U+3000. */
  predicate UnicodeSpace(c: char) {
    c == '\U{A0}' || c == '\U{1680}' || ('\U{2000}' <= c <= '\U{200A}')
    || c == '\U{202F}' || c == '\U{205F}' || c == '\U{3000}'
  }

  /** Python's whitespace (`str.isspace`, `str.split()`, `str.strip()` and `\s`):
      tab to carriage return, U+001C to U+001F, U+0085, the line and paragraph
      separators U+2028 and U+2029, and the space separators. */
  predicate PySpace(c: char) {
    c == ' ' || ('\t' <= c <= '\r') || ('\U{1C}' <= c <= '\U{1F}') || c == '\U{85}'
    || c == '\U{2028}' || c == '\U{2029}' || UnicodeSpace(c)
  }

  /** JavaScript's whitespace (`\s` and `String.prototype.trim`): tab to
      carriage return, the byte-order mark U+FEFF, the line and paragraph
      separators and the space separators. */
  predicate JsSpace(c: char) {
    c == ' ' || ('\t' <= c <= '\r') || c == '\U{FEFF}'
    || c == '\U{2028}' || c == '\U{2029}' || UnicodeSpace(c)
  }

  predicate IsDigit(c: char) { '0' <= c <= '9' }

  predicate AsciiLetter(c: char) { ('a' <= c <= 'z') || ('A' <= c <= 'Z') }

  /** JavaScript's `\w` (no `u` flag): ASCII letters, digits and underscore. */
  predicate JsWord(c: char) { AsciiLetter(c) || IsDigit(c) || c == '_' }

  /** Python's `\w` on str patterns, restricted to Latin scripts:
      ASCII word characters plus the Latin-1 and Latin Extended-A letters. */
  predicate PyWord(c: char) {
    JsWord(c) || c == 'ª' || c == 'µ' || c == 'º'
    || ('À' <= c <= 'Ö') || ('Ø' <= c <= 'ö')
    || ('ø' <= c <= 'ſ')
  }

  /** The regular-expression dialect: it decides what `\s` and `\w` mean. */
  datatype Flavor = Py | Js

  predicate Space(f: Flavor, c: char) {
    if f == Py then PySpace(c) else JsSpace(c)
  }

  predicate Word(f: Flavor, c: char) {
    if f == Py then PyWord(c) else JsWord(c)
  }

  /** `\b` at position i of s. */
  predicate Boundary(f: Flavor, s: string, i: nat)
    requires i <= |s|
  {
    (i > 0 && Word(f, s[i - 1])) != (i < |s| && Word(f, s[i]))
  }

  /** The character sets the model strips or collapses: a dialect's whitespace,
      or an explicit set such as Python's `strip(" -:,.")`. */
  datatype CharSet = White(f: Flavor) | Chars(cs: set<char>)

  predicate In(c: char, cs: CharSet) {
    match cs
    case White(f) => Space(f, c)
    case Chars(set_) => c in set_
  }

  // ---------------------------------------------------------------------------
  // Case mapping (ASCII and Latin-1)
  // ---------------------------------------------------------------------------

  function Lower(c: char): (r: char)
    ensures ('A' <= c <= 'Z') ==> r as int == c as int + 32
    ensures !('A' <= c <= 'Z') && !('À' <= c <= 'Þ') ==> r == c
  {
    if 'A' <= c <= 'Z' then (c as int + 32) as char
    else if 'À' <= c <= 'Þ' && c != '×' then (c as int + 32) as char
    else c
  }

  function Upper(c: char): (r: char)
    ensures ('a' <= c <= 'z') ==> r as int == c as int - 32
  {
    if 'a' <= c <= 'z' then (c as int - 32) as char
    else if 'à' <= c <= 'þ' && c != '÷' then (c as int - 32) as char
    else c
  }

  /** `str.lower()` / `String.prototype.toLowerCase()`. */
  function LowerStr(s: string): (r: string)
    ensures |r| == |s|
    ensures forall i :: 0 <= i < |s| ==> r[i] == Lower(s[i])
  {
    if s == [] then [] else [Lower(s[0])] + LowerStr(s[1..])
  }

  /** A text without upper-case letters is its own lower case. */
  lemma LowerFixed(s: string)
    requires forall i :: 0 <= i < |s| ==> !('A' <= s[i] <= 'Z') && !('À' <= s[i] <= 'Þ')
    ensures LowerStr(s) == s
  {
    assert forall i :: 0 <= i < |s| ==> LowerStr(s)[i] == s[i];
  }

  /** Upper-cases the first character and keeps the rest (`t[0].upper() + t[1:]`). */
  function Capitalize(s: string): (r: string)
    ensures |r| == |s|
    ensures s != [] ==> r[0] == Upper(s[0]) && r[1..] == s[1..]
  {
    if s == [] then [] else [Upper(s[0])] + s[1..]
  }

  // ---------------------------------------------------------------------------
  // Prefixes, suffixes, substrings
  // ---------------------------------------------------------------------------

  predicate StartsWith(s: string, p: string) {
    |p| <= |s| && s[..|p|] == p
  }

  predicate EndsWith(s: string, p: string) {
    |p| <= |s| && s[|s| - |p|..] == p
  }

  /** `s.startsWith(p)` for a literal p of two to five characters, tested one
      character at a time. */
  predicate Starts2(s: string, a: char, b: char) {
    |s| >= 2 && s[0] == a && s[1] == b
  }

  predicate Starts3(s: string, a: char, b: char, c: char) {
    |s| >= 3 && s[0] == a && s[1] == b && s[2] == c
  }

  predicate Starts4(s: string, a: char, b: char, c: char, d: char) {
    |s| >= 4 && s[0] == a && s[1] == b && s[2] == c && s[3] == d
  }

  predicate Starts5(s: string, a: char, b: char, c: char, d: char, e: char) {
    |s| >= 5 && s[0] == a && s[1] == b && s[2] == c && s[3] == d && s[4] == e
  }

  /** One differing character rules a prefix out. */
  lemma NotStartsWith(s: string, p: string, i: nat)
    requires i < |p| && i < |s| && s[i] != p[i]
    ensures !StartsWith(s, p)
  {
    assert |p| <= |s| ==> s[..|p|][i] == s[i];
  }

  /** `sub in s` / `s.includes(sub)`. */
  predicate Contains(s: string, sub: string)
    decreases |s|
  {
    StartsWith(s, sub) || (s != [] && Contains(s[1..], sub))
  }

  /** Any of the keywords occurs in s (`any(k in s for k in keys)`). */
  predicate ContainsAny(s: string, keys: seq<string>) {
    exists k :: k in keys && Contains(s, k)
  }

  /** `s.rfind(c)`: the last position holding c, if any. */
  function LastIndex(s: string, c: char): (r: Option<nat>)
    ensures r.Some? ==> r.value < |s| && s[r.value] == c && forall j :: r.value < j < |s| ==> s[j] != c
    ensures r.None? <==> forall j :: 0 <= j < |s| ==> s[j] != c
  {
    if s == [] then None
    else if s[|s| - 1] == c then Some(|s| - 1)
    else LastIndex(s[..|s| - 1], c)
  }

  /** The index of the first occurrence of sub at or after position 0 (`str.find`). */
  function IndexOf(s: string, sub: string): (r: Option<nat>)
    ensures r.Some? ==> r.value + |sub| <= |s| && s[r.value..r.value + |sub|] == sub
    ensures r.Some? ==> forall j :: 0 <= j < r.value ==> !StartsWith(s[j..], sub)
    ensures r.None? <==> !Contains(s, sub)
    decreases |s|
  {
    if StartsWith(s, sub) then Some(0)
    else if s == [] then None
    else match IndexOf(s[1..], sub)
      case None => None
      case Some(k) =>
        assert forall j :: 1 <= j < k + 1 ==> s[j..] == s[1..][j - 1..];
        Some(k + 1)
  }

  /** The index of the first c in s (`s.indexOf(c)`), if any. */
  function FirstIndex(s: string, c: char): (r: Option<nat>)
    ensures r.Some? ==> r.value < |s| && s[r.value] == c && c !in s[..r.value]
    ensures r.None? ==> c !in s
  {
    if s == [] then None
    else if s[0] == c then Some(0)
    else match FirstIndex(s[1..], c)
      case None => None
      case Some(k) =>
        assert s[..k + 1] == [s[0]] + s[1..][..k];
        Some(k + 1)
  }

  /** The first c of x + rest is rest's first character when x holds no c. */
  lemma FirstIndexAfter(x: string, c: char, rest: string)
    requires c !in x && rest != [] && rest[0] == c
    ensures FirstIndex(x + rest, c) == Some(|x|)
    decreases |x|
  {
    if x == [] {
      assert x + rest == rest;
    } else {
      assert (x + rest)[1..] == x[1..] + rest;
      FirstIndexAfter(x[1..], c, rest);
    }
  }

  /** A string without c has no first c. */
  lemma FirstIndexAbsent(s: string, c: char)
    requires c !in s
    ensures FirstIndex(s, c) == None
  {
  }

  /** The index of the first c in s at or after position i (`s.indexOf(c, i)`).
      Searching by position rather than on a suffix keeps proofs about a
      match inside a longer text free of slices. */
  function FirstIndexFrom(s: string, i: nat, c: char): (r: Option<nat>)
    requires i <= |s|
    ensures r.Some? ==> i <= r.value < |s| && s[r.value] == c
    decreases |s| - i
  {
    if i == |s| then None
    else if s[i] == c then Some(i)
    else FirstIndexFrom(s, i + 1, c)
  }

  /** The search from i finds k exactly when k holds c and nothing from i up to k does. */
  lemma {:induction false} FirstIndexFromIs(s: string, i: nat, c: char, k: nat)
    requires i <= k < |s| && s[k] == c
    requires forall j :: i <= j < k ==> s[j] != c
    ensures FirstIndexFrom(s, i, c) == Some(k)
    decreases k - i
  {
    if i < k {
      FirstIndexFromIs(s, i + 1, c, k);
    }
  }

  lemma {:induction false} FirstIndexFromSkips(s: string, i: nat, c: char)
    requires i <= |s| && FirstIndexFrom(s, i, c).Some?
    ensures forall j :: i <= j < FirstIndexFrom(s, i, c).value ==> s[j] != c
    decreases |s| - i
  {
    if s[i] != c {
      FirstIndexFromSkips(s, i + 1, c);
    }
  }

  lemma {:induction false} FirstIndexFromNone(s: string, i: nat, c: char)
    requires i <= |s| && forall j :: i <= j < |s| ==> s[j] != c
    ensures FirstIndexFrom(s, i, c) == None
    decreases |s| - i
  {
    if i < |s| {
      FirstIndexFromNone(s, i + 1, c);
    }
  }

  /** A string that contains sub contains sub's first character. */
  lemma ContainsFirstChar(s: string, sub: string)
    requires sub != [] && Contains(s, sub)
    ensures sub[0] in s
    decreases |s|
  {
    if StartsWith(s, sub) {
      assert s[0] == sub[0];
    } else {
      ContainsFirstChar(s[1..], sub);
    }
  }

  lemma ContainsAt(s: string, sub: string, i: nat)
    requires i + |sub| <= |s| && s[i..i + |sub|] == sub
    ensures Contains(s, sub)
    decreases i
  {
    if i > 0 {
      assert s[1..][i - 1..i - 1 + |sub|] == sub;
      ContainsAt(s[1..], sub, i - 1);
    }
  }

  lemma ContainsPrefix(s: string, t: string, sub: string)
    requires Contains(s, sub)
    ensures Contains(s + t, sub)
    decreases |s|
  {
    if StartsWith(s, sub) {
      assert (s + t)[..|sub|] == s[..|sub|];
    } else {
      assert (s + t)[1..] == s[1..] + t;
      ContainsPrefix(s[1..], t, sub);
    }
  }

  lemma ContainsSuffix(s: string, t: string, sub: string)
    requires Contains(t, sub)
    ensures Contains(s + t, sub)
    decreases |s|
  {
    if s != [] {
      assert (s + t)[1..] == s[1..] + t;
      ContainsSuffix(s[1..], t, sub);
    } else {
      assert s + t == t;
    }
  }

  // ---------------------------------------------------------------------------
  // Stripping
  // ---------------------------------------------------------------------------

  /** Drops the leading characters that satisfy drop (`lstrip`). */
  function StripLeft(s: string, drop: CharSet): (r: string)
    ensures |r| <= |s| && r == s[|s| - |r|..]
    ensures r == [] || !In(r[0], drop)
    ensures forall i :: 0 <= i < |s| - |r| ==> In(s[i], drop)
    ensures s != [] && In(s[0], drop) ==> |r| < |s|
  {
    if s != [] && In(s[0], drop) then StripLeft(s[1..], drop) else s
  }

  /** Drops the trailing characters that satisfy drop (`rstrip`). */
  function StripRight(s: string, drop: CharSet): (r: string)
    ensures |r| <= |s| && r == s[..|r|]
    ensures r == [] || !In(r[|r| - 1], drop)
    ensures forall i :: |r| <= i < |s| ==> In(s[i], drop)
  {
    if s != [] && In(s[|s| - 1], drop) then StripRight(s[..|s| - 1], drop) else s
  }

  /** `strip`: both ends. */
  function Strip(s: string, drop: CharSet): (r: string)
    ensures r == [] || (!In(r[0], drop) && !In(r[|r| - 1], drop))
    ensures |r| <= |s|
  {
    StripRight(StripLeft(s, drop), drop)
  }

  /** Stripping a text whose first character stays keeps its first k
      characters when the k-th stays too. */
  lemma StripKeepsHead(s: string, drop: CharSet, k: nat)
    requires 0 < k <= |s| && !In(s[0], drop) && !In(s[k - 1], drop)
    ensures |Strip(s, drop)| >= k && Strip(s, drop)[..k] == s[..k]
  {
    assert StripLeft(s, drop) == s;
  }

  /** Stripping removes a final line break after a text whose ends stay. */
  lemma StripLastBreak(s: string, drop: CharSet)
    requires s != [] && !In(s[0], drop) && !In(s[|s| - 1], drop) && In('\n', drop)
    ensures Strip(s + "\n", drop) == s
  {
    assert StripLeft(s + "\n", drop) == s + "\n";
    assert (s + "\n")[..|s|] == s;
  }

  /** Python `s.strip()`. */
  function PyStrip(s: string): (r: string)
    ensures r == [] || (!PySpace(r[0]) && !PySpace(r[|r| - 1]))
  {
    Strip(s, White(Py))
  }

  /** JavaScript `s.trim()`. */
  function JsTrim(s: string): (r: string)
    ensures r == [] || (!JsSpace(r[0]) && !JsSpace(r[|r| - 1]))
  {
    Strip(s, White(Js))
  }

  /** Stripping a text whose ends are kept changes nothing. */
  lemma StripKept(s: string, drop: CharSet)
    requires s == [] || (!In(s[0], drop) && !In(s[|s| - 1], drop))
    ensures Strip(s, drop) == s
  {
    assert StripLeft(s, drop) == s;
  }

  /** A string is blank when stripping leaves nothing. */
  lemma StripEmptyIff(s: string, drop: CharSet)
    ensures Strip(s, drop) == [] <==> forall i :: 0 <= i < |s| ==> In(s[i], drop)
  {
    var l := StripLeft(s, drop);
    if l != [] {
      assert !In(s[|s| - |l|], drop);
    }
  }

  // ---------------------------------------------------------------------------
  // Whitespace collapsing, words
  // ---------------------------------------------------------------------------

  /** Replaces every maximal run of space characters by one ' ' (`re.sub(r"\s+", " ", s)`). */
  function Collapse(s: string, space: CharSet): (r: string)
    requires In(' ', space)
    ensures |r| <= |s|
    ensures s != [] && !In(s[0], space) ==> r != [] && r[0] == s[0]
    ensures s != [] && In(s[0], space) ==> r != [] && r[0] == ' '
    ensures s == [] <==> r == []
    decreases |s|
  {
    if s == [] then []
    else if In(s[0], space) then " " + Collapse(StripLeft(s, space), space)
    else [s[0]] + Collapse(s[1..], space)
  }

  /** No two neighbouring characters are both spaces. */
  predicate NoDoubleSpace(s: string, space: CharSet) {
    forall i :: 0 <= i < |s| - 1 ==> !(In(s[i], space) && In(s[i + 1], space))
  }

  /** The subsequence of characters that do not satisfy drop. */
  function Keep(s: string, drop: CharSet): (r: string)
    ensures |r| <= |s|
  {
    if s == [] then [] else (if In(s[0], drop) then [] else [s[0]]) + Keep(s[1..], drop)
  }

  lemma {:induction false} KeepConcat(a: string, b: string, drop: CharSet)
    ensures Keep(a + b, drop) == Keep(a, drop) + Keep(b, drop)
    decreases |a|
  {
    if a == [] {
      Seqs.EmptyJoin(a, b);
      Seqs.EmptyJoin(Keep(a, drop), Keep(b, drop));
    } else {
      Seqs.ConsSplit(a, b);
      KeepConcat(a[1..], b, drop);
      KeepCons(a + b, drop);
      KeepCons(a, drop);
      Seqs.Assoc(if In(a[0], drop) then [] else [a[0]], Keep(a[1..], drop), Keep(b, drop));
    }
  }

  lemma KeepCons(s: string, drop: CharSet)
    requires s != []
    ensures Keep(s, drop) == (if In(s[0], drop) then [] else [s[0]]) + Keep(s[1..], drop)
  {
  }

  /** Collapsing leaves no two neighbouring spaces. */
  lemma {:induction false} CollapseNoDouble(s: string, space: CharSet)
    requires In(' ', space)
    ensures NoDoubleSpace(Collapse(s, space), space)
    decreases |s|
  {
    if s != [] {
      var t := if In(s[0], space) then StripLeft(s, space) else s[1..];
      CollapseNoDouble(t, space);
      NoDoubleCons(if In(s[0], space) then ' ' else s[0], Collapse(t, space), space);
    }
  }

  /** One more character in front keeps neighbouring spaces apart when it is
      not a space or the text it precedes does not start with one. */
  lemma NoDoubleCons(c: char, r: string, space: CharSet)
    requires NoDoubleSpace(r, space) && (r == [] || !In(c, space) || !In(r[0], space))
    ensures NoDoubleSpace([c] + r, space)
  {
    var s := [c] + r;
    forall i | 0 <= i < |s| - 1
      ensures !(In(s[i], space) && In(s[i + 1], space))
    {
      if i > 0 {
        assert s[i] == r[i - 1] && s[i + 1] == r[i];
      }
    }
  }

  /** Every space character that collapsing writes is ' '. */
  lemma {:induction false} CollapseBlanks(s: string, space: CharSet)
    requires In(' ', space)
    ensures forall i :: 0 <= i < |Collapse(s, space)| && In(Collapse(s, space)[i], space) ==> Collapse(s, space)[i] == ' '
    decreases |s|
  {
    if s == [] {
    } else if In(s[0], space) {
      var t := StripLeft(s, space);
      CollapseBlanks(t, space);
      assert Collapse(s, space) == " " + Collapse(t, space);
    } else {
      CollapseBlanks(s[1..], space);
      assert Collapse(s, space) == [s[0]] + Collapse(s[1..], space);
    }
  }

  /** Collapsing keeps the non-space characters, in order. */
  lemma {:induction false} CollapseKeeps(s: string, space: CharSet)
    requires In(' ', space)
    ensures Keep(Collapse(s, space), space) == Keep(s, space)
    decreases |s|
  {
    if s == [] {
    } else if In(s[0], space) {
      var t := StripLeft(s, space);
      CollapseKeeps(t, space);
      KeepSpaceRun(s, space);
      KeepConcat(" ", Collapse(t, space), space);
    } else {
      CollapseKeeps(s[1..], space);
      KeepConcat([s[0]], Collapse(s[1..], space), space);
      assert s == [s[0]] + s[1..];
      KeepConcat([s[0]], s[1..], space);
    }
  }

  /** Dropping a leading run of spaces does not change what Keep keeps. */
  lemma {:induction false} KeepSpaceRun(s: string, space: CharSet)
    ensures Keep(StripLeft(s, space), space) == Keep(s, space)
    decreases |s|
  {
    if s != [] && In(s[0], space) {
      KeepSpaceRun(s[1..], space);
      KeepCons(s, space);
      Seqs.EmptyJoin([], Keep(s[1..], space));
    }
  }

  /** The length of the longest prefix of characters that are not spaces. */
  function WordLen(s: string, space: CharSet): (n: nat)
    ensures n <= |s|
    ensures forall i :: 0 <= i < n ==> !In(s[i], space)
    ensures n < |s| ==> In(s[n], space)
  {
    if s == [] || In(s[0], space) then 0 else 1 + WordLen(s[1..], space)
  }

  /** A word: non-empty, with no spaces. */
  predicate IsWord(w: string) {
    w != [] && forall i :: 0 <= i < |w| ==> !PySpace(w[i])
  }

  /** Python `s.split()`: the maximal runs of non-space characters, in order. */
  function Words(s: string): (ws: seq<string>)
    decreases |s|
  {
    var t := StripLeft(s, White(Py));
    if t == [] then []
    else
      var n := WordLen(t, White(Py));
      assert n > 0;
      [t[..n]] + Words(t[n..])
  }

  /** A non-empty run of non-space characters is a word. */
  lemma WordLenWord(t: string)
    requires t != [] && !PySpace(t[0])
    ensures IsWord(t[..WordLen(t, White(Py))])
  {
    var n := WordLen(t, White(Py));
    var w := t[..n];
    forall i | 0 <= i < |w| ensures !PySpace(w[i]) {
      assert w[i] == t[i] && !In(t[i], White(Py));
    }
  }

  /** Every piece `split()` returns is a word. */
  lemma {:induction false} WordsAreWords(s: string)
    ensures forall k :: 0 <= k < |Words(s)| ==> IsWord(Words(s)[k])
    decreases |s|
  {
    var t := StripLeft(s, White(Py));
    if t != [] {
      var n := WordLen(t, White(Py));
      var w := t[..n];
      WordLenWord(t);
      var rest := Words(t[n..]);
      WordsAreWords(t[n..]);
      var ws := Words(s);
      assert ws == [w] + rest;
      forall k | 0 <= k < |ws| ensures IsWord(ws[k]) {
        if k > 0 {
          assert ws[k] == rest[k - 1];
        }
      }
    }
  }

  /** `sep.join(parts)`. */
  function Join(sep: string, parts: seq<string>): (r: string)
  {
    if |parts| == 0 then ""
    else if |parts| == 1 then parts[0]
    else parts[0] + sep + Join(sep, parts[1..])
  }

  lemma {:induction false} WordLenOfWord(w: string, rest: string)
    requires forall i :: 0 <= i < |w| ==> !PySpace(w[i])
    requires rest == [] || PySpace(rest[0])
    ensures WordLen(w + rest, White(Py)) == |w|
    decreases |w|
  {
    if w == [] {
      assert w + rest == rest;
    } else {
      assert (w + rest)[0] == w[0];
      assert (w + rest)[1..] == w[1..] + rest;
      WordLenOfWord(w[1..], rest);
    }
  }

  lemma WordsOfWordThenRest(w: string, rest: string)
    requires IsWord(w)
    requires rest == [] || PySpace(rest[0])
    ensures Words(w + rest) == [w] + Words(rest)
  {
    var s := w + rest;
    assert s[0] == w[0];
    assert StripLeft(s, White(Py)) == s;
    WordLenOfWord(w, rest);
    assert s[..|w|] == w;
    assert s[|w|..] == rest;
  }

  lemma WordsSkipSpace(rest: string)
    ensures Words(" " + rest) == Words(rest)
  {
    assert (" " + rest)[1..] == rest;
    assert StripLeft(" " + rest, White(Py)) == StripLeft(rest, White(Py));
  }

  lemma WordsCons(w: string, rest: string)
    requires IsWord(w)
    ensures Words(w + " " + rest) == [w] + Words(rest)
  {
    assert w + " " + rest == w + (" " + rest);
    assert PySpace((" " + rest)[0]);
    WordsOfWordThenRest(w, " " + rest);
    WordsSkipSpace(rest);
  }

  lemma WordsOfWord(w: string)
    requires IsWord(w)
    ensures Words(w) == [w]
  {
    WordsOfWordThenRest(w, "");
    assert w + "" == w;
    assert StripLeft("", White(Py)) == "";
  }

  /** Splitting what " ".join wrote gives the words back. */
  lemma {:induction false} WordsOfJoin(ws: seq<string>)
    requires forall k :: 0 <= k < |ws| ==> IsWord(ws[k])
    ensures Words(Join(" ", ws)) == ws
  {
    if |ws| == 0 {
    } else if |ws| == 1 {
      assert Join(" ", ws) == ws[0];
      WordsOfWord(ws[0]);
    } else {
      var tail := ws[1..];
      assert forall k :: 0 <= k < |tail| ==> IsWord(tail[k]) by {
        forall k | 0 <= k < |tail| ensures IsWord(tail[k]) { assert tail[k] == ws[k + 1]; }
      }
      var j := Join(" ", tail);
      var whole := Join(" ", ws);
      assert whole == ws[0] + " " + j;
      WordsOfJoin(tail);
      WordsCons(ws[0], j);
      assert Words(whole) == [ws[0]] + tail;
      Seqs.HeadTail(ws);
    }
  }

  /** What `" ".join(s.split())` produces: no whitespace at either end,
      no two neighbouring whitespace characters, and ' ' as the only one. */
  predicate Tidy(s: string) {
    (s == [] || (!PySpace(s[0]) && !PySpace(s[|s| - 1])))
    && NoDoubleSpace(s, White(Py))
    && forall i :: 0 <= i < |s| && PySpace(s[i]) ==> s[i] == ' '
  }

  /** A join of three parts. */
  lemma JoinThree(sep: string, a: string, b: string, c: string)
    ensures Join(sep, [a, b, c]) == a + sep + b + sep + c
  {
    assert [a, b, c][1..] == [b, c];
    assert [b, c][1..] == [c];
    assert Join(sep, [b, c]) == b + sep + c;
    assert Join(sep, [a, b, c]) == a + sep + (b + sep + c);
  }

  /** A join starts with its first part. */
  lemma JoinStarts(sep: string, parts: seq<string>)
    requires |parts| >= 1
    ensures |parts[0]| <= |Join(sep, parts)| && Join(sep, parts)[..|parts[0]|] == parts[0]
  {
    if |parts| > 1 {
      assert Join(sep, parts) == parts[0] + (sep + Join(sep, parts[1..]));
    }
  }

  /** Words joined by single blanks are tidy. */
  lemma {:induction false} JoinWordsTidy(ws: seq<string>)
    requires forall k :: 0 <= k < |ws| ==> IsWord(ws[k])
    ensures Tidy(Join(" ", ws))
  {
    if |ws| == 1 {
      var w := ws[0];
      assert Join(" ", ws) == w;
      assert forall i :: 0 <= i < |w| ==> !PySpace(w[i]);
    } else if |ws| > 1 {
      var tail := ws[1..];
      forall k | 0 <= k < |tail| ensures IsWord(tail[k]) {
        assert tail[k] == ws[k + 1];
      }
      JoinWordsTidy(tail);
      var j := Join(" ", tail);
      JoinStarts(" ", tail);
      assert j[0] == tail[0][0];
      var w := ws[0];
      var r := w + " " + j;
      assert Join(" ", ws) == r;
      assert r[0] == w[0] && r[|r| - 1] == j[|j| - 1];
      forall i | 0 <= i < |r| - 1 ensures !(In(r[i], White(Py)) && In(r[i + 1], White(Py))) {
        if i < |w| {
          assert r[i] == w[i];
        } else if i == |w| {
          assert r[i + 1] == j[0];
        } else {
          assert r[i] == j[i - |w| - 1] && r[i + 1] == j[i - |w|];
        }
      }
      assert forall i :: 0 <= i < |w| ==> r[i] == w[i];
      forall i | |w| < i < |r| ensures r[i] == j[i - |w| - 1] {
      }
    }
  }

  /** No character of s is bad. */
  predicate Avoids(s: string, bad: char -> bool) {
    forall i :: 0 <= i < |s| ==> !bad(s[i])
  }

  /** A slice of a text without bad characters has none either. */
  lemma SliceAvoids(s: string, a: nat, b: nat, bad: char -> bool)
    requires a <= b <= |s| && Avoids(s, bad)
    ensures Avoids(s[a..b], bad)
  {
    forall i | 0 <= i < b - a ensures !bad(s[a..b][i]) {
      assert s[a..b][i] == s[a + i];
    }
  }

  /** The words of a text without bad characters have none either. */
  lemma {:induction false} WordsAvoid(s: string, bad: char -> bool)
    requires Avoids(s, bad)
    ensures forall k :: 0 <= k < |Words(s)| ==> Avoids(Words(s)[k], bad)
    decreases |s|
  {
    var t := StripLeft(s, White(Py));
    if t != [] {
      var n := WordLen(t, White(Py));
      SliceAvoids(s, |s| - |t|, |s|, bad);
      SliceAvoids(t, 0, n, bad);
      SliceAvoids(t, n, |t|, bad);
      var rest := Words(t[n..]);
      WordsAvoid(t[n..], bad);
      var ws := Words(s);
      assert ws == [t[..n]] + rest;
      forall k | 0 <= k < |ws| ensures Avoids(ws[k], bad) {
        if k > 0 {
          assert ws[k] == rest[k - 1];
        }
      }
    }
  }

  /** Joining parts without bad characters by a separator without them. */
  lemma {:induction false} JoinAvoids(sep: string, parts: seq<string>, bad: char -> bool)
    requires Avoids(sep, bad) && forall k :: 0 <= k < |parts| ==> Avoids(parts[k], bad)
    ensures Avoids(Join(sep, parts), bad)
    decreases |parts|
  {
    if |parts| > 1 {
      var tail := parts[1..];
      assert forall k :: 0 <= k < |tail| ==> tail[k] == parts[k + 1];
      JoinAvoids(sep, tail, bad);
      var j := Join(sep, tail);
      var r := parts[0] + sep + j;
      assert Join(sep, parts) == r;
      forall i | 0 <= i < |r| ensures !bad(r[i]) {
        if i < |parts[0]| {
          assert r[i] == parts[0][i];
        } else if i < |parts[0]| + |sep| {
          assert r[i] == sep[i - |parts[0]|];
        } else {
          assert r[i] == j[i - |parts[0]| - |sep|];
        }
      }
    }
  }

  /** `" ".join(s.split())` is tidy, and it has no bad character when s has
      none and ' ' is not bad. */
  lemma CollapsedWords(s: string, bad: char -> bool)
    ensures Tidy(Join(" ", Words(s)))
    ensures Avoids(s, bad) && !bad(' ') ==> Avoids(Join(" ", Words(s)), bad)
  {
    WordsAreWords(s);
    JoinWordsTidy(Words(s));
    if Avoids(s, bad) && !bad(' ') {
      WordsAvoid(s, bad);
      JoinAvoids(" ", Words(s), bad);
    }
  }

  /** `split()` finds no word exactly when the text is all whitespace. */
  lemma WordsEmptyIff(s: string)
    ensures Words(s) == [] <==> forall i :: 0 <= i < |s| ==> PySpace(s[i])
  {
    var t := StripLeft(s, White(Py));
    if t != [] {
      assert !PySpace(s[|s| - |t|]);
    }
  }

  /** Where sub occurs in a text that contains it. */
  lemma ContainsWhere(s: string, sub: string) returns (i: nat)
    requires Contains(s, sub)
    ensures i + |sub| <= |s| && s[i..i + |sub|] == sub
    decreases |s|
  {
    if StartsWith(s, sub) {
      i := 0;
    } else {
      var j := ContainsWhere(s[1..], sub);
      i := j + 1;
      assert s[i..i + |sub|] == s[1..][j..j + |sub|];
    }
  }

  /** A word occurring in a text occurs in it past its leading white space. */
  lemma WordPastSpace(u: string, w: string, i: nat) returns (j: nat)
    requires IsWord(w) && i + |w| <= |u| && u[i..i + |w|] == w
    ensures var t := StripLeft(u, White(Py)); j + |w| <= |t| && t[j..j + |w|] == w
  {
    assert w[0] == u[i];
    j := PastStripped(u, StripLeft(u, White(Py)), White(Py), w, i);
  }

  lemma PastStripped(u: string, t: string, drop: CharSet, w: string, i: nat) returns (j: nat)
    requires |t| <= |u| && t == u[|u| - |t|..]
    requires forall k :: 0 <= k < |u| - |t| ==> In(u[k], drop)
    requires w != [] && !In(w[0], drop) && i + |w| <= |u| && u[i..i + |w|] == w
    ensures j + |w| <= |t| && t[j..j + |w|] == w
  {
    var p := |u| - |t|;
    if i < p {
      assert false;
    }
    j := i - p;
    assert t[j..j + |w|] == u[i..i + |w|];
  }

  /** A join of a first part and a non-empty rest. */
  lemma JoinCons(sep: string, x: string, rest: seq<string>)
    requires rest != []
    ensures Join(sep, [x] + rest) == x + sep + Join(sep, rest)
  {
    assert ([x] + rest)[1..] == rest;
  }

  /** A word that occurs in a text survives `" ".join(text.split())`: it
      lies inside one of the text's words. */
  lemma {:induction false} JoinWordsContains(u: string, w: string)
    requires IsWord(w) && Contains(u, w)
    ensures Contains(Join(" ", Words(u)), w)
    decreases |u|
  {
    var x, v, inFirst := WordsStep(u, w);
    if !inFirst {
      JoinWordsContains(v, w);
      InLaterWord(x, Words(v), w);
    }
  }

  /** One step of `split()` on a text holding a word: either the word lies
      in the first piece, or it lies in the text that follows that piece. */
  lemma WordsStep(u: string, w: string) returns (x: string, v: string, inFirst: bool)
    requires IsWord(w) && Contains(u, w)
    ensures |v| < |u| && Words(u) == [x] + Words(v)
    ensures inFirst ==> Contains(Join(" ", Words(u)), w)
    ensures !inFirst ==> Contains(v, w)
  {
    var i := ContainsWhere(u, w);
    var j := WordPastSpace(u, w, i);
    var t := StripLeft(u, White(Py));
    var n := WordLen(t, White(Py));
    WordsUnfold(u);
    x, v := t[..n], t[n..];
    inFirst := j + |w| <= n;
    if inFirst {
      FirstWordCase(t, n, Words(v), w, j);
    } else {
      WordAvoidsWhite(w);
      PastFirstWord(t, n, White(Py), w, j);
      ContainsAt(v, w, j - n);
    }
  }

  lemma FirstWordCase(t: string, n: nat, rest: seq<string>, w: string, j: nat)
    requires n <= |t| && j + |w| <= n && t[j..j + |w|] == w
    ensures Contains(Join(" ", [t[..n]] + rest), w)
  {
    assert t[..n][j..j + |w|] == t[j..j + |w|];
    InFirstWord(t[..n], rest, w, j);
  }

  /** One step of `split()` on a text that is not all white space. */
  lemma WordsUnfold(u: string)
    requires StripLeft(u, White(Py)) != []
    ensures var t := StripLeft(u, White(Py)); var n := WordLen(t, White(Py));
      Words(u) == [t[..n]] + Words(t[n..])
  {
  }

  lemma WordAvoidsWhite(w: string)
    requires IsWord(w)
    ensures forall k :: 0 <= k < |w| ==> !In(w[k], White(Py))
  {
    forall k | 0 <= k < |w| ensures !In(w[k], White(Py)) {
      assert !PySpace(w[k]);
    }
  }

  /** An occurrence that does not end inside the first run of kept
      characters starts past it, since the character ending the run is
      one the occurrence avoids. */
  lemma PastFirstWord(t: string, n: nat, drop: CharSet, w: string, j: nat)
    requires n <= |t| && (n < |t| ==> In(t[n], drop))
    requires j + |w| <= |t| && t[j..j + |w|] == w && n < j + |w|
    requires forall k :: 0 <= k < |w| ==> !In(w[k], drop)
    ensures n < j && t[n..][j - n..j - n + |w|] == w
  {
    assert forall k :: j <= k < j + |w| ==> !In(t[k], drop) by {
      forall k | j <= k < j + |w| ensures !In(t[k], drop) {
        assert t[k] == w[k - j];
      }
    }
    assert n < j;
    assert t[n..][j - n..j - n + |w|] == t[j..j + |w|];
  }

  /** An occurrence in the join of the later parts is one in the whole join. */
  lemma InLaterWord(x: string, rest: seq<string>, w: string)
    requires w != [] && Contains(Join(" ", rest), w)
    ensures Contains(Join(" ", [x] + rest), w)
  {
    if rest == [] {
      assert false;
    }
    JoinCons(" ", x, rest);
    assert x + " " + Join(" ", rest) == (x + " ") + Join(" ", rest);
    ContainsSuffix(x + " ", Join(" ", rest), w);
  }

  lemma InFirstWord(x: string, rest: seq<string>, w: string, j: nat)
    requires j + |w| <= |x| && x[j..j + |w|] == w
    ensures Contains(Join(" ", [x] + rest), w)
  {
    ContainsAt(x, w, j);
    if rest == [] {
      assert [x] + rest == [x];
    } else {
      JoinCons(" ", x, rest);
      assert x + " " + Join(" ", rest) == x + (" " + Join(" ", rest));
      ContainsPrefix(x, " " + Join(" ", rest), w);
    }
  }

  /** Lower-casing keeps an occurrence, lower-cased. */
  lemma LowerContains(s: string, w: string)
    requires Contains(s, w)
    ensures Contains(LowerStr(s), LowerStr(w))
  {
    var i := ContainsWhere(s, w);
    assert LowerStr(s)[i..i + |w|] == LowerStr(w);
    ContainsAt(LowerStr(s), LowerStr(w), i);
  }

  /** The characters of a list of words joined together. */
  function Concat(ws: seq<string>): string {
    if ws == [] then "" else ws[0] + Concat(ws[1..])
  }

  // ---------------------------------------------------------------------------
  // Literal replacement, slices
  // ---------------------------------------------------------------------------

  /** `s.replace(old, new)` in Python and `s.replaceAll(old, new)` in JavaScript:
      a left-to-right, non-overlapping replacement of every occurrence. */
  function ReplaceAll(s: string, pat: string, rep: string): (r: string)
    requires pat != []
    decreases |s|
  {
    if |s| < |pat| then s
    else if s[..|pat|] == pat then rep + ReplaceAll(s[|pat|..], pat, rep)
    else [s[0]] + ReplaceAll(s[1..], pat, rep)
  }

  /** Replacing a string that does not occur changes nothing. */
  lemma {:induction false} ReplaceAbsent(s: string, pat: string, rep: string)
    requires pat != [] && !Contains(s, pat)
    ensures ReplaceAll(s, pat, rep) == s
    decreases |s|
  {
    if |s| >= |pat| {
      assert !StartsWith(s, pat);
      ReplaceAbsent(s[1..], pat, rep);
    }
  }

  /** No suffix of a is a proper prefix of pat, so no occurrence of pat can
      start inside a and end after it. */
  predicate NoSeam(a: string, pat: string) {
    forall k :: 0 < k < |pat| && k <= |a| ==> a[|a| - k..] != pat[..k]
  }

  lemma NoSeamDrop(a: string, pat: string, n: nat)
    requires NoSeam(a, pat) && n <= |a|
    ensures NoSeam(a[n..], pat)
  {
    forall k | 0 < k < |pat| && k <= |a[n..]| ensures a[n..][|a[n..]| - k..] != pat[..k] {
      assert a[n..][|a[n..]| - k..] == a[|a| - k..];
    }
  }

  /** Replacement distributes over concatenation when no occurrence can
      straddle the seam. */
  lemma {:induction false} ReplaceConcat(a: string, b: string, pat: string, rep: string)
    requires pat != [] && NoSeam(a, pat)
    ensures ReplaceAll(a + b, pat, rep) == ReplaceAll(a, pat, rep) + ReplaceAll(b, pat, rep)
    decreases |a|
  {
    if a == [] {
      Seqs.EmptyJoin(a, b);
    } else if |a| >= |pat| && a[..|pat|] == pat {
      ReplaceMatchJoin(a, b, pat, rep);
      NoSeamDrop(a, pat, |pat|);
      ReplaceConcat(a[|pat|..], b, pat, rep);
      Seqs.Assoc(rep, ReplaceAll(a[|pat|..], pat, rep), ReplaceAll(b, pat, rep));
    } else {
      ReplaceCopyJoin(a, b, pat, rep);
      NoSeamDrop(a, pat, 1);
      ReplaceConcat(a[1..], b, pat, rep);
      Seqs.Assoc([a[0]], ReplaceAll(a[1..], pat, rep), ReplaceAll(b, pat, rep));
    }
  }

  /** With a two-character pattern, replacement distributes over a + b
      unless a ends with the pattern's first character and b starts with its
      second. */
  lemma {:induction false} ReplacePairConcat(a: string, b: string, pat: string, rep: string)
    requires |pat| == 2
    requires !(a != [] && b != [] && a[|a| - 1] == pat[0] && b[0] == pat[1])
    ensures ReplaceAll(a + b, pat, rep) == ReplaceAll(a, pat, rep) + ReplaceAll(b, pat, rep)
    decreases |a|
  {
    if a == [] {
      Seqs.EmptyJoin(a, b);
    } else if |a| >= 2 && a[..2] == pat {
      ReplaceMatchJoin(a, b, pat, rep);
      ReplacePairConcat(a[2..], b, pat, rep);
      Seqs.Assoc(rep, ReplaceAll(a[2..], pat, rep), ReplaceAll(b, pat, rep));
    } else if |a| == 1 {
      Seqs.ConsSplit(a, b);
      assert (a + b)[1..] == b;
      if |a + b| >= 2 {
        assert (a + b)[..2] == [a[0], b[0]];
      }
    } else {
      Seqs.PrefixJoin(a, b, 2);
      Seqs.ConsSplit(a, b);
      ReplacePairConcat(a[1..], b, pat, rep);
      Seqs.Assoc([a[0]], ReplaceAll(a[1..], pat, rep), ReplaceAll(b, pat, rep));
    }
  }

  /** The one-character replacement `s.replace(c, rep)`, character by
      character. */
  function MapChar(s: string, c: char, rep: string): (r: string) {
    if s == [] then "" else (if s[0] == c then rep else [s[0]]) + MapChar(s[1..], c, rep)
  }

  lemma {:induction false} ReplaceOneChar(s: string, c: char, rep: string)
    ensures ReplaceAll(s, [c], rep) == MapChar(s, c, rep)
    decreases |s|
  {
    if s != [] {
      ReplaceOneChar(s[1..], c, rep);
      if s[0] == c {
        assert s[..1] == [c];
      } else {
        assert s[..1] != [c];
      }
    }
  }

  lemma {:induction false} MapCharConcat(a: string, b: string, c: char, rep: string)
    ensures MapChar(a + b, c, rep) == MapChar(a, c, rep) + MapChar(b, c, rep)
    decreases |a|
  {
    if a == [] {
      assert a + b == b;
    } else {
      assert (a + b)[0] == a[0];
      assert (a + b)[1..] == a[1..] + b;
      MapCharConcat(a[1..], b, c, rep);
    }
  }

  lemma MapCharOne(x: char, c: char, rep: string)
    ensures MapChar([x], c, rep) == if x == c then rep else [x]
  {
    assert [x][1..] == [];
  }

  lemma {:induction false} MapCharAbsent(s: string, c: char, rep: string)
    requires c !in s
    ensures MapChar(s, c, rep) == s
    decreases |s|
  {
    if s != [] {
      assert s[0] != c;
      MapCharAbsent(s[1..], c, rep);
      assert s == [s[0]] + s[1..];
    }
  }

  /** An occurrence at the start of a is replaced in a and in a + b alike. */
  lemma ReplaceMatchJoin(a: string, b: string, pat: string, rep: string)
    requires pat != [] && |a| >= |pat| && a[..|pat|] == pat
    ensures ReplaceAll(a, pat, rep) == rep + ReplaceAll(a[|pat|..], pat, rep)
    ensures ReplaceAll(a + b, pat, rep) == rep + ReplaceAll(a[|pat|..] + b, pat, rep)
  {
    Seqs.PrefixJoin(a, b, |pat|);
    Seqs.DropJoin(a, b, |pat|);
  }

  /** Without an occurrence at the start of a (and none across the seam), the
      first character of a is copied in a and in a + b alike. */
  lemma ReplaceCopyJoin(a: string, b: string, pat: string, rep: string)
    requires pat != [] && a != [] && NoSeam(a, pat)
    requires !(|a| >= |pat| && a[..|pat|] == pat)
    ensures ReplaceAll(a, pat, rep) == [a[0]] + ReplaceAll(a[1..], pat, rep)
    ensures ReplaceAll(a + b, pat, rep) == [a[0]] + ReplaceAll(a[1..] + b, pat, rep)
  {
    Seqs.ConsSplit(a, b);
    if |a| >= |pat| {
      Seqs.PrefixJoin(a, b, |pat|);
    } else {
      ShortHead(a, b, pat, rep);
    }
  }

  lemma ShortHead(a: string, b: string, pat: string, rep: string)
    requires pat != [] && a != [] && NoSeam(a, pat) && |a| < |pat|
    ensures ReplaceAll(a, pat, rep) == [a[0]] + ReplaceAll(a[1..], pat, rep)
    ensures ReplaceAll(a + b, pat, rep) == [a[0]] + ReplaceAll(a[1..] + b, pat, rep)
  {
    assert a[|a| - |a|..] == a;
    assert ReplaceAll(a[1..], pat, rep) == a[1..];
    Seqs.HeadTail(a);
    if |a + b| >= |pat| {
      Seqs.PrefixJoin(a + b, [], |a|);
      assert (a + b)[..|pat|][..|a|] == a;
    }
    Seqs.ConsSplit(a, b);
  }

  /** Python `s[:n]` for n >= 0. */
  function Take(s: string, n: nat): (r: string)
    ensures |r| == if n < |s| then n else |s|
    ensures r == s[..|r|]
  {
    if n < |s| then s[..n] else s
  }

  /** Python `s[-n:]` for n >= 1 (the last n elements, or all of them). */
  function Last<T>(s: seq<T>, n: nat): (r: seq<T>)
    ensures |r| == if n < |s| then n else |s|
    ensures r == s[|s| - |r|..]
  {
    if n < |s| then s[|s| - n..] else s
  }

  // ---------------------------------------------------------------------------
  // Decimal numbers
  // ---------------------------------------------------------------------------

  predicate AllDigits(s: string) {
    forall i :: 0 <= i < |s| ==> IsDigit(s[i])
  }

  /** The value of a run of decimal digits (`int(s)` / `parseInt(s, 10)`). */
  function DigitsValue(s: string): (n: nat)
    requires AllDigits(s)
    ensures |s| <= 1 ==> n < 10
    ensures |s| <= 2 ==> n < 100
    ensures |s| <= 3 ==> n < 1000
    ensures |s| <= 4 ==> n < 10000
  {
    if s == [] then 0 else DigitsValue(s[..|s| - 1]) * 10 + (s[|s| - 1] as int - '0' as int)
  }

  function DigitChar(d: nat): (c: char)
    requires d < 10
    ensures IsDigit(c)
  {
    ('0' as int + d) as char
  }

  /** The decimal representation of n (`str(n)` / `String(n)`). */
  function NatToString(n: nat): (s: string)
    ensures s != [] && AllDigits(s)
    ensures n < 10 ==> |s| == 1
    ensures 10 <= n < 100 ==> |s| == 2
  {
    if n < 10 then [DigitChar(n)] else NatToString(n / 10) + [DigitChar(n % 10)]
  }

  /** `String(n).padStart(2, '0')`. */
  function Pad2(n: nat): (s: string)
    ensures n < 100 ==> |s| == 2
    ensures AllDigits(s)
  {
    var d := NatToString(n);
    if |d| < 2 then "0" + d else d
  }
}
