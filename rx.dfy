/** The handful of regular expressions the client's task previews use, each
    written out as a left-to-right scanner with the matching rules of
    JavaScript: alternatives are tried in order at each position, `\b` looks
    at ASCII word characters, the `i` flag compares lower-cased characters,
    and a global replacement resumes after each match while `\b` still sees
    the original text. */
module Rx {
  import opened Wrappers
  import opened Text

  /** The lower-case word w occurs at position i of s, ignoring case. */
  predicate CiAt(s: string, i: nat, w: string)
    decreases |w|
  {
    i <= |s| && (w == [] || (i < |s| && Lower(s[i]) == w[0] && CiAt(s, i + 1, w[1..])))
  }

  lemma {:induction false} CiAtFits(s: string, i: nat, w: string)
    requires CiAt(s, i, w)
    ensures i + |w| <= |s|
    decreases |w|
  {
    if w != [] {
      CiAtFits(s, i + 1, w[1..]);
    }
  }

  /** The length of the run of JavaScript whitespace that starts at i (`\s*`). */
  function SpaceRunAt(s: string, i: nat): (n: nat)
    requires i <= |s|
    ensures i + n <= |s|
    ensures forall k :: i <= k < i + n ==> JsSpace(s[k])
    ensures i + n < |s| ==> !JsSpace(s[i + n])
    decreases |s| - i
  {
    if i < |s| && JsSpace(s[i]) then 1 + SpaceRunAt(s, i + 1) else 0
  }

  /** The length of the first alternative that occurs at i, if any. */
  function FirstAltAt(s: string, i: nat, alts: seq<string>): (r: Option<nat>)
    ensures r.Some? ==> i + r.value <= |s|
    ensures r.None? ==> forall k :: 0 <= k < |alts| ==> !CiAt(s, i, alts[k])
    ensures r.Some? ==> exists k :: 0 <= k < |alts| && CiAt(s, i, alts[k]) && |alts[k]| == r.value
  {
    if alts == [] then None
    else if CiAt(s, i, alts[0]) then CiAtFits(s, i, alts[0]); Some(|alts[0]|)
    else
      var r := FirstAltAt(s, i, alts[1..]);
      assert forall k :: 1 <= k < |alts| ==> alts[k] == alts[1..][k - 1];
      r
  }

  /** Replacing `^(alts)\s*` (case-insensitive) by nothing: a leading keyword
      and the blanks after it. */
  function StripLead(s: string, alts: seq<string>): (r: string)
    ensures |r| <= |s| && r == s[|s| - |r|..]
    ensures (forall k :: 0 <= k < |alts| ==> !CiAt(s, 0, alts[k])) ==> r == s
  {
    match FirstAltAt(s, 0, alts)
    case None => s
    case Some(n) => s[n + SpaceRunAt(s, n)..]
  }

  /** `\b(alts)\b` at position i: the first alternative, in order, that occurs
      at i with a word boundary on both sides. */
  function WordAt(s: string, i: nat, alts: seq<string>): (r: Option<nat>)
    requires i <= |s|
    ensures r.Some? ==> i + r.value <= |s| && Boundary(Js, s, i) && Boundary(Js, s, i + r.value)
    ensures r.Some? ==> exists k :: 0 <= k < |alts| && CiAt(s, i, alts[k]) && |alts[k]| == r.value
    ensures r.None? ==> !Boundary(Js, s, i) || forall k :: 0 <= k < |alts| ==>
      !(CiAt(s, i, alts[k]) && i + |alts[k]| <= |s| && Boundary(Js, s, i + |alts[k]|))
  {
    if !Boundary(Js, s, i) || alts == [] then None
    else if CiAt(s, i, alts[0]) && i + |alts[0]| <= |s| && Boundary(Js, s, i + |alts[0]|) then Some(|alts[0]|)
    else
      var r := WordAt(s, i, alts[1..]);
      assert forall k :: 1 <= k < |alts| ==> alts[k] == alts[1..][k - 1];
      r
  }

  predicate NonEmptyAlts(alts: seq<string>) {
    forall k :: 0 <= k < |alts| ==> alts[k] != []
  }

  /** A match of non-empty alternatives consumes at least one character. */
  lemma WordAtPositive(s: string, i: nat, alts: seq<string>)
    requires i <= |s| && NonEmptyAlts(alts) && WordAt(s, i, alts).Some?
    ensures WordAt(s, i, alts).value > 0
  {
    var n := WordAt(s, i, alts).value;
    var k :| 0 <= k < |alts| && CiAt(s, i, alts[k]) && |alts[k]| == n;
  }

  /** `s.replace(/\b(alts)\b/gi, '')` on the text from position i on. */
  function RemoveWords(s: string, i: nat, alts: seq<string>): (r: string)
    requires i <= |s| && NonEmptyAlts(alts)
    ensures |r| <= |s| - i
    decreases |s| - i
  {
    if i == |s| then []
    else match WordAt(s, i, alts)
      case Some(n) =>
        assert n > 0 by {
          var k :| 0 <= k < |alts| && CiAt(s, i, alts[k]) && |alts[k]| == n;
        }
        RemoveWords(s, i + n, alts)
      case None => [s[i]] + RemoveWords(s, i + 1, alts)
  }

  /** A global removal that finds nothing copies the text. */
  lemma {:induction false} RemoveNothing(s: string, i: nat, alts: seq<string>)
    requires i <= |s| && NonEmptyAlts(alts)
    requires forall j :: i <= j <= |s| ==> WordAt(s, j, alts).None?
    ensures RemoveWords(s, i, alts) == s[i..]
    decreases |s| - i
  {
    if i < |s| {
      RemoveNothing(s, i + 1, alts);
      assert s[i..] == [s[i]] + s[i + 1..];
    }
  }

  /** `s.replace(/alts/gi, '')` (no word boundaries), from position i on. */
  function RemoveAlts(s: string, i: nat, alts: seq<string>): (r: string)
    requires i <= |s| && NonEmptyAlts(alts)
    ensures |r| <= |s| - i
    decreases |s| - i
  {
    if i == |s| then []
    else match FirstAltAt(s, i, alts)
      case Some(n) =>
        assert n > 0 by {
          var k :| 0 <= k < |alts| && CiAt(s, i, alts[k]) && |alts[k]| == n;
        }
        RemoveAlts(s, i + n, alts)
      case None => [s[i]] + RemoveAlts(s, i + 1, alts)
  }

  /** Where no alternative occurs, the removal copies the text. */
  lemma {:induction false} RemoveAltsNothing(s: string, i: nat, alts: seq<string>)
    requires i <= |s| && NonEmptyAlts(alts)
    requires forall j :: i <= j < |s| ==> FirstAltAt(s, j, alts).None?
    ensures RemoveAlts(s, i, alts) == s[i..]
    decreases |s| - i
  {
    if i < |s| {
      RemoveAltsNothing(s, i + 1, alts);
      assert s[i..] == [s[i]] + s[i + 1..];
    }
  }

  /** `s.replace(/\b(alts)\b/i, '')`: only the first occurrence, searching from i. */
  function RemoveFirstWord(s: string, i: nat, alts: seq<string>): (r: string)
    requires i <= |s|
    ensures |r| <= |s| - i
    ensures (forall j :: i <= j <= |s| ==> WordAt(s, j, alts).None?) ==> r == s[i..]
    decreases |s| - i
  {
    match WordAt(s, i, alts)
    case Some(n) => s[i + n..]
    case None =>
      if i == |s| then []
      else
        var t := RemoveFirstWord(s, i + 1, alts);
        assert s[i..] == [s[i]] + s[i + 1..];
        [s[i]] + t
  }

  // ---------------------------------------------------------------------------
  // `\b(\d{1,2}(?::\d{2})?\s*(?:am|pm|a\.m\.|p\.m\.)?)\b`
  // ---------------------------------------------------------------------------

  /** Where the optional meridiem suffix may end when tried at j, in the
      order the alternation tries them (the empty choice last). */
  function SuffixEnds(s: string, j: nat): (r: seq<nat>)
    ensures |r| >= 1 && r[|r| - 1] == j
    ensures forall k :: 0 <= k < |r| ==> j <= r[k] <= j + 4
  {
    (if CiAt(s, j, "am") then [j + 2] else [])
    + (if CiAt(s, j, "pm") then [j + 2] else [])
    + (if CiAt(s, j, "a.m.") then [j + 4] else [])
    + (if CiAt(s, j, "p.m.") then [j + 4] else [])
    + [j]
  }

  /** `\s*` tried greedily from sp blanks down to none, each followed by the
      suffix choices. */
  function SpaceEnds(s: string, j: nat, sp: nat): (r: seq<nat>)
    ensures forall k :: 0 <= k < |r| ==> j <= r[k] <= j + sp + 4
    decreases sp
  {
    SuffixEnds(s, j + sp) + (if sp == 0 then [] else SpaceEnds(s, j, sp - 1))
  }

  predicate DigitAt(s: string, i: nat) { i < |s| && IsDigit(s[i]) }

  /** The optional minutes `:\d{2}` tried first, then skipped. */
  function MinuteEnds(s: string, j: nat): (r: seq<nat>)
    requires j <= |s|
    ensures forall k :: 0 <= k < |r| ==> j <= r[k]
  {
    (if j + 3 <= |s| && s[j] == ':' && IsDigit(s[j + 1]) && IsDigit(s[j + 2])
     then SpaceEnds(s, j + 3, SpaceRunAt(s, j + 3)) else [])
    + SpaceEnds(s, j, SpaceRunAt(s, j))
  }

  /** Every way the pattern can end when it starts at i, in backtracking order:
      two hour digits before one. */
  function TimeEnds(s: string, i: nat): (r: seq<nat>)
    requires i <= |s|
    ensures forall k :: 0 <= k < |r| ==> i < r[k]
  {
    if !DigitAt(s, i) then []
    else (if DigitAt(s, i + 1) then MinuteEnds(s, i + 2) else []) + MinuteEnds(s, i + 1)
  }

  /** The first candidate end that is a word boundary (the closing `\b`). */
  function FirstBoundary(s: string, ends: seq<nat>): (r: Option<nat>)
    ensures r.Some? ==> r.value in ends && r.value <= |s| && Boundary(Js, s, r.value)
  {
    if ends == [] then None
    else if ends[0] <= |s| && Boundary(Js, s, ends[0]) then Some(ends[0])
    else FirstBoundary(s, ends[1..])
  }

  /** The end of the time expression that starts at i, if one does. */
  function TimeAt(s: string, i: nat): (r: Option<nat>)
    requires i <= |s|
    ensures r.Some? ==> i < r.value <= |s| && Boundary(Js, s, i) && IsDigit(s[i])
  {
    if !Boundary(Js, s, i) then None else FirstBoundary(s, TimeEnds(s, i))
  }

  /** `s.replace(time, '')` with the `g` flag, from position i on. */
  function RemoveTimes(s: string, i: nat): (r: string)
    requires i <= |s|
    ensures |r| <= |s| - i
    decreases |s| - i
  {
    if i == |s| then []
    else match TimeAt(s, i)
      case Some(e) => RemoveTimes(s, e)
      case None => [s[i]] + RemoveTimes(s, i + 1)
  }

  /** Text without digits holds no time expression. */
  lemma {:induction false} NoDigitNoTime(s: string, i: nat)
    requires i <= |s| && forall k :: 0 <= k < |s| ==> !IsDigit(s[k])
    ensures RemoveTimes(s, i) == s[i..]
    decreases |s| - i
  {
    if i < |s| {
      NoDigitNoTime(s, i + 1);
      assert s[i..] == [s[i]] + s[i + 1..];
    }
  }

  /** `s.replace(/\s{2,}/g, ' ')`: every run of two or more blanks becomes one
      space; a single blank is kept as it is. */
  function SqueezeRuns(s: string): (r: string)
    ensures |r| <= |s|
    decreases |s|
  {
    if s == [] then []
    else
      var n := SpaceRunAt(s, 0);
      if n >= 2 then " " + SqueezeRuns(s[n..])
      else [s[0]] + SqueezeRuns(s[1..])
  }

  /** After squeezing, no two blanks are neighbours. */
  lemma {:induction false} SqueezeNoDouble(s: string)
    ensures NoDoubleSpace(SqueezeRuns(s), White(Js))
    decreases |s|
  {
    if s != [] {
      var n := SpaceRunAt(s, 0);
      if n >= 2 {
        SqueezeNoDouble(s[n..]);
        SqueezeHead(s[n..]);
        NoDoubleCons(' ', SqueezeRuns(s[n..]), White(Js));
      } else {
        SqueezeNoDouble(s[1..]);
        SqueezeHead(s[1..]);
        if JsSpace(s[0]) && |s| > 1 {
          assert !JsSpace(s[1]);
        }
        NoDoubleCons(s[0], SqueezeRuns(s[1..]), White(Js));
      }
    }
  }

  /** A squeezed text starts with a blank only where the text did. */
  lemma SqueezeHead(s: string)
    ensures SqueezeRuns(s) != [] ==> s != [] && (JsSpace(SqueezeRuns(s)[0]) ==> JsSpace(s[0]))
  {
  }
}
