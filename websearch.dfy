/** The clean-up of a web-search answer: the private-use markers and the
    leftovers of citation markers ("citeturn0", "turn1news2") are deleted
    and the text is stripped; nothing else changes. */
module WebSearch {
  import opened Wrappers
  import opened Text
  import PyRe
  import opened Subseqs

  /** The private-use code points U+E200 to U+E2FF the search tool marks
      citations with. */
  predicate PrivateUse(c: char) {
    '\U{E200}' <= c <= '\U{E2FF}'
  }

  /** `re.sub(r'[\uE200-\uE2FF]', '', s)` */
  function DropPrivate(s: string): (r: string)
    ensures forall i :: 0 <= i < |r| ==> !PrivateUse(r[i])
    ensures IsSubseq(r, s)
    ensures (forall i :: 0 <= i < |s| ==> !PrivateUse(s[i])) ==> r == s
  {
    if s == [] then []
    else
      var rest := DropPrivate(s[1..]);
      assert s == [s[0]] + s[1..];
      if PrivateUse(s[0]) then
        SubseqDrop(rest, s, 1);
        rest
      else
        SubseqCons(s[0], rest, s[1..]);
        [s[0]] + rest
  }

  /** `[A-Za-z0-9]*` */
  const AlnumRun: PyRe.Re := PyRe.Run(PyRe.AsciiAlnum, 0, None)

  /** `\b[Dd]?cite[Tt]urn\d+[A-Za-z0-9]*\b` */
  const CiteTurn: PyRe.Re :=
    PyRe.Cat(PyRe.WordB, PyRe.Cat(PyRe.Opt(PyRe.One({'D', 'd'})), PyRe.Cat(PyRe.Lit("cite"),
      PyRe.Cat(PyRe.One({'T', 't'}), PyRe.Cat(PyRe.Lit("urn"), PyRe.Cat(PyRe.Digits, PyRe.Cat(AlnumRun, PyRe.WordB)))))))

  /** `\bturn\d+[A-Za-z0-9]*\b` */
  const Turn: PyRe.Re :=
    PyRe.Cat(PyRe.WordB, PyRe.Cat(PyRe.Lit("turn"), PyRe.Cat(PyRe.Digits, PyRe.Cat(AlnumRun, PyRe.WordB))))

  /** `re.sub(re, '', s)`: only deletes characters. */
  function DeleteAll(re: PyRe.Re, s: string): (r: string)
    ensures IsSubseq(r, s)
  {
    PyRe.DeleteIsSubseq(re, s, 0);
    assert s[0..] == s;
    PyRe.SubAll(re, "", s)
  }

  /** `strip()` keeps a middle part of the text. */
  lemma StripIsSubseq(s: string)
    ensures IsSubseq(PyStrip(s), s)
  {
    var l := StripLeft(s, White(Py));
    SuffixIsSubseq(s, |s| - |l|);
    PrefixIsSubseq(l, |StripRight(l, White(Py))|);
    SubseqTrans(StripRight(l, White(Py)), l, s);
  }

  /** No space at either end. */
  predicate NoOuterSpace(s: string) {
    s == [] || (!PySpace(s[0]) && !PySpace(s[|s| - 1]))
  }

  /** The deletions and the strip, in order. */
  function Cleaned(text: string): (r: string)
    ensures NoOuterSpace(r)
  {
    PyStrip(DeleteAll(Turn, DeleteAll(CiteTurn, DropPrivate(text))))
  }

  /** What the steps leave is a subsequence of the text with no private-use
      character. */
  lemma CleanedDeletes(text: string)
    ensures IsSubseq(Cleaned(text), text)
    ensures forall i :: 0 <= i < |Cleaned(text)| ==> !PrivateUse(Cleaned(text)[i])
  {
    var a := DropPrivate(text);
    var b := DeleteAll(CiteTurn, a);
    var c := DeleteAll(Turn, b);
    var r := PyStrip(c);
    StripIsSubseq(c);
    SubseqTrans(r, c, b);
    SubseqTrans(r, b, a);
    SubseqTrans(r, a, text);
    SubseqElems(r, a);
    assert forall i :: 0 <= i < |r| ==> r[i] in a;
  }

  /** `sanitize_preserving_markdown`: an empty text comes back as it is;
      otherwise the result, with no space at either end and no private-use
      character, is what is left of the text after deleting characters. */
  function SanitizePreservingMarkdown(text: string): (r: string)
    ensures text == "" ==> r == text
    ensures NoOuterSpace(r)
    ensures IsSubseq(r, text)
    ensures forall i :: 0 <= i < |r| ==> !PrivateUse(r[i])
  {
    if text == "" then ""
    else
      var r := Cleaned(text);
      CleanedDeletes(text);
      r
  }

  /** `strip()` leaves a text with no space at either end as it is. */
  lemma StripFixed(s: string)
    requires NoOuterSpace(s)
    ensures PyStrip(s) == s
  {
    StripKept(s, White(Py));
  }

  /** Markdown is preserved: a stripped text with no private-use character
      and no citation leftover anywhere comes back unchanged. */
  lemma CleanTextKept(text: string)
    requires forall i :: 0 <= i < |text| ==> !PrivateUse(text[i])
    requires forall j :: 0 <= j <= |text| ==> PyRe.MatchAt(CiteTurn, text, j).None?
    requires forall j :: 0 <= j <= |text| ==> PyRe.MatchAt(Turn, text, j).None?
    requires NoOuterSpace(text)
    ensures SanitizePreservingMarkdown(text) == text
  {
    if text != "" {
      PyRe.SubNoMatch(CiteTurn, "", text, 0);
      PyRe.SubNoMatch(Turn, "", text, 0);
      assert text[0..] == text;
      StripFixed(text);
    }
  }

  /** "a citeTurn0 b", character by character. */
  predicate IsSample(t: string) {
    |t| == 13 && t[0] == 'a' && t[1] == ' ' && t[2] == 'c' && t[3] == 'i' && t[4] == 't' && t[5] == 'e'
    && t[6] == 'T' && t[7] == 'u' && t[8] == 'r' && t[9] == 'n' && t[10] == '0' && t[11] == ' ' && t[12] == 'b'
  }

  /** After the leftover's digit: no letters, then a word boundary. */
  lemma SampleDigitEnd(t: string)
    requires IsSample(t)
    ensures PyRe.Ends(PyRe.Cat(PyRe.Digits, PyRe.Cat(AlnumRun, PyRe.WordB)), t, 10) == [11]
  {
    assert PyRe.RunLen(PyRe.AsciiAlnum, t, 11, None) == 0;
    assert PyRe.Ends(AlnumRun, t, 11) == [11];
    PyRe.CatOne(PyRe.WordB, t, 11, 11);
    assert PyRe.RunLen(PyRe.Digit, t, 10, None) == 1;
    assert PyRe.Ends(PyRe.Digits, t, 10) == [11];
    PyRe.CatOne(PyRe.Cat(AlnumRun, PyRe.WordB), t, 10, 11);
  }

  /** From the leftover's "urn" on, the pattern ends after the digit. */
  lemma SampleUrn(t: string)
    requires IsSample(t)
    ensures PyRe.Ends(PyRe.Cat(PyRe.Lit("urn"), PyRe.Cat(PyRe.Digits, PyRe.Cat(AlnumRun, PyRe.WordB))), t, 7) == [11]
  {
    SampleDigitEnd(t);
    assert t[7..10] == "urn";
    PyRe.CatOne(PyRe.Cat(PyRe.Digits, PyRe.Cat(AlnumRun, PyRe.WordB)), t, 7, 10);
  }

  /** From the leftover's "Turn" on, the pattern ends after the digit. */
  lemma SampleTail(t: string)
    requires IsSample(t)
    ensures PyRe.Ends(PyRe.Cat(PyRe.One({'T', 't'}), PyRe.Cat(PyRe.Lit("urn"), PyRe.Cat(PyRe.Digits, PyRe.Cat(AlnumRun, PyRe.WordB)))), t, 6) == [11]
  {
    SampleUrn(t);
    assert PyRe.RunLen(PyRe.OneOf({'T', 't'}), t, 6, Some(1)) == 1;
    PyRe.CatOne(PyRe.Cat(PyRe.Lit("urn"), PyRe.Cat(PyRe.Digits, PyRe.Cat(AlnumRun, PyRe.WordB))), t, 6, 7);
  }

  /** The leftover "citeTurn0" is matched at 2 and ends at 11. */
  lemma SampleMatch(t: string)
    requires IsSample(t)
    ensures PyRe.MatchAt(CiteTurn, t, 2) == Some(11)
  {
    var tail := PyRe.Cat(PyRe.One({'T', 't'}), PyRe.Cat(PyRe.Lit("urn"), PyRe.Cat(PyRe.Digits, PyRe.Cat(AlnumRun, PyRe.WordB))));
    SampleTail(t);
    assert t[2..6] == "cite";
    PyRe.CatOne(tail, t, 2, 6);
    assert PyRe.RunLen(PyRe.OneOf({'D', 'd'}), t, 2, Some(1)) == 0;
    assert PyRe.Ends(PyRe.Opt(PyRe.One({'D', 'd'})), t, 2) == [2];
    PyRe.CatOne(PyRe.Cat(PyRe.Lit("cite"), tail), t, 2, 2);
    PyRe.CatOne(PyRe.Cat(PyRe.Opt(PyRe.One({'D', 'd'})), PyRe.Cat(PyRe.Lit("cite"), tail)), t, 2, 2);
  }

  /** Where neither "D"/"d" nor "c" stands, the citation pattern does not
      match. */
  lemma NoCiteAt(t: string, i: nat)
    requires i <= |t| && (i == |t| || (t[i] != 'c' && t[i] != 'D' && t[i] != 'd'))
    ensures PyRe.MatchAt(CiteTurn, t, i).None?
  {
    if i + 4 <= |t| {
      assert t[i..i + 4][0] != "cite"[0];
    }
    var tail := PyRe.Cat(PyRe.One({'T', 't'}), PyRe.Cat(PyRe.Lit("urn"), PyRe.Cat(PyRe.Digits, PyRe.Cat(AlnumRun, PyRe.WordB))));
    var rest := PyRe.Cat(PyRe.Opt(PyRe.One({'D', 'd'})), PyRe.Cat(PyRe.Lit("cite"), tail));
    assert PyRe.RunLen(PyRe.OneOf({'D', 'd'}), t, i, Some(1)) == 0;
    assert PyRe.Ends(PyRe.Opt(PyRe.One({'D', 'd'})), t, i) == [i];
    PyRe.CatOne(PyRe.Cat(PyRe.Lit("cite"), tail), t, i, i);
    if Boundary(Py, t, i) {
      PyRe.CatOne(rest, t, i, i);
    }
  }

  /** Where "turn" does not start, the leftover pattern does not match. */
  lemma NoTurnAt(t: string, i: nat)
    requires i <= |t| && !(i + 4 <= |t| && t[i..i + 4] == "turn")
    ensures PyRe.MatchAt(Turn, t, i).None?
  {
    var rest := PyRe.Cat(PyRe.Lit("turn"), PyRe.Cat(PyRe.Digits, PyRe.Cat(AlnumRun, PyRe.WordB)));
    if Boundary(Py, t, i) {
      PyRe.CatOne(rest, t, i, i);
    }
  }

  /** After the leftover, the sample's last two characters are kept. */
  lemma SampleAfter(t: string)
    requires IsSample(t)
    ensures PyRe.Sub(CiteTurn, "", t, 11) == [t[11], t[12]]
  {
    NoCiteAt(t, 11);
    NoCiteAt(t, 12);
    NoCiteAt(t, 13);
    PyRe.SubKeepNone(CiteTurn, t, 11);
    PyRe.SubKeepNone(CiteTurn, t, 12);
  }

  /** Two characters that cannot start a leftover are kept. */
  lemma {:induction false} KeptTwo(t: string, i: nat)
    requires i + 2 <= |t|
    requires t[i] != 'c' && t[i] != 'D' && t[i] != 'd' && t[i + 1] != 'c' && t[i + 1] != 'D' && t[i + 1] != 'd'
    ensures PyRe.Sub(CiteTurn, "", t, i) == [t[i], t[i + 1]] + PyRe.Sub(CiteTurn, "", t, i + 2)
  {
    NoCiteAt(t, i);
    NoCiteAt(t, i + 1);
    PyRe.SubKeepTwo(CiteTurn, t, i);
  }

  /** Before the leftover, the sample's first two characters are kept. */
  lemma {:induction false} SampleBefore(t: string)
    requires IsSample(t)
    ensures PyRe.Sub(CiteTurn, "", t, 0) == [t[0], t[1]] + PyRe.Sub(CiteTurn, "", t, 2)
  {
    KeptTwo(t, 0);
  }

  /** Deleting the citation leftover from the sample keeps both spaces. */
  lemma SampleCiteDeleted(t: string)
    requires IsSample(t)
    ensures DeleteAll(CiteTurn, t) == [t[0], t[1], t[11], t[12]]
  {
    SampleBefore(t);
    SampleMatch(t);
    PyRe.SubSkip(CiteTurn, t, 2);
    SampleAfter(t);
  }

  /** The sample has no private-use character. */
  lemma SampleNoPrivate(t: string)
    requires IsSample(t)
    ensures DropPrivate(t) == t
  {
  }

  /** The sample comes back with the leftover gone and both spaces kept. */
  lemma SampleSanitized(t: string)
    requires IsSample(t)
    ensures SanitizePreservingMarkdown(t) == [t[0], t[1], t[11], t[12]]
  {
    SampleNoPrivate(t);
    SampleCiteDeleted(t);
    SampleRestKept([t[0], t[1], t[11], t[12]]);
  }

  /** Nothing else in the sample is a leftover, and stripping keeps it. */
  lemma SampleRestKept(u: string)
    requires |u| == 4 && u[0] == 'a' && u[1] == ' ' && u[2] == ' ' && u[3] == 'b'
    ensures PyStrip(DeleteAll(Turn, u)) == u
  {
    assert u[0..4][0] == 'a';
    forall j | 0 <= j <= |u| ensures PyRe.MatchAt(Turn, u, j).None? {
      NoTurnAt(u, j);
    }
    PyRe.SubNoMatch(Turn, "", u, 0);
    assert u[0..] == u;
    StripFixed(u);
  }

  /** Deleting a leftover leaves the spaces around it: "a citeTurn0 b"
      becomes "a  b". */
  lemma LeftoverSpacesStay()
    ensures SanitizePreservingMarkdown("a citeTurn0 b") == "a  b"
  {
    SampleSanitized("a citeTurn0 b");
  }
}
