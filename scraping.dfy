/** The Telcel scraper's `limpiar_texto`: every whitespace run becomes one
    blank and the ends are stripped; a missing or empty text reads "N/A". */
module Scraping {
  import opened Wrappers
  import opened Text

  /** Stripping blanks off a text with no doubled blanks leaves none. */
  lemma StripKeepsNoDouble(s: string)
    requires NoDoubleSpace(s, White(Py))
    ensures NoDoubleSpace(PyStrip(s), White(Py))
  {
    var l := StripLeft(s, White(Py));
    var r := StripRight(l, White(Py));
    assert PyStrip(s) == r;
    var o := |s| - |l|;
    forall i | 0 <= i < |r| - 1 ensures !(In(r[i], White(Py)) && In(r[i + 1], White(Py))) {
      assert r[i] == l[i] && r[i + 1] == l[i + 1];
      assert l[i] == s[o + i] && l[i + 1] == s[o + i + 1];
    }
  }

  /** Stripping a text whose only white space is the blank leaves such a
      text. */
  lemma StripKeepsBlanks(s: string)
    requires forall i :: 0 <= i < |s| && In(s[i], White(Py)) ==> s[i] == ' '
    ensures forall i :: 0 <= i < |PyStrip(s)| && In(PyStrip(s)[i], White(Py)) ==> PyStrip(s)[i] == ' '
  {
    var l := StripLeft(s, White(Py));
    var r := StripRight(l, White(Py));
    assert PyStrip(s) == r;
    var o := |s| - |l|;
    forall i | 0 <= i < |r| && In(r[i], White(Py)) ensures r[i] == ' ' {
      assert r[i] == l[i] && l[i] == s[o + i];
    }
  }

  /** Dropping a trailing run of blanks does not change what Keep keeps. */
  lemma {:induction false} KeepStripRight(s: string)
    ensures Keep(StripRight(s, White(Py)), White(Py)) == Keep(s, White(Py))
    decreases |s|
  {
    if s != [] && PySpace(s[|s| - 1]) {
      var init := s[..|s| - 1];
      KeepStripRight(init);
      assert s == init + [s[|s| - 1]];
      KeepConcat(init, [s[|s| - 1]], White(Py));
    }
  }

  /** Stripping keeps the non-blank characters, in order. */
  lemma StripKeeps(s: string)
    ensures Keep(PyStrip(s), White(Py)) == Keep(s, White(Py))
  {
    KeepSpaceRun(s, White(Py));
    KeepStripRight(StripLeft(s, White(Py)));
  }

  /** `limpiar_texto(texto)`: "N/A" for a missing or empty text; otherwise
      the collapsed, stripped text, which has no whitespace at either end,
      no two neighbouring whitespace characters and no white space but the
      blank, so single blanks between words, and the text's non-blank
      characters in their order. */
  function LimpiarTexto(texto: Option<string>): (r: string)
    ensures texto.None? || texto.value == "" ==> r == "N/A"
    ensures texto.Some? && texto.value != "" ==>
      (r == [] || (!PySpace(r[0]) && !PySpace(r[|r| - 1])))
      && NoDoubleSpace(r, White(Py))
      && Keep(r, White(Py)) == Keep(texto.value, White(Py))
    ensures texto.Some? && texto.value != "" ==> forall i :: 0 <= i < |r| && PySpace(r[i]) ==> r[i] == ' '
  {
    if texto.None? || texto.value == "" then "N/A"
    else
      var c := Collapse(texto.value, White(Py));
      CollapseNoDouble(texto.value, White(Py));
      CollapseKeeps(texto.value, White(Py));
      StripKeepsNoDouble(c);
      StripKeeps(c);
      CollapseBlanks(texto.value, White(Py));
      StripKeepsBlanks(c);
      PyStrip(c)
  }

  lemma {:induction false} StripLeftAll(s: string)
    requires forall i :: 0 <= i < |s| ==> PySpace(s[i])
    ensures StripLeft(s, White(Py)) == []
    decreases |s|
  {
    if s != [] {
      assert forall i :: 0 <= i < |s| - 1 ==> s[1..][i] == s[i + 1];
      StripLeftAll(s[1..]);
    }
  }

  /** A text of whitespace only cleans to "", not to "N/A". */
  lemma BlankIsEmpty(texto: string)
    requires texto != [] && forall i :: 0 <= i < |texto| ==> PySpace(texto[i])
    ensures LimpiarTexto(Some(texto)) == ""
  {
    var c := Collapse(texto, White(Py));
    assert c == " " + Collapse(StripLeft(texto, White(Py)), White(Py));
    StripLeftAll(texto);
    assert c == " ";
    assert StripLeft(c, White(Py)) == StripLeft(c[1..], White(Py));
  }
}
