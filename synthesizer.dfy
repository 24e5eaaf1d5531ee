/** The task content synthesizer: turns a request such as "recuérdame
    pagar la luz mañana a las 5" into a short title by dropping leading
    instructions and the date, time, article and possessive phrases, then
    tidying spaces and punctuation. */
module ContentSynthesizer {
  import opened Text
  import opened Wrappers
  import opened PyRe
  import Seqs

  const Months: seq<string> := [
    "enero", "febrero", "marzo", "abril", "mayo", "junio",
    "julio", "agosto", "septiembre", "setiembre", "octubre",
    "noviembre", "diciembre"]

  const Weekdays: seq<string> := [
    "lunes", "martes", "miércoles", "miercoles", "jueves",
    "viernes", "sábado", "sabado", "domingo"]

  const LeadingInstructions: seq<string> := [
    "por favor", "porfa", "favor de", "que", "quiero", "necesito",
    "recuerdame", "recuérdame", "recordar", "agenda", "agendar",
    "agrega", "agregar", "añade", "añadir", "programa", "programar",
    "crea", "crear", "haz", "hacer"]

  // ---------------------------------------------------------------------------
  // Leading instructions
  // ---------------------------------------------------------------------------

  /** The text opens with phrase k of ps followed by a space. */
  predicate OpensWith(t: string, ps: seq<string>, k: nat)
    requires k < |ps|
  {
    StartsWith(t, ps[k] + " ")
  }

  predicate NoLeadingPhrase(t: string, ps: seq<string>) {
    forall k :: 0 <= k < |ps| ==> !OpensWith(t, ps, k)
  }

  /** The first phrase, from k on in list order, that the text opens with. */
  function FirstOpening(t: string, ps: seq<string>, k: nat): (r: Option<nat>)
    requires k <= |ps|
    ensures r.None? <==> forall j :: k <= j < |ps| ==> !OpensWith(t, ps, j)
    ensures r.Some? ==> k <= r.value < |ps| && OpensWith(t, ps, r.value)
    ensures r.Some? ==> forall j :: k <= j < r.value ==> !OpensWith(t, ps, j)
    decreases |ps| - k
  {
    if k == |ps| then None
    else if OpensWith(t, ps, k) then Some(k)
    else FirstOpening(t, ps, k + 1)
  }

  /** `t[len(phrase):].lstrip()`: dropping phrase k and the spaces after it
      shortens the text. */
  function DropOpening(t: string, ps: seq<string>, k: nat): (r: string)
    requires k < |ps| && OpensWith(t, ps, k)
    ensures |r| < |t| && Tail(r, t)
  {
    var p := ps[k];
    assert t[|p|] == (p + " ")[|p|] == ' ';
    var rest := t[|p|..];
    var r := StripLeft(rest, White(Py));
    Seqs.DropDrop(t, |p|, |rest| - |r|);
    r
  }

  /** A scan in list order from j stops at the first phrase that opens the
      text. */
  lemma {:induction false} FirstIs(t: string, ps: seq<string>, j: nat, k: nat)
    requires j <= k < |ps| && OpensWith(t, ps, k)
    requires forall i :: j <= i < k ==> !OpensWith(t, ps, i)
    ensures FirstOpening(t, ps, j) == Some(k)
    decreases k - j
  {
    if j < k {
      FirstIs(t, ps, j + 1, k);
    }
  }

  /** The text once the loop stops: while the text opens with a phrase, the
      first one in list order is dropped. */
  function StripPhrases(t: string, ps: seq<string>): (r: string)
    ensures NoLeadingPhrase(r, ps)
    ensures Tail(r, t)
    decreases |t|
  {
    var first := FirstOpening(t, ps, 0);
    if first.None? then
      assert t[0..] == t;
      t
    else
      var u := DropOpening(t, ps, first.value);
      var r := StripPhrases(u, ps);
      SuffixOfSuffix(t, u, r);
      r
  }

  /** r is what is left of t once a prefix is dropped. */
  predicate Tail(r: string, t: string) {
    |r| <= |t| && r == t[|t| - |r|..]
  }

  lemma SuffixOfSuffix(t: string, u: string, r: string)
    requires Tail(u, t) && Tail(r, u)
    ensures Tail(r, t)
  {
    Seqs.DropDrop(t, |t| - |u|, |u| - |r|);
  }

  // ---------------------------------------------------------------------------
  // The substitutions, in the order they are applied
  // ---------------------------------------------------------------------------

  /** r0 r1 ... in sequence. */
  function Cats(rs: seq<Re>): (r: Re)
    requires rs != []
    decreases |rs|
  {
    if |rs| == 1 then rs[0] else Cat(rs[0], Cats(rs[1..]))
  }

  /** `\d{1,2}`, `(:\d{2})?`, `\s*` and `(am|pm|a\.m\.|p\.m\.)`. */
  const Day: Re := Run(Digit, 1, Some(2))
  const Minutes: Re := Opt(Cat(Lit(":"), Run(Digit, 2, Some(2))))
  const MaybeSpaces: Re := Run(Blank, 0, None)
  const Meridiem: Re := WordAlts(["am", "pm", "a.m.", "p.m."])

  // Every pattern starts with `\b`; each constant below is what follows it.

  /** `\bpara\b` */
  const Para: Re := Cat(Lit("para"), WordB)
  /** `\b(pasado\s+mañana|pasado\s+manana)\b` */
  const DayAfter: Re := Cat(Alt(Phrase(["pasado", "mañana"]), Phrase(["pasado", "manana"])), WordB)
  /** `\b(mañana|manana|hoy|esta\s+semana|este\s+fin\s+de\s+semana|fin\s+de\s+semana)\b` */
  const RelativeDay: Re := Cat(Alts([
    Lit("mañana"), Lit("manana"), Lit("hoy"), Phrase(["esta", "semana"]),
    Phrase(["este", "fin", "de", "semana"]), Phrase(["fin", "de", "semana"])]), WordB)
  /** `\bpr[oó]ximos?\s+\d+\s+d[ií]as\b` */
  const NextDays: Re := Cats([
    Lit("pr"), One({'o', 'ó'}), Lit("ximo"), Opt(Lit("s")), Spaces, Digits, Spaces,
    Lit("d"), One({'i', 'í'}), Lit("as"), WordB])
  /** `\b(lunes|...|domingo)\b` */
  const Weekday: Re := Cat(WordAlts(Weekdays), WordB)
  /** `\b\d{4}-\d{2}-\d{2}\b` */
  const IsoDate: Re := Cats([
    Run(Digit, 4, Some(4)), Lit("-"), Run(Digit, 2, Some(2)), Lit("-"), Run(Digit, 2, Some(2)), WordB])
  /** `\b\d{1,2}[/-]\d{1,2}([/-]\d{2,4})?\b` */
  const ShortDate: Re := Cats([
    Day, One({'/', '-'}), Day, Opt(Cat(One({'/', '-'}), Run(Digit, 2, Some(4)))), WordB])
  /** `\b\d{1,2}\s+de\s+(enero|...|diciembre)\b` */
  const DayOfMonth: Re := Cats([Day, Spaces, Lit("de"), Spaces, WordAlts(Months), WordB])
  /** `\b(a\s+las|a\s+la|al)\s+\d{1,2}(:\d{2})?\s*(am|pm|a\.m\.|p\.m\.)?\b` */
  const AtTime: Re := Cats([
    Alts([Phrase(["a", "las"]), Phrase(["a", "la"]), Lit("al")]), Spaces, Day, Minutes,
    MaybeSpaces, Opt(Meridiem), WordB])
  /** `\b\d{1,2}(:\d{2})?\s*(am|pm|a\.m\.|p\.m\.)\b` */
  const Clock: Re := Cats([Day, Minutes, MaybeSpaces, Meridiem, WordB])
  /** `\bde\s+la\s+(mañana|manana|tarde|noche)\b` */
  const DayPart: Re := Cats([
    Lit("de"), Spaces, Lit("la"), Spaces, WordAlts(["mañana", "manana", "tarde", "noche"]), WordB])
  /** `\ben\s+(el|la|los|las)\b` */
  const Article: Re := Cats([Lit("en"), Spaces, WordAlts(["el", "la", "los", "las"]), WordB])
  /** `\b(mi|mis|tu|tus|su|sus|nuestro|nuestra|nuestros|nuestras)\b` */
  const Possessive: Re := Cat(WordAlts([
    "mi", "mis", "tu", "tus", "su", "sus", "nuestro", "nuestra", "nuestros", "nuestras"]), WordB)

  /** `re.sub(r"\b...", rep, t)` */
  function SubB(body: Re, rep: string, t: string): string {
    SubAll(Cat(WordB, body), rep, t)
  }

  /** "para" becomes "de", then the dates, times, articles and possessives
      become spaces, in the source's order. */
  function Cleaned(t: string): string {
    var t := SubB(Para, "de", t);
    var t := SubB(DayAfter, " ", t);
    var t := SubB(RelativeDay, " ", t);
    var t := SubB(NextDays, " ", t);
    var t := SubB(Weekday, " ", t);
    var t := SubB(IsoDate, " ", t);
    var t := SubB(ShortDate, " ", t);
    var t := SubB(DayOfMonth, " ", t);
    var t := SubB(AtTime, " ", t);
    var t := SubB(Clock, " ", t);
    var t := SubB(DayPart, " ", t);
    var t := SubB(Article, " ", t);
    SubB(Possessive, " ", t)
  }

  /** `strip(" -:,.")` */
  const Trim: CharSet := Chars({' ', '-', ':', ',', '.'})

  /** Spaces collapsed and the ends trimmed. */
  function Tidied(t: string): string {
    Strip(Collapse(t, White(Py)), Trim)
  }

  /** The lower-cased text without its instructions, cleaned and tidied. */
  function Title(text: string): string {
    Tidied(Cleaned(StripPhrases(LowerStr(PyStrip(text)), LeadingInstructions)))
  }

  /** `synthesize_task_content` */
  function Synthesized(text: string): string {
    if text == "" then ""
    else
      var t := Title(text);
      if t == [] then PyStrip(text) else Capitalize(t)
  }

  /** What a title looks like: not empty, no two neighbouring spaces, every
      space a plain ' ', and no space or trimmed punctuation at either end. */
  predicate Tidy(r: string) {
    r != []
    && NoDoubleSpace(r, White(Py))
    && (forall i :: 0 <= i < |r| && PySpace(r[i]) ==> r[i] == ' ')
    && !In(r[0], Trim) && !PySpace(r[0])
    && !In(r[|r| - 1], Trim) && !PySpace(r[|r| - 1])
  }

  // ---------------------------------------------------------------------------
  // The operation
  // ---------------------------------------------------------------------------

  /** One pass of the instruction loop: the phrases are tried in list
      order and the pass stops at the first that opens the text. */
  method FindOpening(t: string, ps: seq<string>) returns (found: Option<nat>)
    ensures found == FirstOpening(t, ps, 0)
  {
    var k := 0;
    while k < |ps|
      invariant 0 <= k <= |ps|
      invariant forall j :: 0 <= j < k ==> !OpensWith(t, ps, j)
    {
      if StartsWith(t, ps[k] + " ") {
        FirstIs(t, ps, 0, k);
        return Some(k);
      }
      k := k + 1;
    }
    return None;
  }

  /** The instruction loop of `synthesize_task_content`: passes over the
      list until one drops nothing. */
  method DropLeadingPhrases(t0: string, ps: seq<string>) returns (t: string)
    ensures t == StripPhrases(t0, ps)
    ensures NoLeadingPhrase(t, ps) && Tail(t, t0)
  {
    t := t0;
    var changed := true;
    while changed
      invariant StripPhrases(t, ps) == StripPhrases(t0, ps)
      invariant !changed ==> FirstOpening(t, ps, 0).None?
      decreases |t| + (if changed then 1 else 0)
    {
      changed := false;
      var found := FindOpening(t, ps);
      if found.Some? {
        t := DropOpening(t, ps, found.value);
        changed := true;
      }
    }
  }

  /** `synthesize_task_content`, step by step: the instruction loop runs
      until a pass over the list drops nothing. */
  method SynthesizeTaskContent(text: string) returns (r: string)
    ensures r == Synthesized(text)
    ensures r == "" <==> PyStrip(text) == ""
    ensures r != PyStrip(text) ==> Tidy(r)
  {
    if text == "" {
      return "";
    }
    var t := LowerStr(PyStrip(text));
    t := DropLeadingPhrases(t, LeadingInstructions);
    t := SubB(Para, "de", t);
    t := SubB(DayAfter, " ", t);
    t := SubB(RelativeDay, " ", t);
    t := SubB(NextDays, " ", t);
    t := SubB(Weekday, " ", t);
    t := SubB(IsoDate, " ", t);
    t := SubB(ShortDate, " ", t);
    t := SubB(DayOfMonth, " ", t);
    t := SubB(AtTime, " ", t);
    t := SubB(Clock, " ", t);
    t := SubB(DayPart, " ", t);
    t := SubB(Article, " ", t);
    t := SubB(Possessive, " ", t);
    t := Strip(Collapse(t, White(Py)), Trim);
    Outcome(text);
    if t == [] {
      return PyStrip(text);
    }
    return Capitalize(t);
  }

  // ---------------------------------------------------------------------------
  // Properties
  // ---------------------------------------------------------------------------

  /** An empty or blank text gives "", anything else gives a non-empty
      title; a title that is not the stripped text itself is tidy. */
  lemma Outcome(text: string)
    ensures Synthesized(text) == "" <==> PyStrip(text) == ""
    ensures Synthesized(text) != PyStrip(text) ==> Tidy(Synthesized(text))
  {
    if text != "" {
      if PyStrip(text) == "" {
        BlankTitle(text);
      }
      if Title(text) != [] {
        TidiedIsTidy(Cleaned(StripPhrases(LowerStr(PyStrip(text)), LeadingInstructions)));
        CapitalizeTidy(Title(text));
      }
    }
  }

  /** A blank text leaves no title. */
  lemma BlankTitle(text: string)
    requires PyStrip(text) == ""
    ensures Title(text) == ""
  {
    var lower := LowerStr(PyStrip(text));
    assert lower == "";
    assert StripPhrases(lower, LeadingInstructions) == "";
    CleanedEmpty();
  }

  /** Nothing is left of an empty text: every pattern starts with `\b`,
      which the empty text does not have. */
  lemma CleanedEmpty()
    ensures Cleaned("") == ""
  {
    SubEmpty(Para, "de");
    SubEmpty(DayAfter, " ");
    SubEmpty(RelativeDay, " ");
    SubEmpty(NextDays, " ");
    SubEmpty(Weekday, " ");
    SubEmpty(IsoDate, " ");
    SubEmpty(ShortDate, " ");
    SubEmpty(DayOfMonth, " ");
    SubEmpty(AtTime, " ");
    SubEmpty(Clock, " ");
    SubEmpty(DayPart, " ");
    SubEmpty(Article, " ");
    SubEmpty(Possessive, " ");
  }

  /** Neighbouring spaces never occur, and every space is a plain one. */
  predicate SingleSpaces(s: string) {
    NoDoubleSpace(s, White(Py)) && forall i :: 0 <= i < |s| && In(s[i], White(Py)) ==> s[i] == ' '
  }

  lemma DropKeepsSpaces(c: string, o: nat)
    requires o <= |c| && SingleSpaces(c)
    ensures SingleSpaces(c[o..])
  {
    var r := c[o..];
    forall i | 0 <= i < |r| ensures r[i] == c[o + i] { }
  }

  lemma TakeKeepsSpaces(c: string, n: nat)
    requires n <= |c| && SingleSpaces(c)
    ensures SingleSpaces(c[..n])
  {
    var r := c[..n];
    forall i | 0 <= i < |r| ensures r[i] == c[i] { }
  }

  /** Tidying leaves single plain spaces and no trimmed character at either end. */
  lemma TidiedIsTidy(t: string)
    requires Tidied(t) != []
    ensures Tidy(Tidied(t))
  {
    var c := Collapse(t, White(Py));
    CollapseNoDouble(t, White(Py));
    CollapseBlanks(t, White(Py));
    var l := StripLeft(c, Trim);
    var r := StripRight(l, Trim);
    DropKeepsSpaces(c, |c| - |l|);
    TakeKeepsSpaces(l, |r|);
    assert Tidied(t) == r;
    assert r != [] && !In(r[0], Trim) && !In(r[|r| - 1], Trim);
    assert In(' ', Trim);
  }

  /** Upper-casing the first letter keeps a title tidy. */
  lemma CapitalizeTidy(t: string)
    requires Tidy(t)
    ensures Tidy(Capitalize(t))
  {
    var r := Capitalize(t);
    UpperKeepsMarks(t[0]);
    assert r == [Upper(t[0])] + t[1..];
    forall i | 1 <= i < |r|
      ensures r[i] == t[i]
    {
    }
  }

  /** Upper-casing never makes a space or a trimmed mark out of a letter. */
  lemma UpperKeepsMarks(c: char)
    ensures PySpace(Upper(c)) ==> Upper(c) == c
    ensures In(Upper(c), Trim) ==> Upper(c) == c
  {
  }

  /** The whole word "para" is written "de". */
  lemma ParaBecomesDe(s: string, i: nat)
    requires i + 4 <= |s| && s[i..i + 4] == "para"
    requires Boundary(Py, s, i) && Boundary(Py, s, i + 4)
    ensures Sub(Cat(WordB, Para), "de", s, i) == "de" + Sub(Cat(WordB, Para), "de", s, i + 4)
  {
    WholeWordAt("para", s, i);
  }

  /** Where no word starts, "para" is not replaced: "comparar" keeps it. */
  lemma ParaInsideWordKept(s: string, i: nat)
    requires i < |s| && !Boundary(Py, s, i)
    ensures Sub(Cat(WordB, Para), "de", s, i) == [s[i]] + Sub(Cat(WordB, Para), "de", s, i + 1)
  {
    WholeWordAt("para", s, i);
  }
}
