/** The task continuation: the user's answer to a follow-up question fills
    the awaited slot of the task kept in the conversation state, moving it
    along meeting_link, then datetime, then completed. A completed task is
    stored and the conversation state is reset. The datetime normaliser's
    answer is a parameter. */
module TaskContinuation {
  import opened Wrappers
  import opened Json
  import opened Text
  import opened PyRe
  import opened UserTasks
  import opened ConvStore
  import ContentSynthesizer
  import TaskCalendar
  import TaskOrchestrator
  import opened AgentReply

  // ---------------------------------------------------------------------------
  // _has_explicit_date
  // ---------------------------------------------------------------------------

  /** `\d{4}-\d{2}-\d{2}` */
  const IsoDate: Re := ContentSynthesizer.Cats([
    Run(Digit, 4, Some(4)), Lit("-"), Run(Digit, 2, Some(2)), Lit("-"), Run(Digit, 2, Some(2))])

  /** `\d{1,2}[/-]\d{1,2}([/-]\d{2,4})?` */
  const ShortDate: Re := ContentSynthesizer.Cats([
    Run(Digit, 1, Some(2)), One({'/', '-'}), Run(Digit, 1, Some(2)),
    Opt(Cat(One({'/', '-'}), Run(Digit, 2, Some(4))))])

  const MonthNames: seq<string> := [
    "enero", "febrero", "marzo", "abril", "mayo", "junio", "julio", "agosto",
    "septiembre", "setiembre", "octubre", "noviembre", "diciembre"]

  /** `lunes|martes|mi[eé]rcoles|jueves|viernes|s[áa]bado|domingo` */
  const WeekdayNames: Re :=
    Alt(Lit("lunes"), Alt(Lit("martes"), Alt(Cat(Lit("mi"), Cat(One({'e', 'é'}), Lit("rcoles"))),
    Alt(Lit("jueves"), Alt(Lit("viernes"), Alt(Cat(Lit("s"), Cat(One({'á', 'a'}), Lit("bado"))), Lit("domingo")))))))

  /** `hoy|ma[nñ]ana|pasado ma[nñ]ana` */
  const RelativeDays: Re :=
    Alt(Lit("hoy"), Alt(Cat(Lit("ma"), Cat(One({'n', 'ñ'}), Lit("ana"))),
                        Cat(Lit("pasado ma"), Cat(One({'n', 'ñ'}), Lit("ana")))))

  /** The date hint: each alternative between word boundaries, in the
      source's order. */
  const DateHint: Re :=
    Alt(Whole(IsoDate), Alt(Whole(ShortDate), Alt(Whole(WordAlts(MonthNames)), Alt(Whole(WeekdayNames), Whole(RelativeDays)))))

  /** `_has_explicit_date`: whether the hint occurs anywhere. The pattern is
      case-insensitive and all its letters are lower case, so it is searched
      in the lower-cased text. */
  predicate HasExplicitDate(text: string) {
    Search(DateHint, LowerStr(text)).Some?
  }

  /** A non-empty list of ends stays non-empty after a continuation that
      can end where the first one does. */
  lemma CatEndsHead(b: Re, s: string, i: nat, js: seq<nat>)
    requires js != [] && forall j :: 0 <= j < |js| ==> i <= js[j] <= |s|
    requires Ends(b, s, js[0]) != []
    ensures CatEnds(b, s, i, js) != []
  {
  }

  /** "hoy" as a whole word is an explicit date. */
  lemma TodayIsExplicit(text: string, i: nat)
    requires i + 3 <= |LowerStr(text)| && LowerStr(text)[i..i + 3] == "hoy"
    requires Boundary(Py, LowerStr(text), i) && Boundary(Py, LowerStr(text), i + 3)
    ensures HasExplicitDate(text)
  {
    var t := LowerStr(text);
    var rel := Ends(RelativeDays, t, i);
    assert Ends(Lit("hoy"), t, i) == [i + 3];
    assert rel[0] == i + 3;
    assert Ends(WordB, t, i + 3) == [i + 3];
    CatEndsHead(WordB, t, i, rel);
    assert Ends(WordB, t, i) == [i];
    CatEndsHead(Cat(RelativeDays, WordB), t, i, [i]);
    assert Ends(Whole(RelativeDays), t, i) != [];
    assert MatchAt(DateHint, t, i).Some?;
  }

  // ---------------------------------------------------------------------------
  // The first http(s) URL
  // ---------------------------------------------------------------------------

  /** `https?://\S+` */
  const UrlPattern: Re := Cat(Lit("http"), Cat(Opt(Lit("s")), Cat(Lit("://"), Run(NonBlank, 1, None))))

  /** A continuation of a list of starts ends where b ends from one of them. */
  lemma {:induction false} CatEndsFrom(b: Re, s: string, i: nat, js: seq<nat>, e: nat)
    requires forall j :: 0 <= j < |js| ==> i <= js[j] <= |s|
    requires e in CatEnds(b, s, i, js)
    ensures exists k :: 0 <= k < |js| && e in Ends(b, s, js[k])
    decreases |js|
  {
    if e !in Ends(b, s, js[0]) {
      CatEndsFrom(b, s, i, js[1..], e);
      var k :| 0 <= k < |js[1..]| && e in Ends(b, s, js[1..][k]);
      assert e in Ends(b, s, js[k + 1]);
    }
  }

  /** A match of a literal followed by b: the literal is there and b
      matches after it. */
  lemma LitThen(w: string, b: Re, s: string, i: nat, e: nat)
    requires i <= |s|
    requires e in Ends(Cat(Lit(w), b), s, i)
    ensures i + |w| <= |s| && s[i..i + |w|] == w && e in Ends(b, s, i + |w|)
  {
    if i + |w| <= |s| && s[i..i + |w|] == w {
      CatOne(b, s, i, i + |w|);
    }
  }

  /** A match of an optional "s" followed by b: b matches right there or
      after an "s". */
  lemma OptThen(b: Re, s: string, i: nat, e: nat)
    requires i <= |s|
    requires e in Ends(Cat(Opt(Lit("s")), b), s, i)
    ensures e in Ends(b, s, i) || (i + 1 <= |s| && s[i..i + 1] == "s" && e in Ends(b, s, i + 1))
  {
    CatEndsFrom(b, s, i, Ends(Opt(Lit("s")), s, i), e);
  }

  /** `\S+` matches a non-empty run of non-blank characters. */
  lemma NonBlankRun(s: string, i: nat, e: nat)
    requires i <= |s|
    requires e in Ends(Run(NonBlank, 1, None), s, i)
    ensures i + 1 <= e <= |s| && forall j :: i <= j < e ==> !PySpace(s[j])
  {
  }

  /** Visible ASCII only: no blank. */
  predicate Printable(w: string) {
    forall k :: 0 <= k < |w| ==> '!' <= w[k] <= '~'
  }

  lemma PrintableParts()
    ensures Printable("http") && Printable("s") && Printable("://")
  {
  }

  /** Where a literal without blanks matched, the text has no blank. */
  lemma LitNoBlank(w: string, s: string, i: nat)
    requires i + |w| <= |s| && s[i..i + |w|] == w
    requires Printable(w)
    ensures forall j :: i <= j < i + |w| ==> !PySpace(s[j])
  {
    forall j | i <= j < i + |w|
      ensures !PySpace(s[j])
    {
      assert s[j] == s[i..i + |w|][j - i];
    }
  }

  /** A match of `://\S+` from m has no blank and at least four
      characters. */
  lemma SeparatorShape(s: string, m: nat, e: nat)
    requires m <= |s|
    requires e in Ends(Cat(Lit("://"), Run(NonBlank, 1, None)), s, m)
    ensures m + 4 <= e <= |s|
    ensures forall j :: m <= j < e ==> !PySpace(s[j])
  {
    LitThen("://", Run(NonBlank, 1, None), s, m, e);
    NonBlankRun(s, m + 3, e);
    PrintableParts();
    LitNoBlank("://", s, m);
  }

  /** Every match of the URL pattern starts with "http", is at least eight
      characters long and contains no blank. */
  lemma UrlShape(s: string, i: nat, e: nat)
    requires i <= |s|
    requires e in Ends(UrlPattern, s, i)
    ensures i + 8 <= e <= |s| && s[i..i + 4] == "http"
    ensures forall j :: i <= j < e ==> !PySpace(s[j])
  {
    var sep := Cat(Lit("://"), Run(NonBlank, 1, None));
    LitThen("http", Cat(Opt(Lit("s")), sep), s, i, e);
    OptThen(sep, s, i + 4, e);
    PrintableParts();
    LitNoBlank("http", s, i);
    if e in Ends(sep, s, i + 4) {
      SeparatorShape(s, i + 4, e);
    } else {
      LitNoBlank("s", s, i + 4);
      SeparatorShape(s, i + 5, e);
    }
  }

  /** The text a match of the URL pattern covers. */
  lemma UrlText(msg: string, i: nat, e: nat)
    requires i <= |msg| && e in Ends(UrlPattern, msg, i)
    ensures i + 8 <= e <= |msg|
    ensures |msg[i..e]| >= 8 && StartsWith(msg[i..e], "http") && Contains(msg, msg[i..e])
    ensures forall j :: 0 <= j < |msg[i..e]| ==> !PySpace(msg[i..e][j])
  {
    UrlShape(msg, i, e);
    ContainsAt(msg, msg[i..e], i);
    assert msg[i..e][..4] == msg[i..i + 4];
  }

  /** The first end of `://\S+` from m is where the non-blank run stops. */
  lemma SeparatorMaximal(s: string, m: nat)
    requires m <= |s|
    requires Ends(Cat(Lit("://"), Run(NonBlank, 1, None)), s, m) != []
    ensures var e := Ends(Cat(Lit("://"), Run(NonBlank, 1, None)), s, m)[0]; e == |s| || PySpace(s[e])
  {
    var run := Run(NonBlank, 1, None);
    CatEndsFirst(run, s, m, Ends(Lit("://"), s, m));
    RunFirstMaximal(NonBlank, 1, s, m + 3);
  }

  /** The first end of `s?://\S+` from m is a first end of `://\S+`
      from m or m + 1. */
  lemma OptFirst(b: Re, s: string, m: nat)
    requires m <= |s|
    requires Ends(Cat(Opt(Lit("s")), b), s, m) != []
    ensures exists n :: m <= n <= |s| && Ends(b, s, n) != [] && Ends(Cat(Opt(Lit("s")), b), s, m)[0] == Ends(b, s, n)[0]
  {
    CatEndsFirst(b, s, m, Ends(Opt(Lit("s")), s, m));
  }

  /** The first end of the URL pattern is the first end of `s?://\S+`
      after "http". */
  lemma HttpFirst(b: Re, s: string, i: nat)
    requires i <= |s|
    requires Ends(Cat(Lit("http"), b), s, i) != []
    ensures i + 4 <= |s| && Ends(b, s, i + 4) != [] && Ends(Cat(Lit("http"), b), s, i)[0] == Ends(b, s, i + 4)[0]
  {
    CatEndsFirst(b, s, i, Ends(Lit("http"), s, i));
  }

  /** The `\S+` of a URL match runs to the end of the text or to a blank. */
  lemma UrlMaximal(s: string, i: nat)
    requires i <= |s| && MatchAt(UrlPattern, s, i).Some?
    ensures var e := MatchAt(UrlPattern, s, i).value; e == |s| || PySpace(s[e])
  {
    var sep := Cat(Lit("://"), Run(NonBlank, 1, None));
    HttpFirst(Cat(Opt(Lit("s")), sep), s, i);
    OptFirst(sep, s, i + 4);
    var n :| i + 4 <= n <= |s| && Ends(sep, s, n) != [] && Ends(Cat(Opt(Lit("s")), sep), s, i + 4)[0] == Ends(sep, s, n)[0];
    SeparatorMaximal(s, n);
  }

  /** u is the URL pattern's match at p, no match starts earlier and its
      `\S+` runs to the end of the text or to a blank. */
  predicate LeftmostUrl(msg: string, u: string, p: nat) {
    p + |u| <= |msg| && MatchAt(UrlPattern, msg, p) == Some(p + |u|) && u == msg[p..p + |u|]
    && (forall j :: 0 <= j < p ==> MatchAt(UrlPattern, msg, j).None?)
    && (p + |u| == |msg| || PySpace(msg[p + |u|]))
  }

  /** A search hit for the URL pattern is the leftmost match, its run
      taken as far as it goes. */
  lemma SearchHit(msg: string, i: nat, e: nat)
    requires Search(UrlPattern, msg) == Some((i, e))
    ensures LeftmostUrl(msg, msg[i..e], i)
  {
    UrlMaximal(msg, i);
    assert i + |msg[i..e]| == e;
  }

  /** The first http(s) URL of the message, as `re.search(...).group(0)`:
      the match at the leftmost position where the pattern matches, its
      `\S+` taken as far as it goes. */
  function FirstUrl(msg: string): (r: Option<string>)
    ensures r.None? <==> forall j :: 0 <= j <= |msg| ==> MatchAt(UrlPattern, msg, j).None?
    ensures r.Some? ==> |r.value| >= 8 && StartsWith(r.value, "http") && Contains(msg, r.value)
    ensures r.Some? ==> forall j :: 0 <= j < |r.value| ==> !PySpace(r.value[j])
    ensures r.Some? ==> exists p :: LeftmostUrl(msg, r.value, p)
  {
    match Search(UrlPattern, msg)
    case None => None
    case Some((i, e)) =>
      UrlText(msg, i, e);
      SearchHit(msg, i, e);
      Some(msg[i..e])
  }

  // ---------------------------------------------------------------------------
  // handle_task_continuation
  // ---------------------------------------------------------------------------

  const NoLinkKeywords: seq<string> := [
    "presencial", "en persona", "en oficina", "físico",
    "cara a cara", "no tiene", "no hay", "sin liga", "sin link"]

  const InPersonReply: string := "✅ Entendido, es una reunión presencial. ¿A qué hora será el evento?"
  const LinkAddedReply: string := "✅ Listo, ya agregué la liga al evento. ¿A qué hora será?"
  const AskLinkReply: string := "🔗 ¿Podrías compartirme la liga de la reunión?"
  const NotUnderstoodReply: string :=
    "No pude entender la fecha u hora. Por ejemplo: 'ma??ana a las 10 am' o 'el viernes a las 3 pm'."
  const CommentReply: string := "✅ Perfecto, ya agregué el comentario a la tarea."

  /** Python `str()` of a value in a reply. */
  function Show(v: Json): string {
    match v
    case JStr(s) => s
    case JNull => "None"
    case JBool(b) => if b then "True" else "False"
    case JNum(n) => if n < 0 then "-" + NatToString(-n) else NatToString(n)
    case _ => ""
  }

  /** `d.get(k)` */
  function At(m: map<string, Json>, k: string): (v: Json)
    ensures k in m ==> v == m[k]
    ensures k !in m ==> v == JNull
  {
    Get(JObj(m), k)
  }

  /** What one branch decides: the reply, the task fields it sets, the new
      status, and the next slot (None when the branch removes it). */
  datatype Step = Step(reply: string, fields: map<string, Json>, status: string, next: Option<string>)

  /** The fields a branch may set besides the status and the next slot. */
  const Written: set<string> := {"meeting_link", "meeting_type", "fecha", "hora", "description"}

  /** A step keeps the state machine's rule: "completed" exactly when no
      slot is left, and a left slot is meeting_link or datetime. */
  predicate Coherent(st: Step) {
    st.fields.Keys <= Written
    && (st.status == "completed" <==> st.next.None?)
    && (st.next.Some? ==> st.next.value in {"meeting_link", "datetime"})
  }

  /** The meeting_link slot: a keyword saying there is no link wins over a
      URL; either moves on to the date and time; anything else asks for the
      link again. */
  function LinkStep(msg: string): (st: Step)
    ensures Coherent(st) && st.next.Some?
    ensures ContainsAny(LowerStr(msg), NoLinkKeywords) ==>
      st == Step(InPersonReply, map["meeting_link" := JNull, "meeting_type" := JStr("presencial")], "enriched", Some("datetime"))
    ensures !ContainsAny(LowerStr(msg), NoLinkKeywords) && FirstUrl(msg).Some? ==>
      st == Step(LinkAddedReply, map["meeting_link" := JStr(FirstUrl(msg).value), "meeting_type" := JStr("virtual")],
                 "enriched", Some("datetime"))
    ensures !ContainsAny(LowerStr(msg), NoLinkKeywords) && FirstUrl(msg).None? ==>
      st == Step(AskLinkReply, map[], "created", Some("meeting_link"))
  {
    if ContainsAny(LowerStr(msg), NoLinkKeywords) then
      Step(InPersonReply, map["meeting_link" := JNull, "meeting_type" := JStr("presencial")], "enriched", Some("datetime"))
    else match FirstUrl(msg)
      case Some(url) =>
        Step(LinkAddedReply, map["meeting_link" := JStr(url), "meeting_type" := JStr("virtual")], "enriched", Some("datetime"))
      case None => Step(AskLinkReply, map[], "created", Some("meeting_link"))
  }

  /** The fecha a completing reply keeps: the stored one unless the
      message gives a date of its own. */
  function KeptFecha(msg: string, prev: Json, dtFecha: Json): (f: Json)
    ensures PyTruthy(prev) && !HasExplicitDate(msg) ==> f == prev
    ensures !PyTruthy(prev) || HasExplicitDate(msg) ==> f == dtFecha
  {
    if PyTruthy(prev) && !HasExplicitDate(msg) then prev else dtFecha
  }

  /** The datetime slot, given the stored fecha and the normaliser's
      answer: both parts complete the task, one part is saved and the slot
      asked again, neither leaves the task as created. */
  function DatetimeStep(msg: string, prev: Json, f: Json, h: Json): (st: Step)
    ensures Coherent(st) && st.next != Some("meeting_link")
    ensures PyTruthy(f) && PyTruthy(h) ==>
      st.fields == map["hora" := h, "fecha" := KeptFecha(msg, prev, f)] && st.status == "completed"
    ensures PyTruthy(f) && !PyTruthy(h) ==>
      st.fields == map["fecha" := f] && st.status == "enriched" && st.next == Some("datetime")
    ensures !PyTruthy(f) && PyTruthy(h) ==>
      st.fields == map["hora" := h] && st.status == "enriched" && st.next == Some("datetime")
    ensures !PyTruthy(f) && !PyTruthy(h) ==>
      st == Step(NotUnderstoodReply, map[], "created", Some("datetime"))
  {
    if PyTruthy(f) && PyTruthy(h) then
      var fecha := KeptFecha(msg, prev, f);
      Step("??? Perfecto, evento agendado para " + Show(fecha) + " a las " + Show(h) + ".",
        map["hora" := h, "fecha" := fecha], "completed", None)
    else if PyTruthy(f) then
      Step("???? Fecha guardada: " + Show(f) + ". ??A qu?? hora ser???", map["fecha" := f], "enriched", Some("datetime"))
    else if PyTruthy(h) then
      Step("???? Hora guardada: " + Show(h) + ". ??Para qu?? d??a?", map["hora" := h], "enriched", Some("datetime"))
    else
      Step(NotUnderstoodReply, map[], "created", Some("datetime"))
  }

  /** Any other awaited field: the stripped message is the description and
      the task is complete. */
  function CommentStep(msg: string): (st: Step)
    ensures Coherent(st)
    ensures st == Step(CommentReply, map["description" := JStr(PyStrip(msg))], "completed", None)
  {
    Step(CommentReply, map["description" := JStr(PyStrip(msg))], "completed", None)
  }

  /** The branch `handle_task_continuation` takes for the awaited field. */
  function StepFor(msg: string, pending: string, snapshot: map<string, Json>, dt: map<string, Json>): (st: Step)
    ensures Coherent(st)
    ensures pending == "meeting_link" ==> st == LinkStep(msg)
    ensures pending == "datetime" ==> st == DatetimeStep(msg, At(snapshot, "fecha"), At(dt, "fecha"), At(dt, "hora"))
    ensures pending != "meeting_link" && pending != "datetime" ==> st == CommentStep(msg)
  {
    if pending == "meeting_link" then LinkStep(msg)
    else if pending == "datetime" then DatetimeStep(msg, At(snapshot, "fecha"), At(dt, "fecha"), At(dt, "hora"))
    else CommentStep(msg)
  }

  /** The copied snapshot with a step's fields, status and next slot. */
  function Apply(snapshot: map<string, Json>, st: Step): (u: map<string, Json>)
    ensures "status" in u && u["status"] == JStr(st.status)
    ensures "next_slot" in u <==> st.next.Some?
    ensures st.next.Some? ==> u["next_slot"] == JStr(st.next.value)
    ensures forall k :: k != "status" && k != "next_slot" ==>
      (k in u <==> k in snapshot || k in st.fields)
      && (k in u ==> u[k] == if k in st.fields then st.fields[k] else snapshot[k])
  {
    var m := (snapshot + st.fields)["status" := JStr(st.status)];
    if st.next.Some? then m["next_slot" := JStr(st.next.value)] else m - {"next_slot"}
  }

  /** The reply and the enriched task. */
  datatype Continued = Continued(reply: string, updated: map<string, Json>)

  predicate Completed(u: map<string, Json>) {
    At(u, "status") == JStr("completed")
  }

  /** `handle_task_continuation`. The snapshot is a value, so the caller's
      copy is never changed. */
  function HandleTaskContinuation(msg: string, pending: string, snapshot: map<string, Json>, dt: map<string, Json>)
    : (c: Continued)
    ensures c.updated == Apply(snapshot, StepFor(msg, pending, snapshot, dt))
    ensures c.reply == StepFor(msg, pending, snapshot, dt).reply
  {
    var st := StepFor(msg, pending, snapshot, dt);
    Continued(st.reply, Apply(snapshot, st))
  }

  /** In every branch the task is complete exactly when no next slot is
      left, a next slot is meeting_link or datetime, and apart from the
      status, the next slot and the written fields nothing changes. */
  lemma CompletedIffNoNextSlot(msg: string, pending: string, snapshot: map<string, Json>, dt: map<string, Json>)
    ensures var u := HandleTaskContinuation(msg, pending, snapshot, dt).updated;
      (Completed(u) <==> "next_slot" !in u)
      && ("next_slot" in u ==> u["next_slot"] in {JStr("meeting_link"), JStr("datetime")})
      && forall k :: k !in Written && k != "status" && k != "next_slot" ==>
           (k in u <==> k in snapshot) && (k in u ==> u[k] == snapshot[k])
  {
    var st := StepFor(msg, pending, snapshot, dt);
    assert Coherent(st);
    assert st.status == "completed" <==> JStr(st.status) == JStr("completed");
  }

  /** The slots move forward: a meeting_link answer always leaves a slot,
      the link again only when nothing usable came; a datetime answer
      never asks for the link; any other answer completes. */
  lemma SlotsMoveForward(msg: string, snapshot: map<string, Json>, dt: map<string, Json>, other: string)
    requires other != "meeting_link" && other != "datetime"
    ensures var u := HandleTaskContinuation(msg, "meeting_link", snapshot, dt).updated;
      "next_slot" in u && (u["next_slot"] == JStr("meeting_link") <==> u["status"] == JStr("created"))
    ensures At(HandleTaskContinuation(msg, "datetime", snapshot, dt).updated, "next_slot") != JStr("meeting_link")
    ensures Completed(HandleTaskContinuation(msg, other, snapshot, dt).updated)
  {
    var l := LinkStep(msg);
    assert l.next == Some("meeting_link") <==> l.status == "created";
  }

  /** Presencial keywords win over a URL in the same message. */
  lemma KeywordBeatsUrl(msg: string, snapshot: map<string, Json>, dt: map<string, Json>)
    requires Contains(LowerStr(msg), "presencial")
    ensures At(HandleTaskContinuation(msg, "meeting_link", snapshot, dt).updated, "meeting_link") == JNull
    ensures At(HandleTaskContinuation(msg, "meeting_link", snapshot, dt).updated, "meeting_type") == JStr("presencial")
  {
    assert NoLinkKeywords[0] == "presencial";
    var st := LinkStep(msg);
    assert st.fields == map["meeting_link" := JNull, "meeting_type" := JStr("presencial")];
  }

  /** A completing date and time keeps the stored fecha when the message
      names no date. */
  lemma StoredFechaSurvives(msg: string, snapshot: map<string, Json>, dt: map<string, Json>)
    requires PyTruthy(At(dt, "fecha")) && PyTruthy(At(dt, "hora"))
    requires PyTruthy(At(snapshot, "fecha")) && !HasExplicitDate(msg)
    ensures At(HandleTaskContinuation(msg, "datetime", snapshot, dt).updated, "fecha") == At(snapshot, "fecha")
    ensures At(HandleTaskContinuation(msg, "datetime", snapshot, dt).updated, "hora") == At(dt, "hora")
    ensures Completed(HandleTaskContinuation(msg, "datetime", snapshot, dt).updated)
  {
    var st := DatetimeStep(msg, At(snapshot, "fecha"), At(dt, "fecha"), At(dt, "hora"));
    assert "fecha" in st.fields && st.fields["fecha"] == At(snapshot, "fecha");
    assert "hora" in st.fields && st.fields["hora"] == At(dt, "hora");
  }

  /** ... and takes the normaliser's fecha when the message says "hoy". */
  lemma TodayOverridesFecha(msg: string, snapshot: map<string, Json>, dt: map<string, Json>, i: nat)
    requires PyTruthy(At(dt, "fecha")) && PyTruthy(At(dt, "hora"))
    requires i + 3 <= |LowerStr(msg)| && LowerStr(msg)[i..i + 3] == "hoy"
    requires Boundary(Py, LowerStr(msg), i) && Boundary(Py, LowerStr(msg), i + 3)
    ensures At(HandleTaskContinuation(msg, "datetime", snapshot, dt).updated, "fecha") == At(dt, "fecha")
  {
    TodayIsExplicit(msg, i);
    var st := DatetimeStep(msg, At(snapshot, "fecha"), At(dt, "fecha"), At(dt, "hora"));
    assert "fecha" in st.fields && st.fields["fecha"] == At(dt, "fecha");
  }

  // ---------------------------------------------------------------------------
  // continue_task
  // ---------------------------------------------------------------------------

  /** What the outside services answer: the normaliser's date and time for
      the message, the invitation's UUID and stamp, and the new task's id
      and creation time. */
  datatype Services = Services(dt: map<string, Json>, uuid: string, dtstamp: string, taskId: string, now: int)

  /** `synthesize_task_content` on whatever the task holds: a falsy value
      gives "", text is synthesised, anything else has no `strip` and
      raises. */
  function ContentFrom(v: Json): (r: Result<string, string>)
    ensures v.JStr? ==> r == Success(ContentSynthesizer.Synthesized(v.s))
    ensures !v.JStr? && !PyTruthy(v) ==> r == Success("")
    ensures !v.JStr? && PyTruthy(v) ==> r.Failure?
  {
    if v.JStr? then Success(ContentSynthesizer.Synthesized(v.s))
    else if !PyTruthy(v) then Success("")
    else Failure("AttributeError: strip")
  }

  /** A value meant to be text; anything else is no text. */
  function TextOr(v: Json, d: string): (r: string)
    ensures v.JStr? ==> r == v.s
    ensures !v.JStr? ==> r == d
  {
    if v.JStr? then v.s else d
  }

  /** The task type: the enriched task's, the snapshot's, the enriched
      task's `type`, else "note". */
  function TypeOf(u: map<string, Json>, snapshot: map<string, Json>): string {
    TextOr(PyOr(PyOr(PyOr(At(u, "task_type"), At(snapshot, "task_type")), At(u, "type")), JStr("note")), "")
  }

  /** The user key: the enriched task's, then the snapshot's; the state has
      none of its own. */
  function UserKeyOf(u: map<string, Json>, snapshot: map<string, Json>): string {
    TextOr(PyOr(PyOr(At(u, "user_key"), At(snapshot, "user_key")), JStr("")), "")
  }

  /** The task a completed continuation stores. */
  function CompletedTask(u: map<string, Json>, snapshot: map<string, Json>, content: string, svc: Services)
    : (t: Task)
    ensures t.status == "active" && t.kind == TypeOf(u, snapshot) && t.userKey == UserKeyOf(u, snapshot)
    ensures t.content == content && t.id == svc.taskId && t.createdAt == svc.now
    ensures t.fecha == AsString(At(u, "fecha")) && t.hora == AsString(At(u, "hora"))
    ensures t.meetingLink == AsString(At(u, "meeting_link")) && t.meetingType == AsString(At(u, "meeting_type"))
    ensures t.description == AsString(At(u, "description")) && t.location == AsString(At(u, "location"))
  {
    Task(svc.taskId, UserKeyOf(u, snapshot), TypeOf(u, snapshot), content, AsString(At(u, "description")),
      AsString(At(u, "meeting_type")), AsString(At(u, "meeting_link")), AsString(At(u, "location")),
      AsString(At(u, "fecha")), AsString(At(u, "hora")), "active", svc.now)
  }

  /** The invitation of a stored task: only calendar and reminder tasks get
      one, and a failure to build it reads as none. */
  function IcsOf(t: Task, svc: Services): (r: Option<TaskCalendar.IcsFile>)
    ensures t.kind != "calendar" && t.kind != "reminder" ==> r.None?
    ensures (t.kind == "calendar" || t.kind == "reminder") && TaskCalendar.GenerateIcsForTask(t, svc.uuid, svc.dtstamp).Success?
      ==> r == TaskCalendar.GenerateIcsForTask(t, svc.uuid, svc.dtstamp).value
    ensures TaskCalendar.GenerateIcsForTask(t, svc.uuid, svc.dtstamp).Failure? ==> r.None?
  {
    if t.kind != "calendar" && t.kind != "reminder" then None
    else match TaskCalendar.GenerateIcsForTask(t, svc.uuid, svc.dtstamp)
      case Success(o) => o
      case Failure(_) => None
  }

  /** The state after the continuation asks again: the enrichment intent,
      the next slot awaited and the enriched task kept. */
  function AskAgain(state: ConversationState, u: map<string, Json>): (s: ConversationState)
    ensures s.intent == Some("task_enrichment") && s.slots == u && s.awaitingSlot == AsString(At(u, "next_slot"))
    ensures s.originalQuery == state.originalQuery && s.updatedAt == state.updatedAt
  {
    state.(intent := Some("task_enrichment"), awaitingSlot := AsString(At(u, "next_slot")), slots := u)
  }

  /** The state after a completion: nothing pending. */
  function Reset(state: ConversationState): (s: ConversationState)
    ensures s.intent.None? && s.awaitingSlot.None? && s.slots == map[]
    ensures s.originalQuery == state.originalQuery && s.updatedAt == state.updatedAt
  {
    state.(intent := None, awaitingSlot := None, slots := map[])
  }

  /** The content `continue_task` synthesises: the enriched task's, else
      the snapshot's, else "". */
  function RawContent(u: map<string, Json>, snapshot: map<string, Json>): Json {
    GetOr(u, "content", GetOr(snapshot, "content", JStr("")))
  }

  /** `continue_task` asks again when the task is not complete and names a
      next slot. */
  predicate AsksAgain(u: map<string, Json>) {
    !Completed(u) && PyTruthy(At(u, "next_slot"))
  }

  /** `continue_task` over the task dictionary, once the continuation has
      produced the enriched task u from the snapshot; content is what
      synthesising its content gives, used only on completion. */
  function Finished(tasks: map<string, seq<Task>>, state: ConversationState, snapshot: map<string, Json>,
                    u: map<string, Json>, content: Result<string, string>, svc: Services): TaskOrchestrator.Processing
  {
    if AsksAgain(u) then
      TaskOrchestrator.Processing(
        Success(TaskOrchestrator.FollowupAsked(
          u["needs_followup" := JBool(true)]["enrichment_candidates" := JArr([At(u, "next_slot")])])),
        AskAgain(state, u), tasks)
    else
      match content
      case Failure(e) => TaskOrchestrator.Processing(Failure(e), state, tasks)
      case Success(c) => Stored(tasks, state, snapshot, u, c, svc)
  }

  /** The completion: the task is appended to its user's list, its
      invitation built, and the state reset. */
  function Stored(tasks: map<string, seq<Task>>, state: ConversationState, snapshot: map<string, Json>,
                  u: map<string, Json>, content: string, svc: Services): TaskOrchestrator.Processing
  {
    var t := CompletedTask(u, snapshot, content, svc);
    var after := tasks[t.userKey := TasksOf(tasks, t.userKey) + [t]];
    TaskOrchestrator.Processing(Success(TaskOrchestrator.TaskStored(t, Group(TasksOf(after, t.userKey)), IcsOf(t, svc))),
      Reset(state), after)
  }

  /** The awaited field, or "" when none. */
  function PendingOf(state: ConversationState): string {
    if state.awaitingSlot.Some? then state.awaitingSlot.value else ""
  }

  /** The enriched task of a continuation. */
  function UpdatedOf(state: ConversationState, msg: string, svc: Services): map<string, Json> {
    HandleTaskContinuation(msg, PendingOf(state), state.slots, svc.dt).updated
  }

  /** `continue_task` as a whole. */
  function Continue(tasks: map<string, seq<Task>>, state: ConversationState, msg: string, svc: Services)
    : TaskOrchestrator.Processing
  {
    var u := UpdatedOf(state, msg, svc);
    Finished(tasks, state, state.slots, u, ContentFrom(RawContent(u, state.slots)), svc)
  }

  /** The part of `continue_task` after the continuation: the follow-up
      (which writes the state) or the stored task, its invitation and the
      reset of the state. */
  method Finish(store: TaskStore, state: ConversationState, snapshot: map<string, Json>, updated: map<string, Json>,
                content: Result<string, string>, svc: Services)
    returns (out: Result<TaskOrchestrator.Outcome, string>, next: ConversationState)
    modifies store
    ensures TaskOrchestrator.Processing(out, next, store.tasks) == Finished(old(store.tasks), state, snapshot, updated, content, svc)
  {
    var nextSlot := At(updated, "next_slot");
    if At(updated, "status") != JStr("completed") && PyTruthy(nextSlot) {
      out, next := Ask(state, updated, nextSlot);
      return;
    }
    if content.Failure? {
      return Failure(content.error), state;
    }
    out, next := Store(store, state, snapshot, updated, content.value, svc);
  }

  /** `synthesize_task_content` on the task's content. It has no effect,
      so it is computed before the branch that uses it. */
  method SynthesizeContent(raw: Json) returns (r: Result<string, string>)
    ensures r == ContentFrom(raw)
  {
    if raw.JStr? {
      var c := ContentSynthesizer.SynthesizeTaskContent(raw.s);
      r := Success(c);
    } else if !PyTruthy(raw) {
      r := Success("");
    } else {
      r := Failure("AttributeError: strip");
    }
  }

  /** The follow-up as `continue_task` performs it. */
  method Ask(state: ConversationState, updated: map<string, Json>, nextSlot: Json)
    returns (out: Result<TaskOrchestrator.Outcome, string>, next: ConversationState)
    requires nextSlot == At(updated, "next_slot")
    ensures next == AskAgain(state, updated)
    ensures out == Success(TaskOrchestrator.FollowupAsked(
      updated["needs_followup" := JBool(true)]["enrichment_candidates" := JArr([nextSlot])]))
  {
    next := state.(intent := Some("task_enrichment"));
    next := next.(awaitingSlot := AsString(nextSlot));
    next := next.(slots := updated);
    var task := updated["needs_followup" := JBool(true)]["enrichment_candidates" := JArr([nextSlot])];
    out := Success(TaskOrchestrator.FollowupAsked(task));
  }

  /** The completion as `continue_task` performs it. */
  method Store(store: TaskStore, state: ConversationState, snapshot: map<string, Json>, updated: map<string, Json>,
               content: string, svc: Services)
    returns (out: Result<TaskOrchestrator.Outcome, string>, next: ConversationState)
    modifies store
    ensures TaskOrchestrator.Processing(out, next, store.tasks) == Stored(old(store.tasks), state, snapshot, updated, content, svc)
  {
    var task := CompletedTask(updated, snapshot, content, svc);
    store.AddTask(task);
    var ics: Option<TaskCalendar.IcsFile> := None;
    if task.kind == "calendar" || task.kind == "reminder" {
      var made := TaskCalendar.GenerateIcsForTask(task, svc.uuid, svc.dtstamp);
      if made.Success? {
        ics := made.value;
      }
    }
    next := state.(intent := None);
    next := next.(awaitingSlot := None);
    next := next.(slots := map[]);
    var grouped := store.GetTasksGrouped(task.userKey);
    return Success(TaskOrchestrator.TaskStored(task, grouped, ics)), next;
  }

  /** `continue_task`: the awaited field and the kept task feed the
      continuation, whose result is then finished. */
  method ContinueTask(store: TaskStore, state: ConversationState, msg: string, svc: Services)
    returns (out: Result<TaskOrchestrator.Outcome, string>, next: ConversationState)
    modifies store
    ensures TaskOrchestrator.Processing(out, next, store.tasks) == Continue(old(store.tasks), state, msg, svc)
  {
    var pending := PendingOf(state);
    var snapshot := state.slots;
    var result := HandleTaskContinuation(msg, pending, snapshot, svc.dt);
    var content := SynthesizeContent(GetOr(result.updated, "content", GetOr(snapshot, "content", JStr(""))));
    out, next := Finish(store, state, snapshot, result.updated, content, svc);
  }

  /** After a continuation, `continue_task` asks again exactly when the
      task is not complete; it then awaits meeting_link or datetime, offers
      only that slot and stores nothing. */
  lemma AsksIffIncomplete(tasks: map<string, seq<Task>>, state: ConversationState, msg: string,
                          content: Result<string, string>, svc: Services)
    ensures var u := UpdatedOf(state, msg, svc);
      var p := Finished(tasks, state, state.slots, u, content, svc);
      (p.out.Success? && p.out.value.FollowupAsked?) <==> !Completed(u)
    ensures var p := Finished(tasks, state, state.slots, UpdatedOf(state, msg, svc), content, svc);
      p.out.Success? && p.out.value.FollowupAsked? ==>
        p.state.awaitingSlot in {Some("meeting_link"), Some("datetime")}
        && p.state.intent == Some("task_enrichment")
        && p.out.value.task["enrichment_candidates"] == JArr([JStr(p.state.awaitingSlot.value)])
        && p.tasks == tasks
  {
    var u := UpdatedOf(state, msg, svc);
    CompletedIffNoNextSlot(msg, PendingOf(state), state.slots, svc.dt);
    assert AsksAgain(u) <==> !Completed(u);
  }

  /** A completion stores an active task at the end of its user's list and
      leaves nothing pending; only calendar and reminder tasks carry an
      invitation. */
  lemma CompletionStores(tasks: map<string, seq<Task>>, state: ConversationState, snapshot: map<string, Json>,
                         u: map<string, Json>, content: Result<string, string>, svc: Services)
    requires Finished(tasks, state, snapshot, u, content, svc).out.Success?
    requires Finished(tasks, state, snapshot, u, content, svc).out.value.TaskStored?
    ensures var p := Finished(tasks, state, snapshot, u, content, svc);
      var t := p.out.value.stored;
      t.status == "active" && content == Success(t.content) && !AsksAgain(u)
      && p.tasks == tasks[t.userKey := TasksOf(tasks, t.userKey) + [t]]
      && p.state.intent.None? && p.state.awaitingSlot.None? && p.state.slots == map[]
      && p.out.value.grouped == Group(TasksOf(p.tasks, t.userKey))
      && (t.kind != "calendar" && t.kind != "reminder" ==> p.out.value.ics.None?)
  {
  }

  /** A task whose content cannot be synthesised is not stored, and the
      state is left as it was. */
  lemma FailureChangesNothing(tasks: map<string, seq<Task>>, state: ConversationState, snapshot: map<string, Json>,
                              u: map<string, Json>, content: Result<string, string>, svc: Services)
    requires Finished(tasks, state, snapshot, u, content, svc).out.Failure?
    ensures Finished(tasks, state, snapshot, u, content, svc).tasks == tasks
    ensures Finished(tasks, state, snapshot, u, content, svc).state == state
    ensures content.Failure? && !AsksAgain(u)
  {
  }
}
