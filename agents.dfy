/** The clean-up every task agent applies to its language model's reply:
    the reply is stripped, a Markdown code fence around it is removed
    together with a first line naming the language `json`, and what is left
    is parsed; anything but a JSON object reads as an empty object. The
    model's reply and the JSON parser are given. */
module AgentReply {
  import opened Wrappers
  import opened Json
  import opened Text

  /** Python's line boundaries (`str.splitlines`). */
  predicate LineBreak(c: char) {
    c == '\n' || c == '\r' || c == '\U{B}' || c == '\U{C}' || ('\U{1C}' <= c <= '\U{1E}')
    || c == '\U{85}' || c == '\U{2028}' || c == '\U{2029}'
  }

  /** The index of the first line boundary, or |s| when there is none. */
  function FirstBreak(s: string): (e: nat)
    ensures e <= |s|
    ensures forall j :: 0 <= j < e ==> !LineBreak(s[j])
    ensures e < |s| ==> LineBreak(s[e])
  {
    if s == [] || LineBreak(s[0]) then 0 else 1 + FirstBreak(s[1..])
  }

  predicate NoBreak(line: string) {
    forall j :: 0 <= j < |line| ==> !LineBreak(line[j])
  }

  /** `s.splitlines()`: no empty last line after a final boundary, and
      `\r\n` counts as one boundary. */
  function SplitLines(s: string): (r: seq<string>)
    ensures s == [] <==> r == []
    ensures forall k :: 0 <= k < |r| ==> NoBreak(r[k])
    ensures r != [] ==> r[0] == s[..FirstBreak(s)]
    decreases |s|
  {
    if s == [] then []
    else
      var e := FirstBreak(s);
      if e == |s| then [s]
      else
        var next := if s[e] == '\r' && e + 1 < |s| && s[e + 1] == '\n' then e + 2 else e + 1;
        [s[..e]] + SplitLines(s[next..])
  }

  /** A stripped line that reads `json` in any case. */
  predicate LanguageLine(line: string) {
    LowerStr(PyStrip(line)) == "json"
  }

  /** The text the agents hand to the JSON parser, or None when the reply
      is missing or blank (the agent then returns an empty object without
      parsing). */
  function StripFence(raw: Option<string>): (r: Option<string>)
    ensures r.None? <==> raw.None? || PyStrip(raw.value) == ""
    ensures r.Some? && !StartsWith(PyStrip(raw.value), "```") ==> r.value == PyStrip(raw.value)
    ensures r.Some? && StartsWith(PyStrip(raw.value), "```") ==> r.value == Defence(PyStrip(raw.value))
    ensures r.Some? ==> Stripped(r.value)
  {
    if raw.None? then None
    else
      var cleaned := PyStrip(raw.value);
      if cleaned == "" then None
      else if StartsWith(cleaned, "```") then Some(Defence(cleaned))
      else Some(cleaned)
  }

  /** No leading or trailing whitespace. */
  predicate Stripped(s: string) {
    s == [] || (!PySpace(s[0]) && !PySpace(s[|s| - 1]))
  }

  /** The fenced case: the opening fence and a closing one go, the rest is
      stripped, and a first line naming the language goes with the
      whitespace around what follows. */
  function Defence(cleaned: string): (r: string)
    requires StartsWith(cleaned, "```")
    ensures Stripped(r)
    ensures !NamesLanguage(Inner(cleaned)) ==> r == Inner(cleaned)
  {
    var inner := Inner(cleaned);
    if NamesLanguage(inner) then PyStrip(Join("\n", SplitLines(inner)[1..])) else inner
  }

  /** What lies between the fences, stripped. */
  function Inner(cleaned: string): string
    requires StartsWith(cleaned, "```")
  {
    PyStrip(Unfenced(cleaned[3..]))
  }

  /** The first line names the language. */
  predicate NamesLanguage(inner: string) {
    var lines := SplitLines(inner);
    lines != [] && LanguageLine(lines[0])
  }

  /** The closing fence, when there is one, goes. */
  function Unfenced(s: string): (r: string)
    ensures EndsWith(s, "```") ==> r == s[..|s| - 3]
    ensures !EndsWith(s, "```") ==> r == s
  {
    if EndsWith(s, "```") then s[..|s| - 3] else s
  }

  /** `normalize_*`: the parsed object, or an empty one when the reply is
      blank, does not parse (loads gives None) or is not an object. */
  function NormalizeReply(raw: Option<string>, loads: string -> Option<Json>): (m: map<string, Json>)
    ensures StripFence(raw).None? ==> m == map[]
    ensures StripFence(raw).Some? && loads(StripFence(raw).value).Some? && loads(StripFence(raw).value).value.JObj?
      ==> m == loads(StripFence(raw).value).value.fields
    ensures StripFence(raw).Some? && !(loads(StripFence(raw).value).Some? && loads(StripFence(raw).value).value.JObj?)
      ==> m == map[]
  {
    match StripFence(raw)
    case None => map[]
    case Some(text) =>
      match loads(text)
      case Some(JObj(fields)) => fields
      case _ => map[]
  }

  /** A reply without a fence is only stripped. */
  lemma PlainReplyIsStripped(body: string)
    requires PyStrip(body) != "" && !StartsWith(PyStrip(body), "```")
    ensures StripFence(Some(body)) == Some(PyStrip(body))
  {
  }

  /** A fenced reply whose first line does not name the language keeps
      everything between the fences, stripped. */
  lemma FenceWithoutLanguage(body: string)
    requires PyStrip(body) != "" && StartsWith(PyStrip(body), "```")
    requires !NamesLanguage(Inner(PyStrip(body)))
    ensures StripFence(Some(body)) == Some(PyStrip(Unfenced(PyStrip(body)[3..])))
  {
  }

  /** The JSON strings of a list of texts. */
  function Strs(xs: seq<string>): (r: seq<Json>)
    ensures |r| == |xs|
    ensures forall i :: 0 <= i < |xs| ==> r[i] == JStr(xs[i])
  {
    if xs == [] then [] else [JStr(xs[0])] + Strs(xs[1..])
  }

  /** The dictionary an agent returns. The three agents return different
      keys; a key an agent does not return is None here. */
  datatype AgentResult = AgentResult(
    taskType: string,
    status: string,
    title: Option<Json>,
    content: Json,
    fecha: Option<Json>,
    hora: Option<Json>,
    ubicacion: Option<Json>,
    lugar: Option<Json>,
    ics: Option<Json>,
    candidates: Option<seq<Json>>,
    needsFollowup: bool,
    followupQuestion: Json)

  function Put(m: map<string, Json>, k: string, v: Option<Json>): map<string, Json> {
    if v.Some? then m[k := v.value] else m
  }

  /** The result as the dictionary itself (what `{**agent_result}` copies). */
  function Dict(r: AgentResult): map<string, Json> {
    var m := map["task_type" := JStr(r.taskType)];
    var m := m["status" := JStr(r.status)];
    var m := m["content" := r.content];
    var m := m["needs_followup" := JBool(r.needsFollowup)];
    var m := m["followup_question" := r.followupQuestion];
    var m := Put(m, "title", r.title);
    var m := Put(m, "fecha", r.fecha);
    var m := Put(m, "hora", r.hora);
    var m := Put(m, "ubicacion", r.ubicacion);
    var m := Put(m, "lugar", r.lugar);
    var m := Put(m, "ics", r.ics);
    Put(m, "enrichment_candidates", if r.candidates.Some? then Some(JArr(r.candidates.value)) else None)
  }
}

/** The calendar agent. The datetime normaliser and the language model are
    given: dtFecha and dtHora are the normaliser's date and time, raw the
    model's reply. */
module CalendarAgent {
  import opened Wrappers
  import opened Json
  import opened Text
  import opened AgentReply
  import TaskAnalysis
  import CalendarIcs

  /** The slots to ask for: the meeting link when the analysis misses it,
      then the date and time when the normaliser did not find both. */
  function Candidates(missing: seq<string>, dtFecha: Json, dtHora: Json): (c: seq<string>)
    ensures "meeting_link" in c <==> "meeting_link" in missing
    ensures "datetime" in c <==> !(PyTruthy(dtFecha) && PyTruthy(dtHora))
    ensures c == [] || c == ["meeting_link"] || c == ["datetime"] || c == ["meeting_link", "datetime"]
  {
    (if "meeting_link" in missing then ["meeting_link"] else [])
    + (if !(PyTruthy(dtFecha) && PyTruthy(dtHora)) then ["datetime"] else [])
  }

  /** A value handed to the invitation as text: a falsy value reads as the
      empty text, a string as itself; anything else makes the invitation
      raise. */
  function TextArg(v: Json): (r: Option<string>)
    ensures !PyTruthy(v) && !v.JStr? ==> r == Some("")
    ensures v.JStr? ==> r == Some(v.s)
    ensures PyTruthy(v) && !v.JStr? ==> r.None?
  {
    if v.JStr? then Some(v.s) else if !PyTruthy(v) then Some("") else None
  }

  /** The invitation the agent builds once the final date and time are both
      set; a title, description, date or time that is not text raises. */
  function Invitation(titulo: Json, descripcion: Json, fecha: Json, hora: Json, uuid: string, dtstamp: string)
    : (r: Result<string, string>)
    ensures TextArg(titulo).Some? && TextArg(descripcion).Some? && TextArg(fecha).Some? && TextArg(hora).Some? ==>
      r == CalendarIcs.CreateInvitation(TextArg(titulo).value, TextArg(descripcion).value, "",
             TextArg(fecha).value, TextArg(hora).value, 60, CalendarIcs.DefaultTimezone, uuid, dtstamp)
    ensures !(TextArg(titulo).Some? && TextArg(descripcion).Some? && TextArg(fecha).Some? && TextArg(hora).Some?) ==>
      r.Failure?
  {
    var t, d, f, h := TextArg(titulo), TextArg(descripcion), TextArg(fecha), TextArg(hora);
    if t.None? || d.None? || f.None? || h.None? then Failure("valor no textual")
    else CalendarIcs.CreateInvitation(t.value, d.value, "", f.value, h.value, 60, CalendarIcs.DefaultTimezone, uuid, dtstamp)
  }

  /** `CalendarTaskAgent.handle`. The candidates are decided from the
      normaliser alone; the model's date and time then override the
      normaliser's, and the invitation is built from the final ones. */
  function Handle(content: string, analysis: TaskAnalysis.Analysis, dtFecha: Json, dtHora: Json,
                  raw: Option<string>, loads: string -> Option<Json>, uuid: string, dtstamp: string)
    : (r: Result<AgentResult, string>)
    ensures
      var llm := NormalizeReply(raw, loads);
      var fecha := PyOr(Get(JObj(llm), "fecha"), dtFecha);
      var hora := PyOr(Get(JObj(llm), "hora"), dtHora);
      var cands := Candidates(analysis.missingFields, dtFecha, dtHora);
      (r.Failure? ==> PyTruthy(fecha) && PyTruthy(hora))
      && (r.Success? ==>
        r.value.taskType == "calendar" && r.value.status == "created"
        && r.value.content == GetOr(llm, "titulo", JStr(content))
        && r.value.fecha == Some(fecha) && r.value.hora == Some(hora)
        && r.value.ubicacion == Some(Get(JObj(llm), "ubicacion"))
        && r.value.candidates == Some(Strs(cands))
        && r.value.needsFollowup == (cands != [])
        && r.value.followupQuestion == JNull
        && r.value.ics.Some? && (r.value.ics.value != JNull <==> PyTruthy(fecha) && PyTruthy(hora)))
  {
    var llm := NormalizeReply(raw, loads);
    var cands := Candidates(analysis.missingFields, dtFecha, dtHora);
    var titulo := GetOr(llm, "titulo", JStr(content));
    var descripcion := GetOr(llm, "descripcion", titulo);
    var fecha := PyOr(Get(JObj(llm), "fecha"), dtFecha);
    var hora := PyOr(Get(JObj(llm), "hora"), dtHora);
    var ics: Result<Json, string> :=
      if PyTruthy(fecha) && PyTruthy(hora) then
        match Invitation(titulo, descripcion, fecha, hora, uuid, dtstamp)
        case Success(text) => Success(JStr(text))
        case Failure(e) => Failure(e)
      else Success(JNull);
    if ics.Failure? then Failure(ics.error)
    else
      Success(AgentResult("calendar", "created", None, titulo, Some(fecha), Some(hora),
        Some(Get(JObj(llm), "ubicacion")), None, Some(ics.value), Some(Strs(cands)), cands != [], JNull))
  }

  /** The model's date and time cannot cancel a follow-up: when the
      normaliser misses the time, "datetime" is asked for whatever the model
      answered. */
  lemma DatetimeFromNormaliserOnly(content: string, analysis: TaskAnalysis.Analysis, dtFecha: Json,
                                   raw: Option<string>, loads: string -> Option<Json>, uuid: string, dtstamp: string)
    requires Handle(content, analysis, dtFecha, JNull, raw, loads, uuid, dtstamp).Success?
    ensures Handle(content, analysis, dtFecha, JNull, raw, loads, uuid, dtstamp).value.needsFollowup
  {
    assert "datetime" in Candidates(analysis.missingFields, dtFecha, JNull);
  }
}

/** The reminder agent; dtFecha, dtHora and raw as for the calendar agent. */
module ReminderAgent {
  import opened Wrappers
  import opened Json
  import opened AgentReply

  /** The slots to ask for, from the final date and time. */
  function Candidates(fecha: Json, hora: Json): (c: seq<string>)
    ensures "fecha" in c <==> !PyTruthy(fecha)
    ensures "hora" in c <==> !PyTruthy(hora)
    ensures c == [] || c == ["fecha"] || c == ["hora"] || c == ["fecha", "hora"]
  {
    (if !PyTruthy(fecha) then ["fecha"] else []) + (if !PyTruthy(hora) then ["hora"] else [])
  }

  /** `ReminderTaskAgent.handle`: the model's date and time are preferred to
      the normaliser's, the content falls back to the user's text, and a
      follow-up is needed exactly when the final date or time is missing. */
  function Handle(content: string, dtFecha: Json, dtHora: Json, raw: Option<string>, loads: string -> Option<Json>)
    : (r: AgentResult)
    ensures
      var llm := NormalizeReply(raw, loads);
      var fecha := PyOr(Get(JObj(llm), "fecha"), dtFecha);
      var hora := PyOr(Get(JObj(llm), "hora"), dtHora);
      r.taskType == "reminder" && r.status == "created"
      && r.content == GetOr(llm, "content", JStr(content))
      && r.fecha == Some(fecha) && r.hora == Some(hora)
      && r.lugar == Some(Get(JObj(llm), "lugar"))
      && r.candidates == Some(Strs(Candidates(fecha, hora)))
      && (r.needsFollowup <==> !PyTruthy(fecha) || !PyTruthy(hora))
      && r.followupQuestion == JNull && r.ics.None? && r.ubicacion.None?
  {
    var llm := NormalizeReply(raw, loads);
    var fecha := PyOr(Get(JObj(llm), "fecha"), dtFecha);
    var hora := PyOr(Get(JObj(llm), "hora"), dtHora);
    var cands := Candidates(fecha, hora);
    AgentResult("reminder", "created", None, GetOr(llm, "content", JStr(content)), Some(fecha), Some(hora),
      None, Some(Get(JObj(llm), "lugar")), None, Some(Strs(cands)), cands != [], JNull)
  }
}

/** The note agent; raw as for the calendar agent. */
module NoteAgent {
  import opened Wrappers
  import opened Json
  import opened Text
  import opened AgentReply

  /** The title a note gets when the model gives none: its first sixty
      characters, stripped. */
  function DefaultTitle(content: string): (t: string)
    ensures |t| <= 60
    ensures t == PyStrip(Take(content, 60))
  {
    PyStrip(Take(content, 60))
  }

  /** `NoteAgent.handle`: never a follow-up; the model's title and content
      override the defaults. */
  function Handle(content: string, raw: Option<string>, loads: string -> Option<Json>): (r: AgentResult)
    ensures
      var llm := NormalizeReply(raw, loads);
      r.taskType == "note" && r.status == "created"
      && !r.needsFollowup && r.followupQuestion == JNull
      && r.title == Some(GetOr(llm, "title", JStr(DefaultTitle(content))))
      && r.content == GetOr(llm, "content", JStr(content))
      && r.candidates.None? && r.fecha.None? && r.hora.None?
  {
    var llm := NormalizeReply(raw, loads);
    AgentResult("note", "created", Some(GetOr(llm, "title", JStr(DefaultTitle(content)))),
      GetOr(llm, "content", JStr(content)), None, None, None, None, None, None, false, JNull)
  }
}
