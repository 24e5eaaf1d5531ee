/** The intent classifier of the service: fixed word rules decide first;
    otherwise the language model's answer (a parameter, as are json.loads
    and str()) is cleaned of a Markdown fence, parsed and validated, and
    anything that goes wrong reads as chat. */
module IntentClassification {
  import opened Wrappers
  import opened Text
  import opened Json
  import Prompts
  import PyRe

  // ---------------------------------------------------------------------------
  // _clean_json_string
  // ---------------------------------------------------------------------------

  const Fence: string := "```"

  /** `(\w+)?` at the start: drops the leading word characters. */
  function DropWordRun(s: string): (r: string)
    ensures |r| <= |s| && r == s[|s| - |r|..]
    ensures r == [] || !PyWord(r[0])
    ensures forall i :: 0 <= i < |s| - |r| ==> PyWord(s[i])
  {
    if s != [] && PyWord(s[0]) then DropWordRun(s[1..]) else s
  }

  /** `_clean_json_string`: the stripped text; when it starts with a fence,
      without that fence and the language word after it, without a closing
      fence at the end, and stripped again. */
  function CleanJsonString(text: string): (r: string)
    ensures !StartsWith(PyStrip(text), Fence) ==> r == PyStrip(text)
    ensures r == [] || (!PySpace(r[0]) && !PySpace(r[|r| - 1]))
  {
    var t := PyStrip(text);
    if StartsWith(t, Fence) then
      var u := DropWordRun(t[3..]);
      PyStrip(if EndsWith(u, Fence) then u[..|u| - 3] else u)
    else t
  }

  /** Stripping a string with no space at either end changes nothing. */
  lemma StripKeeps(s: string)
    requires s == [] || (!PySpace(s[0]) && !PySpace(s[|s| - 1]))
    ensures PyStrip(s) == s
  {
    assert StripLeft(s, White(Py)) == s;
  }

  /** A word followed by a non-word character loses exactly the word. */
  lemma {:induction false} DropWordOf(w: string, rest: string)
    requires forall i :: 0 <= i < |w| ==> PyWord(w[i])
    requires rest != [] && !PyWord(rest[0])
    ensures DropWordRun(w + rest) == rest
    decreases |w|
  {
    if w == [] {
      assert w + rest == rest;
    } else {
      assert (w + rest)[1..] == w[1..] + rest;
      DropWordOf(w[1..], rest);
    }
  }

  /** One space at each end of a text with none is stripped away. */
  lemma StripFramed(body: string)
    requires body != [] && !PySpace(body[0]) && !PySpace(body[|body| - 1])
    ensures PyStrip("\n" + body + "\n") == body
  {
    var v := "\n" + body + "\n";
    assert v[1..] == body + "\n";
    assert StripLeft(v[1..], White(Py)) == body + "\n";
    assert StripLeft(v, White(Py)) == body + "\n";
    assert (body + "\n")[..|body|] == body;
    assert StripRight(body, White(Py)) == body;
  }

  /** A fenced answer, with or without a language word, is cleaned back to
      what was inside the fence. */
  lemma FencedRoundTrip(lang: string, body: string)
    requires forall i :: 0 <= i < |lang| ==> PyWord(lang[i])
    requires body != [] && !PySpace(body[0]) && !PySpace(body[|body| - 1])
    ensures CleanJsonString(Fence + lang + "\n" + body + "\n" + Fence) == body
  {
    var rest := "\n" + body + "\n" + Fence;
    var s := Fence + lang + "\n" + body + "\n" + Fence;
    assert s == Fence + (lang + rest);
    assert s[0] == '`' && s[|s| - 1] == '`';
    StripKeeps(s);
    assert StartsWith(s, Fence);
    assert s[3..] == lang + rest;
    DropWordOf(lang, rest);
    var framed := "\n" + body + "\n";
    assert rest == framed + Fence;
    assert EndsWith(rest, Fence);
    assert rest[..|rest| - 3] == framed;
    StripFramed(body);
  }

  // ---------------------------------------------------------------------------
  // The word rules
  // ---------------------------------------------------------------------------

  datatype Intent = Intent(macro: string, taskType: Option<string>)

  /** The intent as the dict the classifier returns. */
  function IntentJson(i: Intent): (j: Json)
    ensures Get(j, "macro_intent") == JStr(i.macro)
  {
    JObj(map["macro_intent" := JStr(i.macro), "task_type" := if i.taskType.Some? then JStr(i.taskType.value) else JNull])
  }

  const ReminderWords: seq<string> := ["recuerdame", "recuérdame"]
  const CalendarWords: seq<string> := ["agenda", "agendar", "reunion", "reunión", "calendario", "cita"]
  const NoteWords: seq<string> := ["anota", "nota", "guardar", "guarda"]

  const ReminderIntent: Intent := Intent("task", Some("reminder"))
  const CalendarIntent: Intent := Intent("task", Some("calendar"))
  const NoteIntent: Intent := Intent("task", Some("note"))
  const ChatIntent: Intent := Intent("chat", None)

  /** One of the words occurs in t as a whole word (`re.search(r"\ba\b|\bb\b", t)`). */
  predicate HasAnyWord(t: string, ws: seq<string>) {
    exists k :: 0 <= k < |ws| && Prompts.HasWord(t, ws[k])
  }

  /** `(user_message or "").strip().lower()` */
  function Normalized(msg: string): string {
    LowerStr(PyStrip(msg))
  }

  /** The word rules, on the stripped and lower-cased message: a reminder
      word first, then a calendar word, then a note word. */
  function WordRule(msg: string): (r: Option<Intent>)
    ensures var t := Normalized(msg);
      (HasAnyWord(t, ReminderWords) ==> r == Some(ReminderIntent))
      && (!HasAnyWord(t, ReminderWords) && HasAnyWord(t, CalendarWords) ==> r == Some(CalendarIntent))
      && (!HasAnyWord(t, ReminderWords) && !HasAnyWord(t, CalendarWords) && HasAnyWord(t, NoteWords) ==> r == Some(NoteIntent))
    ensures r.None? <==> var t := Normalized(msg);
      !HasAnyWord(t, ReminderWords) && !HasAnyWord(t, CalendarWords) && !HasAnyWord(t, NoteWords)
  {
    var t := Normalized(msg);
    if HasAnyWord(t, ReminderWords) then Some(ReminderIntent)
    else if HasAnyWord(t, CalendarWords) then Some(CalendarIntent)
    else if HasAnyWord(t, NoteWords) then Some(NoteIntent)
    else None
  }

  /** "recuérdame la cita" is a reminder although "cita" is a calendar word. */
  lemma ReminderBeforeCalendar(msg: string, i: nat)
    requires i <= |Normalized(msg)| && PyRe.WordAt("recuerdame", Normalized(msg), i)
    ensures WordRule(msg) == Some(ReminderIntent)
  {
    Prompts.HasWordIff(Normalized(msg), "recuerdame");
    assert ReminderWords[0] == "recuerdame";
  }

  // ---------------------------------------------------------------------------
  // The model's answer
  // ---------------------------------------------------------------------------

  const AllowedIntents: set<Json> := {JStr("task"), JStr("task_query"), JStr("chat")}

  /** The result validation: a dict whose macro_intent is not one of the
      three is turned into chat with no task type; anything but a dict has
      no `get` and raises. */
  function Validate(parsed: Json): (r: Result<Json, string>)
    ensures r.Success? <==> parsed.JObj?
    ensures r.Success? ==> r.value.JObj? && Get(r.value, "macro_intent") in AllowedIntents
    ensures r.Success? && Get(parsed, "macro_intent") in AllowedIntents ==> r.value == parsed
    ensures r.Success? && Get(parsed, "macro_intent") !in AllowedIntents ==> Get(r.value, "task_type") == JNull
  {
    if !parsed.JObj? then Failure("AttributeError: get")
    else if Get(parsed, "macro_intent") in AllowedIntents then Success(parsed)
    else
      var f := parsed.fields["macro_intent" := JStr("chat")]["task_type" := JNull];
      assert "macro_intent" != "task_type" by { assert |"macro_intent"| != |"task_type"|; }
      Success(JObj(f))
  }

  /** Cleaned, parsed and validated; a parse or validation error reads as chat. */
  function ParseAnswer(raw: string, loads: string -> Option<Json>): (r: Json)
    ensures r.JObj? && Get(r, "macro_intent") in AllowedIntents
  {
    match loads(CleanJsonString(raw))
    case None => IntentJson(ChatIntent)
    case Some(j) =>
      match Validate(j)
      case Failure(_) => IntentJson(ChatIntent)
      case Success(v) => v
  }

  /** The model's reply carries a ready "json" value, returned as it is. */
  predicate Shortcut(payload: Result<Json, string>) {
    payload.Success? && payload.value.JObj? && PyTruthy(Get(payload.value, "json"))
  }

  /** What the classifier makes of the model's reply: the "json" value of
      a dict reply as it is; else its "content" or "text", which must be a
      text; a reply that is not a dict is read through str(), which leaves
      a text as it is. */
  function FromModel(payload: Result<Json, string>, loads: string -> Option<Json>, pyStr: Json -> string): (r: Json)
    ensures Shortcut(payload) ==> r == Get(payload.value, "json")
    ensures payload.Success? && payload.value.JStr? ==> r == ParseAnswer(payload.value.s, loads)
    ensures payload.Success? && !payload.value.JStr? && !payload.value.JObj? ==> r == ParseAnswer(pyStr(payload.value), loads)
    ensures !Shortcut(payload) ==> r.JObj? && Get(r, "macro_intent") in AllowedIntents
    ensures payload.Failure? ==> r == IntentJson(ChatIntent)
  {
    match payload
    case Failure(_) => IntentJson(ChatIntent)
    case Success(p) =>
      if p.JObj? then
        if PyTruthy(Get(p, "json")) then Get(p, "json")
        else
          var raw := PyOr(Get(p, "content"), PyOr(Get(p, "text"), JStr("")));
          if raw.JStr? then ParseAnswer(raw.s, loads) else IntentJson(ChatIntent)
      else ParseAnswer(if p.JStr? then p.s else pyStr(p), loads)
  }

  /** `classify_intent`: a word rule wins without asking the model; the
      model's answer otherwise, which names one of the three intents unless
      it came as a ready "json" value; chat when the model call raises. */
  function ClassifyIntent(msg: string, payload: Result<Json, string>, loads: string -> Option<Json>, pyStr: Json -> string): (r: Json)
    ensures WordRule(msg).Some? ==> r == IntentJson(WordRule(msg).value)
    ensures WordRule(msg).None? && !Shortcut(payload) ==> r.JObj? && Get(r, "macro_intent") in AllowedIntents
    ensures WordRule(msg).None? && payload.Failure? ==> r == IntentJson(ChatIntent)
  {
    match WordRule(msg)
    case Some(i) => IntentJson(i)
    case None => FromModel(payload, loads, pyStr)
  }
}
