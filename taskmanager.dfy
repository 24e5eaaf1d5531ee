/** The client's task manager: normalising the backend's task payload (root
    or nested contract), resolving the task type with its keyword fallback,
    the short preview text of a task, filing a task in the store, the
    sidebar's three-task preview rule and the rebuild of the store from the
    backend's grouped lists. The DOM, alerts and downloads are not part of
    this model. */
module TaskManager {
  import opened Wrappers
  import opened Text
  import opened Json
  import Rx
  import TaskStore
  import Lists
  import Seqs

  // ---------------------------------------------------------------------------
  // Payload normalisation
  // ---------------------------------------------------------------------------

  datatype Normalized = Normalized(
    action: Json, response: Json, context: Json, success: Json,
    taskType: Json, task: Json, tasks: Json, ics: Json, raw: Json)

  /** `data?.task || null`. */
  function Nested(data: Json): Json {
    JsOr(Get(data, "task"), JNull)
  }

  /** The task entity: the nested object when it has a type, else its own
      `task` field; the third test of the source repeats the first. */
  function TaskObj(data: Json): (r: Json)
    ensures var n := Nested(data);
      r == (if JsTruthy(Get(n, "type")) then n
            else if JsTruthy(Get(n, "task")) then Get(n, "task")
            else JNull)
    ensures r == JNull || JsTruthy(r)
  {
    var nested := Nested(data);
    if JsTruthy(nested) && JsTruthy(Get(nested, "type")) then nested
    else if JsTruthy(nested) && JsTruthy(Get(nested, "task")) then Get(nested, "task")
    else if JsTruthy(Get(data, "task")) && JsTruthy(Get(Get(data, "task"), "type")) then Get(data, "task")
    else JNull
  }

  /** `normalizeTaskPayload`. */
  function NormalizeTaskPayload(data: Json): (r: Normalized)
    ensures r.raw == data && r.action == Get(data, "action") && r.response == Get(data, "response")
    ensures r.task == TaskObj(data)
    // the root `ics` beats the nested one
    ensures JsTruthy(Get(data, "ics")) ==> r.ics == Get(data, "ics")
    ensures !JsTruthy(Get(data, "ics")) ==> r.ics == JsOr(Get(Nested(data), "ics"), JNull)
    // `task_type` beats the entity's `type`, which beats its `task_type`
    ensures JsTruthy(Get(data, "task_type")) ==> r.taskType == Get(data, "task_type")
    ensures !JsTruthy(Get(data, "task_type")) && JsTruthy(Get(r.task, "type")) ==> r.taskType == Get(r.task, "type")
    ensures !JsTruthy(Get(data, "task_type")) && !JsTruthy(Get(r.task, "type")) ==>
      r.taskType == JsOr(Get(r.task, "task_type"), JNull)
    // the root `tasks` beats the nested one
    ensures JsTruthy(Get(data, "tasks")) ==> r.tasks == Get(data, "tasks")
  {
    var nested := Nested(data);
    var taskObj := TaskObj(data);
    Normalized(
      Get(data, "action"), Get(data, "response"), Get(data, "context"), Get(data, "success"),
      JsOr(Get(data, "task_type"), JsOr(Get(taskObj, "type"), JsOr(Get(taskObj, "task_type"), JNull))),
      taskObj,
      JsOr(Get(data, "tasks"), JsOr(Get(nested, "tasks"), JNull)),
      JsOr(Get(data, "ics"), JsOr(Get(nested, "ics"), JNull)),
      data)
  }

  /** The calendar file found in the payload: its text and its file name. */
  datatype IcsFound = IcsFound(content: Json, filename: Json)

  /** What `processTask` reads from an `ics` value: a string is the file
      itself, an object holds it under `ics_content` (or, at the root, also
      `icsContent`) and `filename`. */
  function IcsFromValue(v: Json, rootKeys: bool): IcsFound {
    if !JsTruthy(v) then IcsFound(JNull, JNull)
    else if v.JStr? then IcsFound(v, JNull)
    else if v.JObj? || v.JArr? then
      IcsFound(JsOr(Get(v, "ics_content"), if rootKeys then JsOr(Get(v, "icsContent"), JNull) else JNull),
               JsOr(Get(v, "filename"), JNull))
    else IcsFound(JNull, JNull)
  }

  /** The calendar file of the normalised payload, falling back to the task
      entity's own `ics` only when the payload gave no file text. */
  function IcsOf(norm: Normalized): (r: IcsFound)
    ensures JsTruthy(norm.ics) && norm.ics.JStr? ==> r.content == norm.ics
    ensures JsTruthy(IcsFromValue(norm.ics, true).content) ==> r.content == IcsFromValue(norm.ics, true).content
    ensures !JsTruthy(IcsFromValue(norm.ics, true).content) && !JsTruthy(Get(norm.task, "ics")) ==>
      r == IcsFromValue(norm.ics, true)
  {
    var first := IcsFromValue(norm.ics, true);
    if JsTruthy(first.content) || !JsTruthy(Get(norm.task, "ics")) then first
    else
      var t := Get(norm.task, "ics");
      if t.JStr? then IcsFound(t, first.filename)
      else if t.JObj? || t.JArr? then
        IcsFound(JsOr(Get(t, "ics_content"), JNull), JsOr(Get(t, "filename"), first.filename))
      else first
  }

  // ---------------------------------------------------------------------------
  // Task type
  // ---------------------------------------------------------------------------

  predicate ReminderWords(c: string) {
    Contains(c, "recuerdame") || Contains(c, "recuérdame")
  }

  predicate CalendarWords(c: string) {
    Contains(c, "agenda") || Contains(c, "reunión") || Contains(c, "reunion")
    || Contains(c, "evento") || Contains(c, "cita")
  }

  /** The keyword fallback for a task without type: reminder words, then
      calendar words, else a note; on the lower-cased text. */
  function InferType(content: string): (r: string)
    ensures r in {"reminder", "calendar", "note"}
    ensures r == "reminder" <==> ReminderWords(LowerStr(content))
    ensures r == "calendar" <==> !ReminderWords(LowerStr(content)) && CalendarWords(LowerStr(content))
    ensures r == "note" <==> !ReminderWords(LowerStr(content)) && !CalendarWords(LowerStr(content))
  {
    var c := LowerStr(content);
    if ReminderWords(c) then "reminder"
    else if CalendarWords(c) then "calendar"
    else "note"
  }

  /** The text the task is about: the entity's content, else the user's message. */
  function ContentOf(resolved: Json, userMessage: string): string {
    StrOr(Get(resolved, "content"), userMessage)
  }

  /** The type `processTask` files the task under: the normalised type, then
      the entity's `task_type` and `type`, then the keyword fallback. */
  function ResolveType(norm: Normalized, userMessage: string): (r: string)
    ensures r != ""
    ensures norm.taskType.JStr? && norm.taskType.s != "" ==> r == norm.taskType.s
  {
    var given := StrOr(norm.taskType, StrOr(Get(norm.task, "task_type"), StrOr(Get(norm.task, "type"), "")));
    if given != "" then given else InferType(ContentOf(norm.task, userMessage))
  }

  /** A task whose payload names no type is filed under the keyword type. */
  lemma InferredWhenUntyped(data: Json, userMessage: string)
    requires var n := NormalizeTaskPayload(data);
      !JsTruthy(n.taskType) && !JsTruthy(Get(n.task, "task_type"))
    ensures var n := NormalizeTaskPayload(data);
      ResolveType(n, userMessage) == InferType(ContentOf(n.task, userMessage))
  {
    var n := NormalizeTaskPayload(data);
    assert !JsTruthy(Get(n.task, "type"));
  }

  // ---------------------------------------------------------------------------
  // Preview text (`extractPreviewContent`)
  // ---------------------------------------------------------------------------

  const LeadNote: seq<string> := ["anota", "apunta", "nota", "escribe"]
  const LeadReminder: seq<string> := ["recuerdame", "recuérdame", "recordatorio", "recordar"]
  /** The calendar verbs as the source lists them: `agenda` before `agendar`. */
  const LeadCalendarAsWritten: seq<string> := ["agenda", "agendar", "evento", "cita", "reunión", "reunion"]
  /** The calendar verbs with `agendar` tried before its prefix `agenda`. */
  const LeadCalendar: seq<string> := ["agendar", "agenda", "evento", "cita", "reunión", "reunion"]
  const LeadFiller: seq<string> := ["que", "qué", "para", "sobre", "acerca de"]

  const DayWords: seq<string> := ["manana", "hoy", "el lunes", "el martes", "el miercoles",
    "el jueves", "el viernes", "el sabado", "el domingo"]
  const Joiners: seq<string> := ["a las", "a la", "en", "para"]

  /** The four leading-keyword replacements and the trim, with a given list
      of calendar verbs. */
  function CleanWith(s: string, calendarVerbs: seq<string>): (r: string)
    ensures |r| <= |s|
  {
    JsTrim(Rx.StripLead(Rx.StripLead(Rx.StripLead(Rx.StripLead(s, LeadNote), LeadReminder), calendarVerbs), LeadFiller))
  }

  /** The cleaning as written: on "agendar x" the alternation stops at
      `agenda` and leaves the stray `r`. */
  lemma AgendarAsWritten(x: string)
    requires x != [] && !JsSpace(x[0])
    ensures Rx.StripLead("agendar " + x, LeadCalendarAsWritten) == "r " + x
  {
    var s := "agendar " + x;
    assert Rx.CiAt(s, 0, "agenda") by { CiLiteral(s, "agenda"); }
    assert !JsSpace(s[6]);
    assert s[6..] == "r " + x;
  }

  /** With `agendar` first the whole verb and its blank go. */
  lemma AgendarStripped(x: string)
    requires x != [] && !JsSpace(x[0])
    ensures Rx.StripLead("agendar " + x, LeadCalendar) == x
  {
    var s := "agendar " + x;
    assert Rx.CiAt(s, 0, "agendar") by { CiLiteral(s, "agendar"); }
    assert JsSpace(s[7]) && s[8..] == x && s[8] == x[0];
    assert Rx.SpaceRunAt(s, 7) == 1;
  }

  /** A lower-case literal at the start of a string occurs there. */
  lemma {:induction false} CiLiteral(s: string, w: string)
    requires |w| <= |s| && s[..|w|] == w && forall k :: 0 <= k < |w| ==> Lower(w[k]) == w[k]
    ensures Rx.CiAt(s, 0, w)
  {
    CiFrom(s, 0, w);
  }

  lemma {:induction false} CiFrom(s: string, i: nat, w: string)
    requires i + |w| <= |s| && s[i..i + |w|] == w && forall k :: 0 <= k < |w| ==> Lower(w[k]) == w[k]
    ensures Rx.CiAt(s, i, w)
    decreases |w|
  {
    if w != [] {
      assert s[i] == w[0];
      assert s[i + 1..i + 1 + |w[1..]|] == w[1..];
      CiFrom(s, i + 1, w[1..]);
    }
  }

  /** The leading keywords removed and trimmed, with the calendar verbs in
      the order the source lists them. */
  function Clean(s: string): (r: string)
    ensures |r| <= |s|
  {
    CleanWith(s, LeadCalendarAsWritten)
  }

  /** A word whose first two letters are not the text's does not occur at
      its start. */
  lemma NotAtStart(s: string, w: string)
    requires |s| >= 2 && |w| >= 2 && (Lower(s[0]) != w[0] || Lower(s[1]) != w[1])
    ensures !Rx.CiAt(s, 0, w)
  {
    assert w[1..][0] == w[1];
  }

  /** "agendar" opens none of the note keywords. */
  lemma AgendarNotNote(s: string)
    requires |s| >= 8 && s[..8] == "agendar "
    ensures forall k :: 0 <= k < |LeadNote| ==> !Rx.CiAt(s, 0, LeadNote[k])
  {
    assert s[0] == 'a' && s[1] == 'g';
    NotAtStart(s, "anota"); NotAtStart(s, "apunta"); NotAtStart(s, "nota"); NotAtStart(s, "escribe");
  }

  /** "agendar" opens none of the reminder keywords. */
  lemma AgendarNotReminder(s: string)
    requires |s| >= 8 && s[..8] == "agendar "
    ensures forall k :: 0 <= k < |LeadReminder| ==> !Rx.CiAt(s, 0, LeadReminder[k])
  {
    assert s[0] == 'a';
    NotAtStart(s, "recuerdame"); NotAtStart(s, "recuérdame"); NotAtStart(s, "recordatorio"); NotAtStart(s, "recordar");
  }

  /** "r" followed by a blank opens none of the filler words. */
  lemma StrayROpensNothing(t: string)
    requires |t| >= 2 && t[..2] == "r "
    ensures forall k :: 0 <= k < |LeadFiller| ==> !Rx.CiAt(t, 0, LeadFiller[k])
  {
    assert t[0] == 'r';
    NotAtStart(t, "que"); NotAtStart(t, "qué"); NotAtStart(t, "para"); NotAtStart(t, "sobre"); NotAtStart(t, "acerca de");
  }

  /** A text with no blank at either end is its own trim. */
  lemma TrimKeeps(t: string)
    requires t != [] && !JsSpace(t[0]) && !JsSpace(t[|t| - 1])
    ensures JsTrim(t) == t
  {
  }

  /** The whole cleaning as written: "agendar x" keeps the stray `r`, so a
      note saying "agendar comida" is shown as "r comida". */
  lemma CleanAgendarAsWritten(x: string)
    requires x != [] && !JsSpace(x[0]) && !JsSpace(x[|x| - 1])
    ensures Clean("agendar " + x) == "r " + x
  {
    var s := "agendar " + x;
    assert s[..8] == "agendar ";
    AgendarNotNote(s);
    AgendarNotReminder(s);
    assert Rx.StripLead(Rx.StripLead(s, LeadNote), LeadReminder) == s;
    AgendarAsWritten(x);
    var t := "r " + x;
    assert t[..2] == "r ";
    StrayROpensNothing(t);
    assert Rx.StripLead(t, LeadFiller) == t;
    TrimKeeps(t);
  }

  /** The further clean-up of calendar and reminder previews: the first day
      word, every joining word and every time expression removed, blank runs
      squeezed, trimmed. */
  function CalendarClean(c: string): (r: string)
    ensures |r| <= |c|
  {
    assert Rx.NonEmptyAlts(Joiners);
    var a := Rx.RemoveFirstWord(c, 0, DayWords);
    var b := Rx.RemoveWords(a, 0, Joiners);
    JsTrim(Rx.SqueezeRuns(Rx.RemoveTimes(b, 0)))
  }

  /** Cuts a text longer than limit to limit - 3 characters and `...`; an empty
      text becomes the fallback. */
  function Shorten(p: string, limit: nat, fallback: string): (r: string)
    requires limit >= 3 && fallback != [] && |fallback| <= limit
    ensures r != [] && |r| <= limit
    ensures |p| > limit ==> r == p[..limit - 3] + "..."
    ensures 0 < |p| <= limit ==> r == p
    ensures p == [] ==> r == fallback
  {
    if |p| > limit then p[..limit - 3] + "..." else if p == [] then fallback else p
  }

  predicate Timed(kind: string) { kind == "calendar" || kind == "reminder" }

  /** `extractPreviewContent(fullContent, taskType)`. */
  function ExtractPreview(full: string, kind: string): (r: string)
    ensures Timed(kind) ==> var c := CalendarClean(Clean(full));
      (0 < |c| <= 40 ==> r == c) && (|c| > 40 ==> r == c[..37] + "...")
      && (c == [] ==> r == "Evento sin titulo")
    ensures !Timed(kind) ==> var c := Clean(full);
      (0 < |c| <= 50 ==> r == c) && (|c| > 50 ==> r == c[..47] + "...")
      && (c == [] ==> r == "Nota sin contenido")
    ensures r != [] && |r| <= (if Timed(kind) then 40 else 50)
  {
    var c := Clean(full);
    if Timed(kind) then Shorten(CalendarClean(c), 40, "Evento sin titulo")
    else Shorten(c, 50, "Nota sin contenido")
  }

  /** As written, a short note saying "agendar x" previews as "r x". */
  lemma NoteAgendarPreview(x: string, kind: string)
    requires !Timed(kind) && x != [] && !JsSpace(x[0]) && !JsSpace(x[|x| - 1]) && |x| <= 48
    ensures ExtractPreview("agendar " + x, kind) == "r " + x
  {
    CleanAgendarAsWritten(x);
  }

  // ---------------------------------------------------------------------------
  // Filing a task (`processTask`)
  // ---------------------------------------------------------------------------

  /** The task record `processTask` builds; `raw` keeps only the calendar file. */
  datatype BuiltTask = BuiltTask(
    id: string, kind: string, content: string, preview: string, createdAt: string,
    status: string, fecha: string, hora: string, meetingType: string,
    rawIcs: Json, rawIcsFilename: Json)

  /** The record built from a normalised payload that resolved a task entity,
      given the preview of its content. */
  function Build(norm: Normalized, userMessage: string, localId: string, createdAt: string, preview: string): (t: BuiltTask)
    requires JsTruthy(norm.task)
    ensures t.kind == ResolveType(norm, userMessage) && t.content == ContentOf(norm.task, userMessage)
    ensures t.kind != "" && t.status != "" && t.preview == preview
    ensures localId != "" ==> t.id != ""
    ensures !JsTruthy(IcsOf(norm).content) ==> t.rawIcs == JNull && t.rawIcsFilename == JNull
  {
    var r := norm.task;
    var kind := ResolveType(norm, userMessage);
    var content := ContentOf(r, userMessage);
    var ics := IcsOf(norm);
    BuiltTask(
      StrOr(Get(r, "id"), localId), kind, content, preview, createdAt,
      StrOr(Get(r, "status"), "completed"),
      StrOr(Get(r, "fecha"), ""), StrOr(Get(r, "hora"), ""), StrOr(Get(r, "meeting_type"), ""),
      if JsTruthy(ics.content) then ics.content else JNull,
      if JsTruthy(ics.content) && JsTruthy(ics.filename) then ics.filename else JNull)
  }

  /** The string fields of a built task as the store keeps them. */
  function AsFields(t: BuiltTask): TaskStore.Fields {
    map["id" := t.id, "type" := t.kind, "content" := t.content, "preview" := t.preview,
        "createdAt" := t.createdAt, "status" := t.status, "fecha" := t.fecha, "hora" := t.hora,
        "meeting_type" := t.meetingType]
  }

  /** `processTask(userMessage, data)`: nothing is filed when the payload
      resolves no task entity. */
  method ProcessTask(store: TaskStore.Store, userMessage: string, data: Json, localId: string, createdAt: string)
    returns (r: Option<BuiltTask>)
    modifies store
    ensures r.None? <==> !JsTruthy(NormalizeTaskPayload(data).task)
    ensures r.None? ==> store.tasks == old(store.tasks)
    ensures r.Some? ==> (r.value.preview == ExtractPreview(r.value.content, r.value.kind)
      && r.value == Build(NormalizeTaskPayload(data), userMessage, localId, createdAt, r.value.preview)
      && store.tasks == TaskStore.Upsert(old(store.tasks), AsFields(r.value)))
  {
    var norm := NormalizeTaskPayload(data);
    if !JsTruthy(norm.task) {
      return None;
    }
    var kind := ResolveType(norm, userMessage);
    var preview := ExtractPreview(ContentOf(norm.task, userMessage), kind);
    var t := Build(norm, userMessage, localId, createdAt, preview);
    var _ := store.AddTask(Some(AsFields(t)));
    r := Some(t);
  }

  // ---------------------------------------------------------------------------
  // Sidebar
  // ---------------------------------------------------------------------------

  /** `tasks.slice(0, 3)`: the tasks a sidebar list shows. */
  function Shown<T>(tasks: seq<T>): (r: seq<T>)
    ensures |r| <= 3 && |r| <= |tasks| && r == tasks[..|r|]
    ensures |tasks| <= 3 ==> r == tasks
  {
    if |tasks| <= 3 then tasks else tasks[..3]
  }

  /** The `+N más` line under a list longer than three. */
  function MoreLabel(count: nat): (r: Option<string>)
    ensures r.Some? <==> count > 3
    ensures r.Some? ==> r.value == "+" + NatToString(count - 3) + " más"
  {
    if count > 3 then Some("+" + NatToString(count - 3) + " más") else None
  }

  /** The tasks shown plus the number in the `+N más` line account for the
      whole list. */
  lemma ShownAndMore<T>(tasks: seq<T>)
    ensures |Shown(tasks)| + (if MoreLabel(|tasks|).Some? then |tasks| - 3 else 0) == |tasks|
  {
  }

  /** A calendar or reminder entry ignores its stored preview: the line is
      recomputed from the content. */
  lemma TimedIgnoresStoredPreview(kind: string, p1: string, p2: string, content: string, rawTitle: string)
    requires Timed(kind)
    ensures DisplayText(kind, p1, content, rawTitle) == DisplayText(kind, p2, content, rawTitle)
  {
  }

  /** A note whose stored preview is neither blank nor the placeholder shows
      it trimmed, whatever its content. */
  lemma NoteShowsStoredPreview(kind: string, preview: string, content: string, rawTitle: string)
    requires !Timed(kind) && JsTrim(preview) != "" && LowerStr(JsTrim(preview)) != "evento sin titulo"
    ensures DisplayText(kind, preview, content, rawTitle) == JsTrim(preview)
  {
    assert preview != "";
  }

  /** The line a sidebar entry shows: the preview (recomputed for calendar
      and reminder tasks), else the raw title, the content or the placeholder. */
  function DisplayText(kind: string, preview: string, content: string, rawTitle: string): (r: string)
    ensures r != []
    ensures var shown := JsTrim(if Timed(kind) || preview == "" then ExtractPreview(content, kind) else preview);
      (shown != "" && LowerStr(shown) != "evento sin titulo" ==> r == shown)
      && (shown == "" || LowerStr(shown) == "evento sin titulo" ==>
            r == (if JsTrim(rawTitle) != "" then JsTrim(rawTitle)
                  else if JsTrim(content) != "" then JsTrim(content) else "Evento sin titulo"))
  {
    var inferred := if Timed(kind) then ExtractPreview(content, kind)
      else if preview != "" then preview else ExtractPreview(content, kind);
    var shown := JsTrim(inferred);
    var text := if shown == "" || LowerStr(shown) == "evento sin titulo"
      then (if JsTrim(rawTitle) != "" then JsTrim(rawTitle)
            else if JsTrim(content) != "" then JsTrim(content) else "Evento sin titulo")
      else shown;
    if kind == "note" && text == "" then "Nota sin contenido" else text
  }

  // ---------------------------------------------------------------------------
  // Rebuilding the store from the backend (`renderSidebarTasks`)
  // ---------------------------------------------------------------------------

  /** `tasksByType.k1 || tasksByType.k2 || []`: arrays are truthy, so an empty
      list under the first key hides the second. */
  function Bucket(byType: map<string, seq<TaskStore.Fields>>, k1: string, k2: string): seq<TaskStore.Fields> {
    if k1 in byType then byType[k1] else if k2 in byType then byType[k2] else []
  }

  /** `{...t, type: kind, preview: extractPreviewContent(t.content || '', kind)}`. */
  function Retyped(t: TaskStore.Fields, kind: string): (r: TaskStore.Fields)
    ensures "type" in r && r["type"] == kind
    ensures "preview" in r && r["preview"] == ExtractPreview(TaskStore.Field(t, "content"), kind)
    ensures forall k :: k != "type" && k != "preview" ==> (k in r <==> k in t) && (k in t ==> r[k] == t[k])
  {
    var p := ExtractPreview(TaskStore.Field(t, "content"), kind);
    SetTwo(t, "type", kind, "preview", p);
    t + map["type" := kind, "preview" := p]
  }

  /** Writing two distinct keys leaves every other key as it was. */
  lemma SetTwo<V>(t: map<string, V>, a: string, va: V, b: string, vb: V)
    requires a != b
    ensures var r := t + map[a := va, b := vb];
      a in r && r[a] == va && b in r && r[b] == vb
      && forall k :: k != a && k != b ==> (k in r <==> k in t) && (k in t ==> r[k] == t[k])
  {
  }

  /** A task whose preview is the one computed from its own content and type. */
  predicate Previewed(t: TaskStore.Fields) {
    "type" in t && "preview" in t && t["preview"] == ExtractPreview(TaskStore.Field(t, "content"), t["type"])
  }

  /** The tasks of one backend list as they are filed, in order. */
  function RetypeAll(ts: seq<TaskStore.Fields>, kind: string): (r: seq<TaskStore.Fields>)
    ensures |r| == |ts|
    ensures forall i :: 0 <= i < |r| ==>
      (Previewed(r[i]) && r[i]["type"] == kind && TaskStore.Field(r[i], "content") == TaskStore.Field(ts[i], "content"))
  {
    var r := seq(|ts|, i requires 0 <= i < |ts| => Retyped(ts[i], kind));
    assert forall i :: 0 <= i < |r| ==> r[i] == Retyped(ts[i], kind);
    RetypedEach(ts, kind, r);
    r
  }

  /** A retyped task keeps its content and carries the preview of it. */
  lemma RetypedPreviewed(t: TaskStore.Fields, kind: string)
    ensures Previewed(Retyped(t, kind))
    ensures TaskStore.Field(Retyped(t, kind), "content") == TaskStore.Field(t, "content")
  {
    var r := Retyped(t, kind);
    assert ("content" in r <==> "content" in t) && ("content" in t ==> r["content"] == t["content"]);
  }

  lemma RetypedEach(ts: seq<TaskStore.Fields>, kind: string, r: seq<TaskStore.Fields>)
    requires |r| == |ts| && forall i :: 0 <= i < |r| ==> r[i] == Retyped(ts[i], kind)
    ensures forall i :: 0 <= i < |r| ==>
      (Previewed(r[i]) && r[i]["type"] == kind && TaskStore.Field(r[i], "content") == TaskStore.Field(ts[i], "content"))
  {
    forall i | 0 <= i < |r|
      ensures Previewed(r[i]) && r[i]["type"] == kind && TaskStore.Field(r[i], "content") == TaskStore.Field(ts[i], "content")
    {
      RetypedPreviewed(ts[i], kind);
    }
  }

  lemma RetypeAllTyped(ts: seq<TaskStore.Fields>, kind: string)
    requires kind in {"calendar", "reminder", "note"}
    ensures Typed(RetypeAll(ts, kind))
  {
    var r := RetypeAll(ts, kind);
    forall i | 0 <= i < |r| ensures SidebarType(r[i]) {
      assert r[i] == Retyped(ts[i], kind);
    }
  }

  /** `addTask` applied to each task in turn. */
  function UpsertAll(store: seq<TaskStore.Fields>, us: seq<TaskStore.Fields>): seq<TaskStore.Fields>
    decreases |us|
  {
    if us == [] then store else UpsertAll(TaskStore.Upsert(store, us[0]), us[1..])
  }

  lemma {:induction false} UpsertAllSnoc(store: seq<TaskStore.Fields>, us: seq<TaskStore.Fields>, u: TaskStore.Fields)
    ensures UpsertAll(store, us + [u]) == TaskStore.Upsert(UpsertAll(store, us), u)
    decreases |us|
  {
    if us == [] {
      assert us + [u] == [u];
    } else {
      assert (us + [u])[1..] == us[1..] + [u];
      UpsertAllSnoc(TaskStore.Upsert(store, us[0]), us[1..], u);
    }
  }

  predicate SidebarType(t: TaskStore.Fields) {
    "type" in t && t["type"] in {"calendar", "reminder", "note"}
  }

  /** Every entry carries one of the three sidebar types. */
  predicate Typed(store: seq<TaskStore.Fields>) {
    forall i :: 0 <= i < |store| ==> SidebarType(store[i])
  }

  /** Filing a typed task keeps every entry typed. */
  lemma UpsertTyped(store: seq<TaskStore.Fields>, t: TaskStore.Fields)
    requires Typed(store) && SidebarType(t)
    ensures Typed(TaskStore.Upsert(store, t))
  {
    match Lists.FindFirst(TaskStore.MatchFn(t), store)
    case Some(i) =>
      var e := TaskStore.Tagged(store[i], t);
      assert e["type"] == t["type"];
    case None =>
      var e := TaskStore.Tagged(map[], t);
      assert e["type"] == t["type"];
      var r := TaskStore.Upsert(store, t);
      assert r == store + [e];
      assert forall i :: 0 <= i < |store| ==> r[i] == store[i];
  }

  lemma {:induction false} UpsertAllTyped(store: seq<TaskStore.Fields>, us: seq<TaskStore.Fields>)
    requires Typed(store) && Typed(us)
    ensures Typed(UpsertAll(store, us))
    ensures |UpsertAll(store, us)| <= |store| + |us|
    decreases |us|
  {
    if us != [] {
      UpsertTyped(store, us[0]);
      UpsertAllTyped(TaskStore.Upsert(store, us[0]), us[1..]);
    }
  }

  /** Files the tasks in order. */
  method AddEach(store: TaskStore.Store, us: seq<TaskStore.Fields>)
    modifies store
    ensures store.tasks == UpsertAll(old(store.tasks), us)
  {
    var i := 0;
    ghost var start := store.tasks;
    while i < |us|
      invariant 0 <= i <= |us|
      invariant store.tasks == UpsertAll(start, us[..i])
    {
      UpsertAllSnoc(start, us[..i], us[i]);
      Seqs.TakeSnoc(us, i);
      var _ := store.AddTask(Some(us[i]));
      i := i + 1;
    }
    Seqs.TakeAll(us);
  }

  /** The three lists as they are filed: calendar tasks, then reminders,
      then notes, each forced to its list's type. */
  function Filed(byType: map<string, seq<TaskStore.Fields>>): (r: seq<TaskStore.Fields>)
    ensures |r| == |Bucket(byType, "calendar", "calendar")|
      + |Bucket(byType, "reminder", "reminders")| + |Bucket(byType, "note", "notes")|
    ensures forall i :: 0 <= i < |r| ==>
      (Previewed(r[i]) && r[i]["type"] == if i < |Bucket(byType, "calendar", "calendar")| then "calendar"
        else if i < |Bucket(byType, "calendar", "calendar")| + |Bucket(byType, "reminder", "reminders")| then "reminder"
        else "note")
  {
    RetypeAll(Bucket(byType, "calendar", "calendar"), "calendar")
    + RetypeAll(Bucket(byType, "reminder", "reminders"), "reminder")
    + RetypeAll(Bucket(byType, "note", "notes"), "note")
  }

  lemma TypedConcat(a: seq<TaskStore.Fields>, b: seq<TaskStore.Fields>)
    requires Typed(a) && Typed(b)
    ensures Typed(a + b)
  {
    forall i | 0 <= i < |a + b| ensures SidebarType((a + b)[i]) {
      if i < |a| { assert (a + b)[i] == a[i]; } else { assert (a + b)[i] == b[i - |a|]; }
    }
  }

  /** The rebuilt store holds only the three types and no more entries than
      the backend sent. */
  lemma RebuiltTyped(byType: map<string, seq<TaskStore.Fields>>)
    ensures Typed(UpsertAll([], Filed(byType)))
    ensures |UpsertAll([], Filed(byType))| <= |Filed(byType)|
  {
    var c := RetypeAll(Bucket(byType, "calendar", "calendar"), "calendar");
    var m := RetypeAll(Bucket(byType, "reminder", "reminders"), "reminder");
    var n := RetypeAll(Bucket(byType, "note", "notes"), "note");
    RetypeAllTyped(Bucket(byType, "calendar", "calendar"), "calendar");
    RetypeAllTyped(Bucket(byType, "reminder", "reminders"), "reminder");
    RetypeAllTyped(Bucket(byType, "note", "notes"), "note");
    TypedConcat(c, m);
    TypedConcat(c + m, n);
    UpsertAllTyped([], Filed(byType));
  }

  /** `renderSidebarTasks(tasksByType)`: the store emptied, then refilled. */
  method RenderSidebarTasks(store: TaskStore.Store, byType: map<string, seq<TaskStore.Fields>>)
    modifies store
    ensures store.tasks == UpsertAll([], Filed(byType))
  {
    var _ := store.SetTaskStore(Some([]));
    var c := RetypeAll(Bucket(byType, "calendar", "calendar"), "calendar");
    var m := RetypeAll(Bucket(byType, "reminder", "reminders"), "reminder");
    var n := RetypeAll(Bucket(byType, "note", "notes"), "note");
    AddEach(store, c);
    AddEach(store, m);
    AddEach(store, n);
    UpsertAllConcat([], c, m);
    UpsertAllConcat([], c + m, n);
  }

  /** Filing two lists one after the other is filing their concatenation. */
  lemma {:induction false} UpsertAllConcat(store: seq<TaskStore.Fields>, a: seq<TaskStore.Fields>, b: seq<TaskStore.Fields>)
    ensures UpsertAll(UpsertAll(store, a), b) == UpsertAll(store, a + b)
    decreases |a|
  {
    if a == [] {
      assert a + b == b;
    } else {
      assert (a + b)[1..] == a[1..] + b;
      UpsertAllConcat(TaskStore.Upsert(store, a[0]), a[1..], b);
    }
  }
}
