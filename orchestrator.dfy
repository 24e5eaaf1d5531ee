/** The task orchestrator: analyses a task request, runs the agent for its
    type, and either asks for a missing slot (remembering the half-built
    task in the conversation state) or stores the finished task. The
    datetime normaliser, the language model and the id, UUID and clock
    sources are given as an environment. */
module TaskOrchestrator {
  import opened Wrappers
  import opened Json
  import opened UserTasks
  import opened ConvStore
  import opened AgentReply
  import TaskAnalysis
  import CalendarAgent
  import ReminderAgent
  import NoteAgent
  import TaskCalendar

  datatype Agent = Calendar | Reminder | Note

  /** `_select_agent` */
  function SelectAgent(ttype: string): (a: Agent)
    ensures a == Calendar <==> ttype == "calendar"
    ensures a == Reminder <==> ttype == "reminder"
    ensures a == Note <==> ttype != "calendar" && ttype != "reminder"
  {
    if ttype == "calendar" then Calendar
    else if ttype == "reminder" then Reminder
    else Note
  }

  const LinkQuestion: string := "🔗 ¿Ya tienes la liga de la reunión?"
  const ReminderTimeQuestion: string := "⏰ ¿Qué día y a qué hora quieres que te lo recuerde?"
  const EventTimeQuestion: string := "🕒 ¿En qué fecha y hora será el evento?"
  const FallbackQuestion: string := "🤔 ¿Puedes darme un poco más de información?"

  /** `_followup_question_for`: a fixed question per slot; the date and time
      question is worded for reminders or for events. */
  function FollowupQuestionFor(slot: Option<string>, ttype: string): (q: string)
    ensures q != ""
    ensures slot == Some("meeting_link") ==> q == LinkQuestion
    ensures slot == Some("datetime") ==> q == (if ttype == "reminder" then ReminderTimeQuestion else EventTimeQuestion)
    ensures slot != Some("meeting_link") && slot != Some("datetime") ==> q == FallbackQuestion
  {
    if slot == Some("meeting_link") then LinkQuestion
    else if slot == Some("datetime") then (if ttype == "reminder" then ReminderTimeQuestion else EventTimeQuestion)
    else FallbackQuestion
  }

  const MeetingLink: Json := JStr("meeting_link")
  const Datetime: Json := JStr("datetime")

  /** A reminder or calendar task that names "fecha" or "hora". */
  predicate NamesDateParts(ttype: string, items: seq<Json>) {
    (ttype == "reminder" || ttype == "calendar") && (JStr("fecha") in items || JStr("hora") in items)
  }

  /** `_normalize_enrichment_candidates`: a value that is not a list gives
      no slot; "fecha" or "hora" of a reminder or calendar task become
      "datetime", after "meeting_link" when that was asked too; both
      supported slots come back in their fixed order; anything else is
      kept as it is. */
  function NormalizeCandidates(ttype: string, candidates: Json): (r: seq<Json>)
    ensures !candidates.JArr? ==> r == []
    ensures candidates.JArr? && NamesDateParts(ttype, candidates.items) ==>
      r == (if MeetingLink in candidates.items then [MeetingLink, Datetime] else [Datetime])
    ensures candidates.JArr? && !NamesDateParts(ttype, candidates.items) ==>
      r == (if MeetingLink in candidates.items && Datetime in candidates.items then [MeetingLink, Datetime]
            else candidates.items)
  {
    if !candidates.JArr? then []
    else
      var items := candidates.items;
      if NamesDateParts(ttype, items) then
        (if MeetingLink in items then [MeetingLink] else []) + [Datetime]
      else if MeetingLink in items && Datetime in items then [MeetingLink, Datetime]
      else items
  }

  /** Normalising is idempotent: normalised candidates are left as they are. */
  lemma NormalizeTwice(ttype: string, candidates: Json)
    ensures NormalizeCandidates(ttype, JArr(NormalizeCandidates(ttype, candidates)))
         == NormalizeCandidates(ttype, candidates)
  {
    var r := NormalizeCandidates(ttype, candidates);
    if candidates.JArr? && (NamesDateParts(ttype, candidates.items)
                            || (MeetingLink in candidates.items && Datetime in candidates.items)) {
      assert JStr("fecha") !in r && JStr("hora") !in r;
    }
  }

  /** Slots the continuation supports: each candidate of a reminder or
      calendar task that is one of "fecha", "hora", "meeting_link" and
      "datetime" normalises to "meeting_link" or "datetime". */
  lemma NormalizedSupported(ttype: string, items: seq<Json>)
    requires ttype == "reminder" || ttype == "calendar"
    requires forall i :: 0 <= i < |items| ==>
      items[i] in {JStr("fecha"), JStr("hora"), MeetingLink, Datetime}
    ensures forall i :: 0 <= i < |NormalizeCandidates(ttype, JArr(items))| ==>
      NormalizeCandidates(ttype, JArr(items))[i] in {MeetingLink, Datetime}
  {
  }

  // ---------------------------------------------------------------------------
  // process_task
  // ---------------------------------------------------------------------------

  /** What the outside services answer: the normaliser's date and time for
      the analysis and for the agent, the model's raw reply and the JSON
      parser, the invitation's UUID and stamp, and the new task's id and
      creation time. */
  datatype Env = Env(
    analysisFecha: Json, analysisHora: Json,
    agentFecha: Json, agentHora: Json,
    reply: Option<string>, loads: string -> Option<Json>,
    uuid: string, dtstamp: string,
    taskId: string, now: int)

  /** The analysis `process_task` starts from. */
  function AnalysisFor(normalized: string, ttype: string, env: Env): TaskAnalysis.Analysis {
    TaskAnalysis.AnalysisOf(normalized, ttype, env.analysisFecha, env.analysisHora)
  }

  /** `agent.handle(...)` for the selected agent. */
  function RunAgent(normalized: string, ttype: string, env: Env): (r: Result<AgentResult, string>)
    ensures SelectAgent(ttype) != Calendar ==> r.Success?
    ensures ttype != "calendar" && ttype != "reminder" ==> r.Success? && !r.value.needsFollowup
  {
    match SelectAgent(ttype)
    case Calendar =>
      CalendarAgent.Handle(normalized, AnalysisFor(normalized, ttype, env), env.agentFecha, env.agentHora,
        env.reply, env.loads, env.uuid, env.dtstamp)
    case Reminder => Success(ReminderAgent.Handle(normalized, env.agentFecha, env.agentHora, env.reply, env.loads))
    case Note => Success(NoteAgent.Handle(normalized, env.reply, env.loads))
  }

  /** `agent_result.get("enrichment_candidates", []) or []` */
  function RawCandidates(r: AgentResult): Json {
    if r.candidates.Some? then JArr(r.candidates.value) else JArr([])
  }

  /** The slot a candidate names, when it is a text. */
  function SlotOf(candidates: seq<Json>): (s: Option<string>)
    ensures candidates == [] ==> s.None?
    ensures candidates != [] ==> s == AsString(candidates[0])
  {
    if candidates == [] then None else AsString(candidates[0])
  }

  /** The state the follow-up branch leaves: the enrichment intent, the
      first normalised candidate as the awaited slot, and the agent's result
      with the task type as the slots. */
  function FollowupState(state: ConversationState, r: AgentResult, ttype: string): (s: ConversationState)
    ensures s.intent == Some("task_enrichment")
    ensures s.awaitingSlot == SlotOf(NormalizeCandidates(ttype, RawCandidates(r)))
    ensures s.slots == Dict(r)["task_type" := JStr(ttype)]
    ensures s.originalQuery == state.originalQuery && s.updatedAt == state.updatedAt
  {
    state.(intent := Some("task_enrichment"),
           awaitingSlot := SlotOf(NormalizeCandidates(ttype, RawCandidates(r))),
           slots := Dict(r)["task_type" := JStr(ttype)])
  }

  /** The task the follow-up answer carries: the agent's result with the
      question and the normalised candidates. */
  function FollowupTask(r: AgentResult, ttype: string): (m: map<string, Json>)
    ensures "followup_question" in m && m["followup_question"].JStr? && m["followup_question"].s != ""
    ensures "enrichment_candidates" in m && m["enrichment_candidates"] == JArr(NormalizeCandidates(ttype, RawCandidates(r)))
  {
    var cands := NormalizeCandidates(ttype, RawCandidates(r));
    var q := FollowupQuestionFor(SlotOf(cands), ttype);
    Dict(r)["followup_question" := JStr(q)]["enrichment_candidates" := JArr(cands)]
  }

  /** `ttype if ttype in ("calendar", "reminder", "note") else "note"` */
  function SafeType(ttype: string): (k: string)
    ensures k == "calendar" || k == "reminder" || k == "note"
    ensures (ttype == "calendar" || ttype == "reminder" || ttype == "note") ==> k == ttype
  {
    if ttype == "calendar" || ttype == "reminder" || ttype == "note" then ttype else "note"
  }

  function OptJson(v: Option<Json>): Json {
    if v.Some? then v.value else JNull
  }

  function OptStr(v: Option<string>): Json {
    if v.Some? then JStr(v.value) else JNull
  }

  /** The task the completed branch stores: the agent's content, its date,
      time and place before the analysis', the analysis' meeting type, no
      description nor link, status "active". */
  function StoredTask(r: AgentResult, a: TaskAnalysis.Analysis, ttype: string, userKey: string, env: Env)
    : (t: Task)
    ensures t.status == "active" && t.userKey == userKey && t.kind == SafeType(ttype)
    ensures t.id == env.taskId && t.createdAt == env.now
    ensures t.content == StrOr(r.content, "")
    ensures t.fecha == AsString(PyOr(OptJson(r.fecha), a.fecha))
    ensures t.hora == AsString(PyOr(OptJson(r.hora), a.hora))
    ensures t.meetingType == a.meetingType && t.description.None? && t.meetingLink.None?
    ensures t.location == AsString(PyOr(PyOr(OptJson(r.ubicacion), OptJson(r.lugar)), OptStr(a.location)))
  {
    Task(env.taskId, userKey, SafeType(ttype), StrOr(r.content, ""), None, a.meetingType, None,
      AsString(PyOr(PyOr(OptJson(r.ubicacion), OptJson(r.lugar)), OptStr(a.location))),
      AsString(PyOr(OptJson(r.fecha), a.fecha)), AsString(PyOr(OptJson(r.hora), a.hora)),
      "active", env.now)
  }

  datatype Outcome =
    | FollowupAsked(task: map<string, Json>)
    | TaskStored(stored: Task, grouped: Grouped, ics: Option<TaskCalendar.IcsFile>)

  /** The answer, the conversation state and the task dictionary after a
      `process_task`. */
  datatype Processing = Processing(out: Result<Outcome, string>, state: ConversationState, tasks: map<string, seq<Task>>)

  /** What follows the agent's run. An agent error changes nothing. A
      follow-up changes only the state, and the question it asks is the one
      for the slot it awaits. A finished task is appended to its user's
      list, even when building its invitation then raises, and the state is
      left alone. */
  function Settled(tasks: map<string, seq<Task>>, run: Result<AgentResult, string>, a: TaskAnalysis.Analysis,
                   ttype: string, state: ConversationState, userKey: string, env: Env): (p: Processing)
    ensures run.Failure? ==> p == Processing(Failure(run.error), state, tasks)
    ensures run.Success? && run.value.needsFollowup ==>
      p.out.Success? && p.out.value.FollowupAsked? && p.tasks == tasks
      && p.state.intent == Some("task_enrichment")
      && p.state.slots == Dict(run.value)["task_type" := JStr(ttype)]
      && "enrichment_candidates" in p.out.value.task && "followup_question" in p.out.value.task
      && p.out.value.task["enrichment_candidates"] == JArr(NormalizeCandidates(ttype, RawCandidates(run.value)))
      && p.state.awaitingSlot == SlotOf(NormalizeCandidates(ttype, RawCandidates(run.value)))
      && p.out.value.task["followup_question"] == JStr(FollowupQuestionFor(p.state.awaitingSlot, ttype))
    ensures run.Success? && !run.value.needsFollowup ==>
      var task := StoredTask(run.value, a, ttype, userKey, env);
      p.state == state && !(p.out.Success? && p.out.value.FollowupAsked?)
      && p.tasks == tasks[userKey := TasksOf(tasks, userKey) + [task]]
      && (p.out.Failure? <==> TaskCalendar.GenerateIcsForTask(task, env.uuid, env.dtstamp).Failure?)
      && (p.out.Success? ==> p.out.value.stored == task && p.out.value.grouped == Group(TasksOf(p.tasks, userKey)))
  {
    if run.Failure? then Processing(Failure(run.error), state, tasks)
    else if run.value.needsFollowup then
      Processing(Success(FollowupAsked(FollowupTask(run.value, ttype))), FollowupState(state, run.value, ttype), tasks)
    else
      var task := StoredTask(run.value, a, ttype, userKey, env);
      var after := tasks[userKey := TasksOf(tasks, userKey) + [task]];
      match TaskCalendar.GenerateIcsForTask(task, env.uuid, env.dtstamp)
      case Failure(e) => Processing(Failure(e), state, after)
      case Success(ics) => Processing(Success(TaskStored(task, Group(TasksOf(after, userKey)), ics)), state, after)
  }

  /** `process_task` over the task dictionary. */
  function Processed(tasks: map<string, seq<Task>>, normalized: string, ttype: string, state: ConversationState,
                     userKey: string, env: Env): Processing
  {
    Settled(tasks, RunAgent(normalized, ttype, env), AnalysisFor(normalized, ttype, env), ttype, state, userKey, env)
  }

  /** `process_task`: the analysis, the agent, then the follow-up branch
      (which writes the state) or the completed branch (which appends to
      the store). The user key is the caller's: the state has none. */
  method ProcessTask(store: TaskStore, normalized: string, ttype: string, state: ConversationState,
                     userKey: string, env: Env)
    returns (out: Result<Outcome, string>, next: ConversationState)
    modifies store
    ensures Processing(out, next, store.tasks) == Processed(old(store.tasks), normalized, ttype, state, userKey, env)
  {
    var analysis := TaskAnalysis.AnalyzeTask(normalized, ttype, env.analysisFecha, env.analysisHora);
    var run := RunAgent(normalized, ttype, env);
    if run.Failure? {
      return Failure(run.error), state;
    }
    var result := run.value;
    if result.needsFollowup {
      var candidates := NormalizeCandidates(ttype, RawCandidates(result));
      next := state.(intent := Some("task_enrichment"));
      next := next.(awaitingSlot := SlotOf(candidates));
      next := next.(slots := Dict(result)["task_type" := JStr(ttype)]);
      var question := FollowupQuestionFor(next.awaitingSlot, ttype);
      var task := Dict(result)["followup_question" := JStr(question)];
      task := task["enrichment_candidates" := JArr(candidates)];
      return Success(FollowupAsked(task)), next;
    }
    var task := StoredTask(result, analysis, ttype, userKey, env);
    store.AddTask(task);
    var grouped := store.GetTasksGrouped(userKey);
    var ics := TaskCalendar.GenerateIcsForTask(task, env.uuid, env.dtstamp);
    if ics.Failure? {
      return Failure(ics.error), state;
    }
    return Success(TaskStored(task, grouped, ics.value)), state;
  }

  /** The calendar agent's candidates are kept as they are; the first is
      the meeting link or the date and time. */
  lemma CalendarSlots(cands: seq<string>)
    requires cands == ["meeting_link"] || cands == ["datetime"] || cands == ["meeting_link", "datetime"]
    ensures SlotOf(NormalizeCandidates("calendar", JArr(Strs(cands)))) in {Some("meeting_link"), Some("datetime")}
  {
    var js := Strs(cands);
    assert !NamesDateParts("calendar", js) by {
      assert forall i :: 0 <= i < |js| ==> js[i] == MeetingLink || js[i] == Datetime;
    }
    assert js[0] == MeetingLink || js[0] == Datetime;
  }

  /** The reminder agent's "fecha" and "hora" become the one slot
      "datetime". */
  lemma ReminderSlots(cands: seq<string>)
    requires cands == ["fecha"] || cands == ["hora"] || cands == ["fecha", "hora"]
    ensures SlotOf(NormalizeCandidates("reminder", JArr(Strs(cands)))) == Some("datetime")
  {
    var js := Strs(cands);
    assert js[0] == JStr(cands[0]);
    assert MeetingLink !in js;
  }

  /** A calendar follow-up awaits the meeting link or the date and time. */
  lemma CalendarAwaitsSupportedSlot(content: string, analysis: TaskAnalysis.Analysis, dtFecha: Json, dtHora: Json,
                                    raw: Option<string>, loads: string -> Option<Json>, uuid: string, dtstamp: string)
    requires CalendarAgent.Handle(content, analysis, dtFecha, dtHora, raw, loads, uuid, dtstamp).Success?
    requires CalendarAgent.Handle(content, analysis, dtFecha, dtHora, raw, loads, uuid, dtstamp).value.needsFollowup
    ensures SlotOf(NormalizeCandidates("calendar", RawCandidates(
              CalendarAgent.Handle(content, analysis, dtFecha, dtHora, raw, loads, uuid, dtstamp).value)))
         in {Some("meeting_link"), Some("datetime")}
  {
    CalendarSlots(CalendarAgent.Candidates(analysis.missingFields, dtFecha, dtHora));
  }

  /** A reminder follow-up awaits the date and time. */
  lemma ReminderAwaitsDatetime(content: string, dtFecha: Json, dtHora: Json, raw: Option<string>,
                               loads: string -> Option<Json>)
    requires ReminderAgent.Handle(content, dtFecha, dtHora, raw, loads).needsFollowup
    ensures SlotOf(NormalizeCandidates("reminder", RawCandidates(
              ReminderAgent.Handle(content, dtFecha, dtHora, raw, loads)))) == Some("datetime")
  {
    var llm := NormalizeReply(raw, loads);
    ReminderSlots(ReminderAgent.Candidates(PyOr(Get(JObj(llm), "fecha"), dtFecha), PyOr(Get(JObj(llm), "hora"), dtHora)));
  }

  /** Every follow-up awaits a slot the continuation handles: "meeting_link"
      or "datetime", never nothing. */
  lemma FollowupAwaitsSupportedSlot(tasks: map<string, seq<Task>>, normalized: string, ttype: string,
                                    state: ConversationState, userKey: string, env: Env)
    requires Processed(tasks, normalized, ttype, state, userKey, env).out.Success?
    requires Processed(tasks, normalized, ttype, state, userKey, env).out.value.FollowupAsked?
    ensures Processed(tasks, normalized, ttype, state, userKey, env).state.awaitingSlot
         in {Some("meeting_link"), Some("datetime")}
  {
    var run := RunAgent(normalized, ttype, env);
    if ttype == "calendar" {
      CalendarAwaitsSupportedSlot(normalized, AnalysisFor(normalized, ttype, env), env.agentFecha, env.agentHora,
        env.reply, env.loads, env.uuid, env.dtstamp);
    } else if ttype == "reminder" {
      ReminderAwaitsDatetime(normalized, env.agentFecha, env.agentHora, env.reply, env.loads);
    }
  }

  /** A note, or a task of any type other than calendar and reminder, is
      stored straight away and never asks. */
  lemma NotesNeverAsk(tasks: map<string, seq<Task>>, normalized: string, ttype: string,
                      state: ConversationState, userKey: string, env: Env)
    requires ttype != "calendar" && ttype != "reminder"
    ensures Processed(tasks, normalized, ttype, state, userKey, env).state == state
    ensures !Processed(tasks, normalized, ttype, state, userKey, env).out.Success?
         || Processed(tasks, normalized, ttype, state, userKey, env).out.value.TaskStored?
  {
    var run := RunAgent(normalized, ttype, env);
    assert run.Success? && !run.value.needsFollowup;
  }

  /** The stored task comes back in its user's grouped tasks, last of its
      kind. */
  lemma StoredTaskListed(tasks: map<string, seq<Task>>, run: Result<AgentResult, string>, a: TaskAnalysis.Analysis,
                         ttype: string, state: ConversationState, userKey: string, env: Env)
    requires Settled(tasks, run, a, ttype, state, userKey, env).out.Success?
    requires Settled(tasks, run, a, ttype, state, userKey, env).out.value.TaskStored?
    ensures
      var o := Settled(tasks, run, a, ttype, state, userKey, env).out.value;
      var mine := if o.stored.kind == "calendar" then o.grouped.calendar
                  else if o.stored.kind == "reminder" then o.grouped.reminder else o.grouped.note;
      mine != [] && mine[|mine| - 1] == o.stored
  {
    var t := StoredTask(run.value, a, ttype, userKey, env);
    var before := TasksOf(tasks, userKey);
    ByKindConcat(before, [t], t.kind);
  }

  // ---------------------------------------------------------------------------
  // handle_task_web
  // ---------------------------------------------------------------------------

  const TypeRequired: string := "handle_task_web: task_type/ttype es requerido"
  const ContinuationRefused: string :=
    "handle_task_web: continuation debe manejarse vía continue_task en cerebro_service"

  /** Python `a or b` on optional texts. */
  function OrText(a: Option<string>, b: string): (r: string)
    ensures a.Some? && a.value != "" ==> r == a.value
    ensures !(a.Some? && a.value != "") ==> r == b
  {
    if a.Some? && a.value != "" then a.value else b
  }

  /** The stripped task type `handle_task_web` works with: the new-style
      argument before the old one. */
  function FinalType(taskType: Option<string>, ttype: Option<string>): string {
    Text.PyStrip(OrText(taskType, OrText(ttype, "")))
  }

  /** The stripped text: the normalised text before the raw message. */
  function FinalText(normalized: Option<string>, userMessage: Option<string>): string {
    Text.PyStrip(OrText(normalized, OrText(userMessage, "")))
  }

  /** `handle_task_web`: no type, or a continuation, is refused before
      anything changes; otherwise `process_task` runs on the stripped text
      and type. */
  method HandleTaskWeb(store: TaskStore, userMessage: Option<string>, normalized: Option<string>,
                       ttype: Option<string>, userKey: Option<string>, taskType: Option<string>,
                       state: ConversationState, continuation: bool, env: Env)
    returns (out: Result<Outcome, string>, next: ConversationState)
    modifies store
    ensures FinalType(taskType, ttype) == "" ==>
      out == Failure(TypeRequired) && next == state && store.tasks == old(store.tasks)
    ensures FinalType(taskType, ttype) != "" && continuation ==>
      out == Failure(ContinuationRefused) && next == state && store.tasks == old(store.tasks)
    ensures FinalType(taskType, ttype) != "" && !continuation ==>
      Processing(out, next, store.tasks)
      == Processed(old(store.tasks), FinalText(normalized, userMessage), FinalType(taskType, ttype), state,
                   OrText(userKey, ""), env)
  {
    var text := FinalText(normalized, userMessage);
    var finalType := FinalType(taskType, ttype);
    if finalType == "" {
      return Failure(TypeRequired), state;
    }
    if continuation {
      return Failure(ContinuationRefused), state;
    }
    out, next := ProcessTask(store, text, finalType, state, OrText(userKey, ""), env);
  }
}
