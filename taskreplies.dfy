/** The task replies of the web chat: the reply built from what the task
    orchestrator returned (a follow-up question or a confirmation), and the
    cancellation a message can ask for before anything else runs.

    `task_result` is a Python dict whose values may be anything; reading a
    key of something that is not a dict raises, and so do indexing a
    number and looking up a list or dict in a dict, so the reply builder
    returns a Result. */
module TaskReplies {
  import opened Wrappers
  import opened Json
  import opened Text
  import opened ConvStore
  import TaskQuery
  import UserTasks

  // ---------------------------------------------------------------------------
  // _confirmation_text
  // ---------------------------------------------------------------------------

  const EventSaved: string := "📅 Listo. Guardé el evento."
  const ReminderSaved: string := "⏰ Listo. Guardé el recordatorio."
  const NoteSaved: string := "📝 Nota guardada."
  const TaskSaved: string := "✅ Listo. Guardé la tarea."

  /** The type a task names: `task_type`, else `type`; nothing for a value
      that is not a dict. */
  function TypeNamed(task: Json): (t: Json)
    ensures !task.JObj? ==> t == JNull
  {
    if task.JObj? then PyOr(Get(task, "task_type"), Get(task, "type")) else JNull
  }

  /** `_confirmation_text`: one text per known type, the generic one for any
      other type or none. */
  function ConfirmationText(task: Json): (r: string)
    ensures TypeNamed(task) == JStr("calendar") <==> r == EventSaved
    ensures TypeNamed(task) == JStr("reminder") <==> r == ReminderSaved
    ensures TypeNamed(task) == JStr("note") <==> r == NoteSaved
    ensures r == TaskSaved <==> !(TypeNamed(task) in {JStr("calendar"), JStr("reminder"), JStr("note")})
  {
    var t := TypeNamed(task);
    if t == JStr("calendar") then EventSaved
    else if t == JStr("reminder") then ReminderSaved
    else if t == JStr("note") then NoteSaved
    else TaskSaved
  }

  // ---------------------------------------------------------------------------
  // _build_task_response
  // ---------------------------------------------------------------------------

  const TasksContext: string := "🗓️ GESTIÓN DE TAREAS"
  const LinkFallback: string := "🔗 ¿Ya tienes la liga de la reunión?"
  const DatetimeFallback: string := "🕒 ¿En qué fecha y hora?"
  const MoreInfoFallback: string := "🤔 ¿Puedes darme un poco más de información?"

  /** The reply: its text, the context label (the same for every task
      reply), the action, the task result echoed back and, for a follow-up,
      the task's type. Every such reply also carries success True and
      context_reset False. */
  datatype Reply = Reply(response: Json, context: string, action: string, task: map<string, Json>, taskType: Option<Json>)

  /** `v.get(k)`: a value that is not a dict has no `get`. */
  function PyGet(v: Json, k: string): (r: Result<Json, string>)
    ensures v.JObj? <==> r.Success?
    ensures r.Success? ==> r.value == Get(v, k)
  {
    if v.JObj? then Success(Get(v, k)) else Failure("AttributeError: get")
  }

  /** `task_result.get("task") or task_result` */
  function TaskOf(tr: map<string, Json>): (t: Json)
    ensures PyTruthy(Get(JObj(tr), "task")) ==> t == Get(JObj(tr), "task")
    ensures !PyTruthy(Get(JObj(tr), "task")) ==> t == JObj(tr)
  {
    PyOr(Get(JObj(tr), "task"), JObj(tr))
  }

  /** A follow-up is asked for by the flag or by the action. */
  predicate NeedsFollowup(tr: map<string, Json>) {
    PyTruthy(PyOr(Get(JObj(tr), "needs_followup"), JBool(Get(JObj(tr), "action") == JStr("task_followup"))))
  }

  /** `task_result.get("enrichment_candidates") or task.get("enrichment_candidates") or []` */
  function Enrichment(tr: map<string, Json>, task: Json): (r: Result<Json, string>)
    ensures PyTruthy(Get(JObj(tr), "enrichment_candidates")) ==> r == Success(Get(JObj(tr), "enrichment_candidates"))
    ensures !PyTruthy(Get(JObj(tr), "enrichment_candidates")) ==> (r.Success? <==> task.JObj?)
  {
    var a := Get(JObj(tr), "enrichment_candidates");
    if PyTruthy(a) then Success(a)
    else match PyGet(task, "enrichment_candidates")
      case Failure(e) => Failure(e)
      case Success(b) => Success(PyOr(b, JArr([])))
  }

  /** `enrichment[0] if enrichment else None`: the first item of a list, the
      first character of a text; a dict has no key 0 and a number or a
      boolean cannot be indexed. */
  function FirstOf(e: Json): (r: Result<Json, string>)
    ensures !PyTruthy(e) ==> r == Success(JNull)
    ensures e.JArr? && e.items != [] ==> r == Success(e.items[0])
  {
    if !PyTruthy(e) then Success(JNull)
    else match e
      case JArr(items) => Success(items[0])
      case JStr(s) => Success(JStr([s[0]]))
      case JObj(_) => Failure("KeyError: 0")
      case _ => Failure("TypeError: not subscriptable")
  }

  /** The question the orchestrator or the agent wrote: the task's, the
      result's, then the nested task's; anything that raises meanwhile reads
      as none. */
  function AskedQuestion(tr: map<string, Json>, task: Json): (q: Json)
    ensures !task.JObj? ==> q == JNull
    ensures task.JObj? && PyTruthy(Get(task, "followup_question")) ==> q == Get(task, "followup_question")
    ensures task.JObj? && !PyTruthy(Get(task, "followup_question")) && PyTruthy(Get(JObj(tr), "followup_question"))
      ==> q == Get(JObj(tr), "followup_question")
  {
    match PyGet(task, "followup_question")
    case Failure(_) => JNull
    case Success(a) =>
      if PyTruthy(a) then a
      else
        var b := Get(JObj(tr), "followup_question");
        if PyTruthy(b) then b
        else match PyGet(PyOr(Get(task, "task"), JObj(map[])), "followup_question")
          case Failure(_) => JNull
          case Success(c) => c
  }

  /** The legacy question for the awaited slot: a list or a dict cannot be a
      key and raises. */
  function SlotQuestion(slot: Json): (r: Result<string, string>)
    ensures slot == JStr("meeting_link") ==> r == Success(LinkFallback)
    ensures slot == JStr("datetime") ==> r == Success(DatetimeFallback)
    ensures !PyTruthy(slot) ==> r == Success(MoreInfoFallback)
  {
    var key := PyOr(slot, JStr(""));
    if key.JArr? || key.JObj? then Failure("TypeError: unhashable type")
    else if key == JStr("meeting_link") then Success(LinkFallback)
    else if key == JStr("datetime") then Success(DatetimeFallback)
    else Success(MoreInfoFallback)
  }

  /** The follow-up reply: the question written for the user, else the one
      for the awaited slot. */
  function FollowupReply(tr: map<string, Json>, task: Json): (r: Result<Reply, string>)
    ensures r.Success? ==> task.JObj? && r.value == Reply(r.value.response, TasksContext, "task_followup", tr, Some(Get(task, "task_type")))
    ensures r.Success? && PyTruthy(AskedQuestion(tr, task)) ==> r.value.response == AskedQuestion(tr, task)
    ensures r.Success? && !PyTruthy(AskedQuestion(tr, task)) ==>
      r.value.response in {JStr(LinkFallback), JStr(DatetimeFallback), JStr(MoreInfoFallback)}
    ensures (task.JObj? && PyTruthy(AskedQuestion(tr, task)) && Enrichment(tr, task).Success?
      && FirstOf(Enrichment(tr, task).value).Success?) ==> r.Success?
  {
    match Enrichment(tr, task)
    case Failure(e) => Failure(e)
    case Success(en) =>
      match FirstOf(en)
      case Failure(e) => Failure(e)
      case Success(slot) =>
        var asked := AskedQuestion(tr, task);
        var text: Result<Json, string> :=
          if PyTruthy(asked) then Success(asked)
          else match SlotQuestion(slot)
            case Failure(e) => Failure(e)
            case Success(q) => Success(JStr(q));
        match text
        case Failure(e) => Failure(e)
        case Success(t) =>
          match PyGet(task, "task_type")
          case Failure(e) => Failure(e)
          case Success(ty) => Success(Reply(t, TasksContext, "task_followup", tr, Some(ty)))
  }

  /** `_build_task_response`: the follow-up when the flag or the action asks
      for it, the confirmation otherwise. */
  function BuildTaskResponse(tr: map<string, Json>): (r: Result<Reply, string>)
    ensures !NeedsFollowup(tr) ==> r == Success(Reply(JStr(ConfirmationText(TaskOf(tr))), TasksContext, "task", tr, None))
    ensures NeedsFollowup(tr) ==> r == FollowupReply(tr, TaskOf(tr))
    ensures r.Success? ==> r.value.task == tr && r.value.context == TasksContext && (r.value.action == "task_followup" <==> NeedsFollowup(tr))
  {
    if NeedsFollowup(tr) then
      var f := FollowupReply(tr, TaskOf(tr));
      assert f.Success? ==> f.value.action == "task_followup" && f.value.task == tr;
      f
    else Success(Reply(JStr(ConfirmationText(TaskOf(tr))), TasksContext, "task", tr, None))
  }

  /** With a dict task and a list of candidates, the reply never fails when
      the first candidate (if any) is a text: the question written for the
      user wins, else the one for that slot. */
  lemma FollowupPrefersAsked(tr: map<string, Json>, slots: seq<Json>)
    requires NeedsFollowup(tr) && TaskOf(tr).JObj?
    requires Get(JObj(tr), "enrichment_candidates") == JArr(slots)
    requires slots != [] && slots[0].JStr?
    ensures BuildTaskResponse(tr).Success?
    ensures var q := AskedQuestion(tr, TaskOf(tr));
      BuildTaskResponse(tr).value.response
        == if PyTruthy(q) then q else JStr(SlotQuestion(slots[0]).value)
    ensures !PyTruthy(AskedQuestion(tr, TaskOf(tr))) && slots[0] == JStr("meeting_link") ==>
      BuildTaskResponse(tr).value.response == JStr(LinkFallback)
  {
    assert PyTruthy(JArr(slots));
  }

  /** A follow-up whose task is not a dict always fails: reading its
      candidates or its type raises. */
  lemma NonDictTaskFails(tr: map<string, Json>)
    requires NeedsFollowup(tr) && !TaskOf(tr).JObj?
    ensures BuildTaskResponse(tr).Failure?
  {
  }

  // ---------------------------------------------------------------------------
  // Cancellation and the early part of procesar_chat_web
  // ---------------------------------------------------------------------------

  const CancelPatterns: seq<string> := ["cancelar", "olvida", "ya no", "mejor no", "detener", "cancela"]

  /** The message asks to cancel: a pattern occurs in it, ignoring case. */
  predicate AsksToCancel(msg: string) {
    ContainsAny(LowerStr(msg), CancelPatterns)
  }

  const CancelledReply: string := "❌ Creación de evento cancelada."

  /** What `procesar_chat_web` does before any model is asked: a cancellation
      resets the state, a task query answers from the stored tasks, and
      anything else goes on. */
  datatype Early =
    | Cancelled(state: ConversationState, reply: string)
    | Queried(answer: TaskQuery.Answer)
    | GoesOn

  /** `state.intent = None; state.awaiting_slot = None; state.slots = {}` */
  function Cleared(state: ConversationState): (s: ConversationState)
    ensures s.intent.None? && s.awaitingSlot.None? && s.slots == map[]
    ensures s.originalQuery == state.originalQuery && s.updatedAt == state.updatedAt
  {
    state.(intent := None, awaitingSlot := None, slots := map[])
  }

  function EarlyRoute(msg: string, state: ConversationState, g: UserTasks.Grouped, c: TaskQuery.Clock): (e: Early)
    ensures AsksToCancel(msg) <==> e.Cancelled?
    ensures e.Cancelled? ==> e.state == Cleared(state) && e.reply == CancelledReply
    ensures e.Queried? <==> !AsksToCancel(msg) && TaskQuery.TaskQuery(msg, g, c).Some?
    ensures e.Queried? ==> e.answer == TaskQuery.TaskQuery(msg, g, c).value
  {
    if AsksToCancel(msg) then Cancelled(Cleared(state), CancelledReply)
    else match TaskQuery.TaskQuery(msg, g, c)
      case Some(a) => Queried(a)
      case None => GoesOn
  }

  /** Cancelling wins over a query in the same message: "ya no" in a
      question about this week's agenda still cancels. */
  lemma CancelBeatsQuery(msg: string, state: ConversationState, g: UserTasks.Grouped, c: TaskQuery.Clock, i: nat)
    requires i + 5 <= |LowerStr(msg)| && LowerStr(msg)[i..i + 5] == "ya no"
    ensures EarlyRoute(msg, state, g, c).Cancelled?
    ensures EarlyRoute(msg, state, g, c).state.slots == map[]
  {
    ContainsAt(LowerStr(msg), "ya no", i);
    assert CancelPatterns[2] == "ya no";
  }
}
