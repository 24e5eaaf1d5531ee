/** The follow-up policy: given a task analysis, the first missing field
    that has a question for the task's kind, with that question. */
module FollowupPolicy {
  import opened Wrappers
  import opened Json

  /** The fixed question table, keyed by task kind and field. */
  function Question(kind: string, field: string): (q: Option<string>)
    ensures q.Some? <==> kind == "meeting" && (field == "meeting_link" || field == "datetime")
    ensures q.Some? ==> q.value != ""
  {
    if kind == "meeting" && field == "meeting_link" then Some("Perfecto, ¿ya cuentas con la liga del meeting?")
    else if kind == "meeting" && field == "datetime" then Some("¿En qué fecha y hora será el evento?")
    else None
  }

  datatype Followup = Followup(pendingField: string, question: string)

  /** A field of the list that asks something: a text with a question. */
  predicate Asks(kind: string, v: Json) {
    v.JStr? && Question(kind, v.s).Some?
  }

  /** The scan of `missing_fields`: entries that are not texts are skipped,
      and the first field with a question wins. */
  function FirstQuestion(kind: string, fields: seq<Json>): (r: Option<Followup>)
    ensures r.None? <==> forall i :: 0 <= i < |fields| ==> !Asks(kind, fields[i])
    ensures r.Some? ==>
      (exists i :: 0 <= i < |fields| && AsksFirst(kind, fields, i) && r.value.pendingField == fields[i].s)
    ensures r.Some? ==> Question(kind, r.value.pendingField) == Some(r.value.question)
  {
    if fields == [] then None
    else if Asks(kind, fields[0]) then
      Some(Followup(fields[0].s, Question(kind, fields[0].s).value))
    else
      var r := FirstQuestion(kind, fields[1..]);
      ShiftFirst(kind, fields);
      r
  }

  /** Entry i asks something and none before it does. */
  predicate AsksFirst(kind: string, fields: seq<Json>, i: int)
    requires 0 <= i < |fields|
  {
    Asks(kind, fields[i]) && forall j :: 0 <= j < i ==> !Asks(kind, fields[j])
  }

  lemma ShiftFirst(kind: string, fields: seq<Json>)
    requires fields != [] && !Asks(kind, fields[0])
    ensures (forall i :: 0 <= i < |fields[1..]| ==> !Asks(kind, fields[1..][i]))
      <==> (forall i :: 0 <= i < |fields| ==> !Asks(kind, fields[i]))
    ensures forall i :: 0 <= i < |fields[1..]| && AsksFirst(kind, fields[1..], i) ==> AsksFirst(kind, fields, i + 1)
  {
    assert forall i :: 1 <= i < |fields| ==> fields[1..][i - 1] == fields[i];
  }

  /** `decide_followup`: no follow-up when the kind is not a text, when the
      missing fields are not a list, or when no field has a question. */
  function DecideFollowup(analysis: map<string, Json>): (r: Option<Followup>)
    ensures !Get(JObj(analysis), "task_kind").JStr? ==> r.None?
    ensures !PyOr(Get(JObj(analysis), "missing_fields"), JArr([])).JArr? ==> r.None?
    ensures r.Some? ==> Get(JObj(analysis), "task_kind") == JStr("meeting")
    ensures r.Some? ==> r.value.pendingField == "meeting_link" || r.value.pendingField == "datetime"
    ensures (Get(JObj(analysis), "task_kind").JStr? && PyOr(Get(JObj(analysis), "missing_fields"), JArr([])).JArr?)
      ==> r == FirstQuestion(Get(JObj(analysis), "task_kind").s, PyOr(Get(JObj(analysis), "missing_fields"), JArr([])).items)
  {
    var kind := Get(JObj(analysis), "task_kind");
    if !kind.JStr? then None
    else
      var missing := PyOr(Get(JObj(analysis), "missing_fields"), JArr([]));
      if !missing.JArr? then None
      else FirstQuestion(kind.s, missing.items)
  }

  /** Only the kind "meeting" ever asks anything. */
  lemma OnlyMeetingsAsk(kind: string, fields: seq<Json>)
    requires kind != "meeting"
    ensures FirstQuestion(kind, fields).None?
  {
  }

  /** A list whose first entry is a field with a question asks about that
      field, whatever follows. */
  lemma FirstFieldWins(kind: string, field: string, rest: seq<Json>)
    requires Question(kind, field).Some?
    ensures FirstQuestion(kind, [JStr(field)] + rest) == Some(Followup(field, Question(kind, field).value))
  {
  }

  /** Entries without a question, texts or not, are passed over. */
  lemma SkipsSilent(kind: string, v: Json, rest: seq<Json>)
    requires !Asks(kind, v)
    ensures FirstQuestion(kind, [v] + rest) == FirstQuestion(kind, rest)
  {
    assert ([v] + rest)[1..] == rest;
  }
}
