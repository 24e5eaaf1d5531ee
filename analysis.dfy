/** The task analysis: meeting type and location from keywords, and the
    fields a calendar task still lacks. The datetime normaliser is a
    language-model call; its `fecha` and `hora` are given. */
module TaskAnalysis {
  import opened Wrappers
  import opened Json
  import opened Text

  const VirtualKeywords: seq<string> := [
    "video llamada", "videollamada", "llamada", "zoom", "teams",
    "google meet", "meet", "virtual", "online", "remoto",
    "conferencia", "conferencia virtual", "skype", "webex"]

  const PresencialKeywords: seq<string> := [
    "presencial", "en persona", "en oficina", "físico",
    "cara a cara", "en el sitio", "en la empresa",
    "sala de juntas", "oficina", "local"]

  const PendingLocation: string := "Lugar por confirmar"

  /** The analysis dictionary. `fecha` and `hora` are whatever the
      normaliser returned. */
  datatype Analysis = Analysis(
    fecha: Json,
    hora: Json,
    missingFields: seq<string>,
    meetingType: Option<string>,
    location: Option<string>)

  /** The meeting type of a lower-cased text: any virtual keyword wins,
      then any presencial keyword, else none. */
  function MeetingTypeOf(lower: string): (r: Option<string>)
    ensures r == Some("virtual") <==> ContainsAny(lower, VirtualKeywords)
    ensures r == Some("presencial") <==> !ContainsAny(lower, VirtualKeywords) && ContainsAny(lower, PresencialKeywords)
    ensures r.None? <==> !ContainsAny(lower, VirtualKeywords) && !ContainsAny(lower, PresencialKeywords)
  {
    if ContainsAny(lower, VirtualKeywords) then Some("virtual")
    else if ContainsAny(lower, PresencialKeywords) then Some("presencial")
    else None
  }

  /** The missing fields of a task: only a calendar task lacks anything; a
      date or time that is missing (falsy) gives "datetime", a virtual
      meeting without a link in the text gives "meeting_link", in that
      order. */
  function MissingFields(taskType: string, fecha: Json, hora: Json, meetingType: Option<string>, lower: string)
    : (r: seq<string>)
    ensures taskType != "calendar" ==> r == []
    ensures "datetime" in r <==> taskType == "calendar" && (!PyTruthy(fecha) || !PyTruthy(hora))
    ensures "meeting_link" in r <==> taskType == "calendar" && meetingType == Some("virtual") && !Contains(lower, "http")
    ensures r == [] || r == ["datetime"] || r == ["meeting_link"] || r == ["datetime", "meeting_link"]
  {
    if taskType != "calendar" then []
    else
      (if !PyTruthy(fecha) || !PyTruthy(hora) then ["datetime"] else [])
      + (if meetingType == Some("virtual") && !Contains(lower, "http") then ["meeting_link"] else [])
  }

  /** What `analyze_task` returns for a text, a task type and the
      normaliser's date and time. */
  function AnalysisOf(text: string, taskType: string, fecha: Json, hora: Json): (a: Analysis)
    ensures a.fecha == fecha && a.hora == hora
    ensures a.meetingType == MeetingTypeOf(LowerStr(text))
    ensures a.location.Some? <==> a.meetingType == Some("presencial")
    ensures a.location.Some? ==> a.location.value == PendingLocation
    ensures a.missingFields == MissingFields(taskType, fecha, hora, a.meetingType, LowerStr(text))
  {
    var lower := LowerStr(text);
    var mt := MeetingTypeOf(lower);
    Analysis(fecha, hora, MissingFields(taskType, fecha, hora, mt, lower), mt,
      if mt == Some("presencial") then Some(PendingLocation) else None)
  }

  /** The first keyword of the list that occurs in the text, scanning in
      list order and stopping at the first hit. */
  method FindKeyword(lower: string, keys: seq<string>) returns (found: bool)
    ensures found <==> ContainsAny(lower, keys)
  {
    var i := 0;
    while i < |keys|
      invariant 0 <= i <= |keys|
      invariant forall j :: 0 <= j < i ==> !Contains(lower, keys[j])
    {
      if Contains(lower, keys[i]) {
        return true;
      }
      i := i + 1;
    }
    return false;
  }

  /** `analyze_task`: the dictionary is filled field by field as the
      source does: the copied date and time, the virtual scan, the
      presencial scan when no virtual keyword matched, and the missing
      fields of a calendar task. */
  method AnalyzeTask(text: string, taskType: string, fecha: Json, hora: Json) returns (a: Analysis)
    ensures a == AnalysisOf(text, taskType, fecha, hora)
  {
    a := Analysis(JNull, JNull, [], None, None);
    a := a.(fecha := fecha, hora := hora);
    var lower := LowerStr(text);
    var isVirtual := FindKeyword(lower, VirtualKeywords);
    if isVirtual {
      a := a.(meetingType := Some("virtual"));
    }
    if a.meetingType.None? {
      var isPresencial := FindKeyword(lower, PresencialKeywords);
      if isPresencial {
        a := a.(meetingType := Some("presencial"), location := Some(PendingLocation));
      }
    }
    if taskType == "calendar" {
      if !PyTruthy(a.fecha) || !PyTruthy(a.hora) {
        a := a.(missingFields := a.missingFields + ["datetime"]);
      }
      if a.meetingType == Some("virtual") && !Contains(lower, "http") {
        a := a.(missingFields := a.missingFields + ["meeting_link"]);
      }
    }
  }

  /** "videollamada" alone makes a calendar task virtual and asks for a
      link. */
  lemma VideoCallAsksForLink(text: string, fecha: Json, hora: Json)
    requires Contains(LowerStr(text), "videollamada") && !Contains(LowerStr(text), "http")
    requires PyTruthy(fecha) && PyTruthy(hora)
    ensures AnalysisOf(text, "calendar", fecha, hora).missingFields == ["meeting_link"]
  {
    assert VirtualKeywords[1] == "videollamada";
  }

  /** A text that names both kinds of meeting is virtual and gets no
      location. */
  lemma VirtualWinsOverPresencial(text: string, taskType: string, fecha: Json, hora: Json, v: string, p: string)
    requires v in VirtualKeywords && Contains(LowerStr(text), v)
    requires p in PresencialKeywords && Contains(LowerStr(text), p)
    ensures AnalysisOf(text, taskType, fecha, hora).meetingType == Some("virtual")
    ensures AnalysisOf(text, taskType, fecha, hora).location.None?
  {
  }
}
