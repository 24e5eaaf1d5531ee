/** The invitation file of a stored task. */
module TaskCalendar {
  import opened Wrappers
  import opened UserTasks
  import opened CalendarIcs

  datatype IcsFile = IcsFile(icsContent: string, filename: string)

  /** A date or time field that is set and not empty. */
  predicate Filled(v: Option<string>) {
    v.Some? && v.value != ""
  }

  /** `task.description or task.content`. */
  function DescriptionOf(task: Task): (d: string)
    ensures Filled(task.description) ==> d == task.description.value
    ensures !Filled(task.description) ==> d == task.content
  {
    if Filled(task.description) then task.description.value else task.content
  }

  /** `generate_ics_for_task`: nothing for a task without a date or a time;
      otherwise the invitation for its content, on its date and time, one
      hour long, with the file name `evento_<fecha>_<hora>.ics`. Despite its
      documentation it does raise: an empty content or a date or time
      `strptime` refuses propagate the invitation's error. */
  function GenerateIcsForTask(task: Task, uuid: string, dtstamp: string): (r: Result<Option<IcsFile>, string>)
    ensures !Filled(task.fecha) || !Filled(task.hora) ==> r == Success(None)
    ensures Filled(task.fecha) && Filled(task.hora) ==>
      var inv := CreateInvitation(task.content, DescriptionOf(task), "", task.fecha.value, task.hora.value,
                                  60, DefaultTimezone, uuid, dtstamp);
      (r.Success? <==> inv.Success?)
      && (r.Failure? ==> r.error == inv.error)
      && (r.Success? ==> r.value == Some(IcsFile(inv.value,
            "evento_" + task.fecha.value + "_" + task.hora.value + ".ics")))
    ensures Filled(task.fecha) && Filled(task.hora) && task.content == "" ==> r.Failure?
  {
    if !Filled(task.fecha) || !Filled(task.hora) then Success(None)
    else
      match CreateInvitation(task.content, DescriptionOf(task), "", task.fecha.value, task.hora.value,
                             60, DefaultTimezone, uuid, dtstamp)
      case Failure(e) => Failure(e)
      case Success(ics) =>
        Success(Some(IcsFile(ics, "evento_" + task.fecha.value + "_" + task.hora.value + ".ics")))
  }

  /** The documentation's "never raises" does not hold: a task with a date
      and a time but no content raises. */
  lemma NotFailSafe(task: Task, uuid: string, dtstamp: string)
    requires Filled(task.fecha) && Filled(task.hora) && task.content == ""
    ensures GenerateIcsForTask(task, uuid, dtstamp).Failure?
  {
  }
}
