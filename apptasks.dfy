/** The web client's own task lists and chat history (`appState` of the main
    script): the task-message test, the three task buckets and their
    precedence, deletion by index with `Array.prototype.splice`, clearing, the
    raw-text history and the snapshot written to local storage, which keeps the
    last 50 history entries. The rendered HTML and the DOM updates are not
    part of this model; local storage is the field `stored`. */
module AppTasks {
  import opened Wrappers
  import opened Text
  import Inline
  import Seqs

  /** A task as the client files it. */
  datatype LegacyTask = LegacyTask(content: string, response: string, createdAt: string, completed: bool)

  /** The three lists of `appState.tasks`. */
  datatype Bucket = Reminders | Notes | CalendarEvents

  /** One entry of `conversationHistory`: the sender, the text as typed or
      received (never the HTML) and when it was added. */
  datatype HistoryEntry = HistoryEntry(kind: string, content: string, timestamp: string)

  /** The JSON object written under `claroAssistant_state`. */
  datatype Snapshot = Snapshot(
    history: seq<HistoryEntry>,
    reminders: seq<LegacyTask>, notes: seq<LegacyTask>, calendar: seq<LegacyTask>,
    mode: string, sessionId: Option<string>)

  /** How many history entries the snapshot keeps. */
  const HistoryKept: nat := 50

  /** An assistant reply that looks like a task: one of three emoji, or one of
      three words in any case. */
  predicate IsTaskMessage(m: string) {
    Contains(m, Inline.CheckMark) || Contains(m, Inline.Memo) || Contains(m, Inline.Calendar)
    || Contains(LowerStr(m), "recordatorio") || Contains(LowerStr(m), "nota")
    || Contains(LowerStr(m), "evento")
  }

  predicate ReminderCue(user: string, bot: string) {
    Contains(bot, Inline.CheckMark) || Contains(LowerStr(user), "recordatorio")
  }

  predicate NoteCue(user: string, bot: string) {
    Contains(bot, Inline.Memo) || Contains(LowerStr(user), "nota")
  }

  predicate EventCue(user: string, bot: string) {
    Contains(bot, Inline.Calendar) || Contains(LowerStr(user), "evento")
  }

  /** The list a task goes to: reminders before notes before events, and no
      list when neither the reply nor the request carries a cue. */
  function BucketFor(user: string, bot: string): (r: Option<Bucket>)
    ensures r == Some(Reminders) <==> ReminderCue(user, bot)
    ensures r == Some(Notes) <==> !ReminderCue(user, bot) && NoteCue(user, bot)
    ensures r == Some(CalendarEvents) <==> !ReminderCue(user, bot) && !NoteCue(user, bot) && EventCue(user, bot)
    ensures r == None <==> !ReminderCue(user, bot) && !NoteCue(user, bot) && !EventCue(user, bot)
  {
    if ReminderCue(user, bot) then Some(Reminders)
    else if NoteCue(user, bot) then Some(Notes)
    else if EventCue(user, bot) then Some(CalendarEvents)
    else None
  }

  /** A filed task always comes from an exchange in which the reply or the
      request passes the task-message test. */
  lemma FiledIsTaskMessage(user: string, bot: string)
    requires BucketFor(user, bot).Some?
    ensures IsTaskMessage(bot) || IsTaskMessage(user)
  {
  }

  /** Where `splice(index, 1)` starts: a negative index counts from the end
      (and stops at 0), a large one stops at the length. */
  function SpliceStart(len: nat, index: int): (k: nat)
    ensures k <= len
    ensures 0 <= index <= len ==> k == index
    ensures -(len as int) <= index < 0 ==> k == len + index
  {
    if index < 0 then (if len + index < 0 then 0 else len + index)
    else if index > len then len else index
  }

  /** `s.splice(index, 1)`: the element at the start position is removed, if
      there is one, and every other element keeps its order. */
  function SpliceOne<T>(s: seq<T>, index: int): (r: seq<T>)
    ensures var k := SpliceStart(|s|, index);
      if k < |s| then |r| == |s| - 1 && r[..k] == s[..k] && r[k..] == s[k + 1..]
      else r == s
  {
    var k := SpliceStart(|s|, index);
    if k < |s| then s[..k] + s[k + 1..] else s
  }

  /** Deleting a shown task (its index is in range) removes exactly that task. */
  lemma SpliceInRange<T>(s: seq<T>, index: int)
    requires 0 <= index < |s|
    ensures multiset(SpliceOne(s, index)) + multiset{s[index]} == multiset(s)
    ensures forall j :: 0 <= j < |s| - 1 ==>
      SpliceOne(s, index)[j] == (if j < index then s[j] else s[j + 1])
  {
    Seqs.RemoveAt(s, index);
    var a, b := s[..index], s[index + 1..];
    assert multiset(s) == multiset(a) + multiset{s[index]} + multiset(b);
  }

  /** An index past the end deletes nothing. */
  lemma SplicePastEnd<T>(s: seq<T>, index: int)
    requires index >= |s|
    ensures SpliceOne(s, index) == s
  {
  }

  class AppState {
    var mode: string
    var history: seq<HistoryEntry>
    var reminders: seq<LegacyTask>
    var notes: seq<LegacyTask>
    var calendar: seq<LegacyTask>
    /** What local storage holds under `claroAssistant_state`. */
    var stored: Option<Snapshot>

    /** The initial state: search mode, nothing said, no tasks. */
    constructor ()
      ensures mode == "busqueda" && history == [] && stored == None
      ensures reminders == [] && notes == [] && calendar == []
    {
      mode := "busqueda";
      history := [];
      reminders := [];
      notes := [];
      calendar := [];
      stored := None;
    }

    function Image(sessionId: Option<string>): (s: Snapshot)
      reads this
      ensures |s.history| <= HistoryKept && |s.history| <= |history|
      ensures s.history == history[|history| - |s.history|..]
      ensures |history| <= HistoryKept ==> s.history == history
    {
      Snapshot(Last(history, HistoryKept), reminders, notes, calendar, mode, sessionId)
    }

    function List(b: Bucket): seq<LegacyTask>
      reads this
    {
      match b
      case Reminders => reminders
      case Notes => notes
      case CalendarEvents => calendar
    }

    /** Records a message as typed or received; the history keeps the raw
        text, never the rendered HTML. */
    method AddMessage(kind: string, content: string, timestamp: string)
      modifies this
      ensures history == old(history) + [HistoryEntry(kind, content, timestamp)]
      ensures mode == old(mode) && stored == old(stored)
      ensures reminders == old(reminders) && notes == old(notes) && calendar == old(calendar)
    {
      history := history + [HistoryEntry(kind, content, timestamp)];
    }

    /** Writes the snapshot: the last 50 history entries, the three lists,
        the mode and the session id kept in session storage. */
    method SaveToLocalStorage(sessionId: Option<string>)
      modifies this
      ensures stored == Some(old(Image(sessionId)))
      ensures mode == old(mode) && history == old(history)
      ensures reminders == old(reminders) && notes == old(notes) && calendar == old(calendar)
    {
      stored := Some(Image(sessionId));
    }

    /** Files the exchange as a task in the list its cues select (if any)
        and saves. */
    method ProcessTask(user: string, bot: string, timestamp: string, sessionId: Option<string>)
      modifies this
      ensures var t := LegacyTask(user, bot, timestamp, false);
        && reminders == old(reminders) + (if BucketFor(user, bot) == Some(Reminders) then [t] else [])
        && notes == old(notes) + (if BucketFor(user, bot) == Some(Notes) then [t] else [])
        && calendar == old(calendar) + (if BucketFor(user, bot) == Some(CalendarEvents) then [t] else [])
      ensures mode == old(mode) && history == old(history)
      ensures stored == Some(Image(sessionId))
    {
      var t := LegacyTask(user, bot, timestamp, false);
      var b := BucketFor(user, bot);
      if b == Some(Reminders) {
        reminders := reminders + [t];
      } else if b == Some(Notes) {
        notes := notes + [t];
      } else if b == Some(CalendarEvents) {
        calendar := calendar + [t];
      }
      SaveToLocalStorage(sessionId);
    }

    /** Removes the task at the index from one list (with splice's handling
        of negative and large indexes) and saves. */
    method DeleteTask(b: Bucket, index: int, sessionId: Option<string>)
      modifies this
      ensures List(b) == SpliceOne(old(List(b)), index)
      ensures forall o :: o != b ==> List(o) == old(List(o))
      ensures mode == old(mode) && history == old(history)
      ensures stored == Some(Image(sessionId))
    {
      match b {
        case Reminders => reminders := SpliceOne(reminders, index);
        case Notes => notes := SpliceOne(notes, index);
        case CalendarEvents => calendar := SpliceOne(calendar, index);
      }
      SaveToLocalStorage(sessionId);
    }

    /** Empties the three lists and saves. */
    method ClearAllTasks(sessionId: Option<string>)
      modifies this
      ensures reminders == [] && notes == [] && calendar == []
      ensures mode == old(mode) && history == old(history)
      ensures stored == Some(Image(sessionId))
    {
      reminders := [];
      notes := [];
      calendar := [];
      SaveToLocalStorage(sessionId);
    }
  }
}
