# Claria assistant: a verified model of its deterministic core

Claria is a chat assistant for Telcel, Claro, Aprende.org and Clikisalud
users. A browser client renders the assistant's markdown answers, keeps
tasks and conversations in browser storage and turns messages into
calendar events. A Python backend routes messages by intent, country,
operator and topic. It fills the slots of calendar, reminder and note
tasks across turns, builds prompts and message lists for the language
model, and post-processes what the model and the vector stores return.

This project models the deterministic part of both sides in Dafny and proves
what it promises. Each language-model, vector-store, scraper, clock and
network result is a plain parameter.

- **Message renderer** (`formatMessage`): `Render`, `Inline` and `Format`.
  Comment stripping, per-line block classification with HTML escaping, then
  the bold, italic, code, link, bare-URL and emoji passes. Each pass is a
  left-to-right, non-overlapping scanner with the semantics of a JavaScript
  global replace. This revision of the renderer has three heading levels and
  no pipe-table stage, so neither is modelled.
- **Client stores**:
  - `TaskStore`: a class over a sequence, with upsert by id or signature.
  - `TaskManager`: task payload normalisation and previews.
  - `AppTasks`: the legacy task buckets and message history of the chat page.
  - `ChatStorage` and `ChatState`: the capped, prepend-only conversation
    list and the current chat.
  - `Calendar`: the event heuristics; dates are day numbers.
- **Task slot filling**:
  - `TaskOrchestrator`, `TaskContinuation`, `FollowupPolicy` and
    `TaskAnalysis`: the slot-filling flow;
  - `UserTasks`: the per-user task store;
  - `ConvStore`: the conversation-state cache with its five-minute expiry;
  - `AgentReply`, `CalendarAgent`, `ReminderAgent`, `NoteAgent` and
    `BaseAgent`: the agents;
  - `ContentSynthesizer`: task-title synthesis.
- **Calendar files**: `CalendarIcs` and `TaskCalendar`. Text escaping
  follows section 3.3.11 of RFC 5545.
- **Replies and routing**:
  - `TaskQuery` and `TaskReplies`: task tables, date ranges and confirmations;
  - `Memory`: the topic memory;
  - `ChannelMessages` and `ChatOrchestrator`: message lists and per-channel
    truncation;
  - `ContextService`, `LegacyServices` and `FlaskApp`: the country,
    operator and topic routers;
  - `IntentClassification`: intent heuristics and JSON clean-up;
  - `Prompts`: prompt assembly;
  - `WebSearch`: citation clean-up;
  - `AprendeSearch`, `AprendeResources` and `AprendeSemantic`: the Aprende
    course search;
  - `ClaroCountry` and `ClaroCollections`: the Claro country detector.
- **Exploratory helpers**: `Chunking` (word chunks) and `Scraping`
  (whitespace clean-up).

The helper modules are:

- `Wrappers`: Option and Result.
- `Seqs` and `Lists`: sequence lemmas and list combinators.
- `Text`: character classes, case mapping, strip, split and join.
- `Json`: JSON values and truthiness.
- `Rx` and `PyRe`: hand-written regular-expression scanners with
  backtracking-priority semantics.
- `Subseqs`: subsequence facts.

The members that stand for the program model its code as written, bugs
included. Each bug is listed under "## Findings" with a member showing the
behaviour as written and a corrected member that states the evident intent.

## Model

| member | source | states |
|---|---|---|
| AppTasks.BucketFor | frontend/js/app.js:456-462 | a ✅ reply or a request saying "recordatorio" goes to reminders; else a 📝 reply or "nota" to notes; else a 📅 reply or "evento" to calendar; else to no list (each case as an if-and-only-if) |
| AppTasks.FiledIsTaskMessage | frontend/js/app.js:430-462 | an exchange that is filed in some list passes the task-message test on the reply or on the request |
| AppTasks.SpliceStart | frontend/js/app.js:498 | where `splice(index, 1)` starts: the index itself when in range, length plus index for a negative one, never past the end |
| AppTasks.SpliceOne | frontend/js/app.js:498 | `splice(index, 1)` removes the element at its start position when there is one and keeps every other element in order; otherwise the list is unchanged |
| AppTasks.SpliceInRange | frontend/js/app.js:496-501 | deleting at a shown index removes exactly that task: the remaining tasks plus it are the old multiset, and elements before stay, elements after shift by one |
| AppTasks.SplicePastEnd | frontend/js/app.js:498 | an index past the end deletes nothing |
| AppTasks.AppState.constructor | frontend/js/app.js:8-16 | the initial state: mode "busqueda", no history, no tasks, nothing stored |
| AppTasks.AppState.Image | frontend/js/app.js:529-536 | the snapshot keeps the last 50 history entries (all of them when there are at most 50) |
| AppTasks.AppState.AddMessage | frontend/js/app.js:308-329 | appends exactly one entry with the sender and the raw content (not the rendered HTML) and changes nothing else |
| AppTasks.AppState.SaveToLocalStorage | frontend/js/app.js:529-541 | the stored snapshot becomes the state's image; nothing else changes |
| AppTasks.AppState.ProcessTask | frontend/js/app.js:439-466 | the exchange is appended to exactly the list BucketFor selects (to none without a cue), the other lists and the history are unchanged, and the new state is saved |
| AppTasks.AppState.DeleteTask | frontend/js/app.js:496-501 | the chosen list becomes its splice at the index, the other two lists are unchanged, and the state is saved |
| AppTasks.AppState.ClearAllTasks | frontend/js/app.js:504-514 | the three lists become empty, mode and history are unchanged, and the state is saved |
| TaskStore.Signature | frontend/js/modules/state.js:50-58 | the lower-cased `type\|content\|fecha\|hora\|meeting_type\|location` with missing fields as "": never empty, since it holds the five separators |
| TaskStore.Tagged | frontend/js/modules/state.js:42-46 | `{...old, ...task, _sig}`: the task's fields win over the old entry's, the old entry's other fields stay, and `_sig` is the task's signature |
| TaskStore.UpsertMatch | frontend/js/modules/state.js:35-43 | when entry i is the first that matches (same id; or no id and equal signature; or stored `_sig` equal), exactly that entry is overwritten in place and nothing else changes |
| TaskStore.UpsertAppend | frontend/js/modules/state.js:46-47 | with no matching entry, exactly one tagged copy is appended at the end |
| TaskStore.Upsert | frontend/js/modules/state.js:32-48 | the store grows by at most one entry, an entry the task does not match is left as it was, and afterwards some entry carries the task's signature as `_sig` |
| TaskStore.UpsertTwice | frontend/js/modules/state.js:32-48 | adding the same task twice is the same as adding it once |
| TaskStore.TaggedTwice | frontend/js/modules/state.js:42 | tagging an entry twice with the same task is tagging it once |
| TaskStore.Remove | frontend/js/modules/state.js:60-64 | an empty id keeps the store; otherwise no remaining entry has that id and every entry without it is kept |
| TaskStore.RemoveAbsent | frontend/js/modules/state.js:62 | removing an id no entry carries leaves the store as it was |
| TaskStore.RemoveConcat | frontend/js/modules/state.js:62 | removal is a filter: removing from a concatenation removes from each part, so the kept entries keep their order |
| TaskStore.Store.constructor | frontend/js/modules/state.js:25 | the store starts empty |
| TaskStore.Store.SetTaskStore | frontend/js/modules/state.js:27-30 | an array replaces the store, anything else empties it; the new store is returned |
| TaskStore.Store.AddTask | frontend/js/modules/state.js:32-48 | a missing task leaves the store unchanged; otherwise the store becomes the upsert of the task |
| TaskStore.Store.RemoveTask | frontend/js/modules/state.js:60-64 | the store becomes its filter by id; an empty id leaves it unchanged |
| TaskManager.TaskObj | frontend/js/modules/taskManager.js:8-17 | the task entity is `data.task` when it has a type, else `data.task.task`, else null; it is null or truthy |
| TaskManager.NormalizeTaskPayload | frontend/js/modules/taskManager.js:6-45 | action, response and raw are copied; the task is TaskObj; a root `ics` beats the nested one; `task_type` beats the entity's `type`, which beats its `task_type`; a root `tasks` beats the nested one |
| TaskManager.IcsOf | frontend/js/modules/taskManager.js:81-100 | the calendar text of the payload's `ics` (a string, or its `ics_content`/`icsContent`) wins; the entity's own `ics` is read only when the payload gave no text |
| TaskManager.InferType | frontend/js/modules/taskManager.js:134-148 | on the lower-cased content: recuerdame/recuérdame gives reminder; else agenda/reunión/reunion/evento/cita gives calendar; else note (each an if-and-only-if) |
| TaskManager.ResolveType | frontend/js/modules/taskManager.js:132-148 | the resolved type is never empty, and a non-empty normalised type is used as given |
| TaskManager.InferredWhenUntyped | frontend/js/modules/taskManager.js:132-148 | a payload that names no type anywhere is filed under the keyword type of its content |
| TaskManager.CleanWith | frontend/js/modules/taskManager.js:274-279 | the four leading-keyword removals and the trim never lengthen the text |
| TaskManager.Clean | frontend/js/modules/taskManager.js:274-279 | the cleaning as written, with `agenda` tried before `agendar`, never lengthens the text |
| TaskManager.CleanAgendarAsWritten | frontend/js/modules/taskManager.js:274-279 | as written, "agendar x" is cleaned to "r x" |
| TaskManager.AgendarAsWritten | frontend/js/modules/taskManager.js:277 | with the alternation as written, "agendar x" loses only "agenda" and leaves "r x" |
| TaskManager.AgendarStripped | frontend/js/modules/taskManager.js:277 | with `agendar` listed first, "agendar x" becomes "x" |
| TaskManager.CalendarClean | frontend/js/modules/taskManager.js:284-289 | removing the first day word, the joining words and the time expressions, squeezing blank runs and trimming never lengthens the text |
| TaskManager.Shorten | frontend/js/modules/taskManager.js:291-302 | a text longer than the limit becomes its first limit−3 characters plus "...", a short non-empty text stays, an empty one becomes the fallback; never empty and never over the limit |
| TaskManager.ExtractPreview | frontend/js/modules/taskManager.js:271-303 | a calendar or reminder preview is its further-cleaned text when 1-40 characters, its first 37 characters plus "..." when longer, "Evento sin titulo" when empty; any other preview is its cleaned text when 1-50 characters, the first 47 plus "..." when longer, "Nota sin contenido" when empty; never empty, at most 40 or 50 characters |
| TaskManager.NoteAgendarPreview | frontend/js/modules/taskManager.js:274-302 | as written, a short note "agendar x" previews as "r x" |
| TaskManager.Build | frontend/js/modules/taskManager.js:160-216 | the record's type is the resolved type and its content the entity's content or the message; type and status are never empty; an id is always present when a local id is; no calendar text means no `raw.ics` |
| TaskManager.ProcessTask | frontend/js/modules/taskManager.js:50-243 | returns nothing and leaves the store unchanged exactly when no task entity resolves; otherwise returns the built record with its preview and upserts it into the store |
| TaskManager.Shown | frontend/js/modules/taskManager.js:374 | a sidebar list shows the first three tasks (all of them when there are at most three) |
| TaskManager.MoreLabel | frontend/js/modules/taskManager.js:463-465 | the "+N más" line appears exactly when there are more than three tasks, with N = count − 3 |
| TaskManager.ShownAndMore | frontend/js/modules/taskManager.js:374-465 | the tasks shown plus N account for the whole list |
| TaskManager.DisplayText | frontend/js/modules/taskManager.js:377-395 | the entry shows its preview trimmed (recomputed from the content for calendar and reminder tasks, and when none is stored); when that is empty or the placeholder, the raw title, else the content, else "Evento sin titulo"; never empty |
| TaskManager.TimedIgnoresStoredPreview | frontend/js/modules/taskManager.js:383-390 | a calendar or reminder entry shows the same text whatever preview is stored |
| TaskManager.NoteShowsStoredPreview | frontend/js/modules/taskManager.js:383-390 | a note with a stored preview that is neither blank nor the placeholder shows it trimmed |
| TaskManager.Retyped | frontend/js/modules/taskManager.js:935-937 | the type is forced to the list's type, the preview is recomputed from the content, and every other field is kept |
| TaskManager.RetypeAll | frontend/js/modules/taskManager.js:935-937 | one filed task per backend task, in order, each with the list's type, its own content and the preview computed from it |
| TaskManager.RetypeAllTyped | frontend/js/modules/taskManager.js:935-937 | every retyped task has type calendar, reminder or note |
| TaskManager.AddEach | frontend/js/modules/taskManager.js:935-937 | `forEach(addTask)`: the store becomes the upsert of each task in turn |
| TaskManager.Filed | frontend/js/modules/taskManager.js:931-937 | the filed tasks are calendar tasks, then reminders, then notes (`reminder` before `reminders`, `note` before `notes`), one per backend task, each carrying the preview computed from its content |
| TaskManager.UpsertAllConcat | frontend/js/modules/taskManager.js:935-937 | filing two lists one after the other equals filing their concatenation |
| TaskManager.UpsertAllTyped | frontend/js/modules/taskManager.js:935-937 | upserting typed tasks into a typed store keeps it typed and grows it by at most their number |
| TaskManager.RebuiltTyped | frontend/js/modules/taskManager.js:930-940 | the rebuilt store holds only calendar, reminder and note tasks and no more entries than the backend sent |
| TaskManager.RenderSidebarTasks | frontend/js/modules/taskManager.js:930-940 | the store is emptied and refilled with the filed tasks in calendar, reminder, note order |
| ChatStorage.Loaded | frontend/js/chatStorage.js:5-44 | a key that holds parsed data reads as that data; an absent or unparsable key reads as the empty list |
| ChatStorage.Title | frontend/js/chatStorage.js:56-68 | an explicit non-empty title wins; else the content of the first message whose role or type is user, cut to 50 characters plus "..." when longer; else "Conversación sin título"; an automatic title has at most 53 characters |
| ChatStorage.NewConversation | frontend/js/chatStorage.js:70-76 | the record keeps the id, the messages and the timestamp, its messageCount is the number of messages, and its title is Title |
| ChatStorage.Saved | frontend/js/chatStorage.js:78-81 | the new conversation is at index 0, the older ones follow in order, and the list is capped at 20 by dropping the oldest |
| ChatStorage.ById | frontend/js/chatStorage.js:96-100 | the first conversation with the id, or nothing exactly when no conversation has it |
| ChatStorage.FindFirstOfId | frontend/js/chatStorage.js:99 | the conversation returned is the first one carrying the id |
| ChatStorage.Deleted | frontend/js/chatStorage.js:109-113 | no remaining conversation has the id, and every conversation with another id is kept |
| ChatStorage.DeleteConcat | frontend/js/chatStorage.js:112 | deletion is a filter: it keeps the remaining conversations in order |
| ChatStorage.DeleteTwice | frontend/js/chatStorage.js:109-113 | deleting the same id twice is deleting it once |
| ChatStorage.SaveThenFind | frontend/js/chatStorage.js:78-100 | a conversation just saved is the one found by its id |
| ChatStorage.SaveThenDelete | frontend/js/chatStorage.js:78-113 | deleting a conversation just saved under a fresh id gives back the list as it was (when the cap did not drop one) |
| ChatStorage.Storage.constructor | frontend/js/chatStorage.js:1-2 | the two storage keys hold what the browser had |
| ChatStorage.Storage.LoadChatHistory | frontend/js/chatStorage.js:5-14 | the current history as stored, [] when absent or unparsable |
| ChatStorage.Storage.SaveChatHistory | frontend/js/chatStorage.js:16-25 | the history key holds exactly the messages; the conversations are unchanged |
| ChatStorage.Storage.ClearChatHistory | frontend/js/chatStorage.js:27-29 | the history key is removed; the conversations are unchanged |
| ChatStorage.Storage.LoadConversations | frontend/js/chatStorage.js:35-44 | the stored conversations, [] when absent or unparsable |
| ChatStorage.Storage.SaveConversation | frontend/js/chatStorage.js:52-91 | the stored list becomes Saved(loaded list, new conversation) and the new id is returned; the history is unchanged |
| ChatStorage.Storage.LoadConversationById | frontend/js/chatStorage.js:96-104 | the first stored conversation with the id, or nothing |
| ChatStorage.Storage.DeleteConversation | frontend/js/chatStorage.js:109-118 | the stored list becomes its filter by id; the history is unchanged |
| ChatStorage.Storage.ClearConversations | frontend/js/chatStorage.js:123-130 | the conversations key is removed; the history is unchanged |
| ChatState.Chat.constructor | frontend/js/chatState.js:11 | the messages start as the stored history |
| ChatState.Chat.AddMessage | frontend/js/chatState.js:17-29 | exactly one message with the given role and content is appended at the end, the history key holds the new list, and the conversations are unchanged |
| ChatState.Chat.ResetChat | frontend/js/chatState.js:31-34 | the message list is empty and so is the stored history |
| ChatState.Chat.SaveCurrentConversation | frontend/js/chatState.js:37-39 | exactly the current messages are saved as a new conversation |
| ChatState.Chat.GetAllConversations | frontend/js/chatState.js:41-43 | the stored conversations |
| ChatState.Chat.LoadConversation | frontend/js/chatState.js:45-52 | with a known id the messages become that conversation's messages and are stored; with an unknown id nothing changes |
| ChatState.Chat.RemoveConversation | frontend/js/chatState.js:54-56 | the stored list becomes its filter by id |
| ChatState.Chat.ClearAllConversations | frontend/js/chatState.js:58-60 | the conversations key is removed |
| ChatState.SaveThenLoadRestores | frontend/js/chatState.js:37-52 | a conversation saved under an id is found again by that id with the same messages |
| Calendar.Weekday | frontend/js/calendar.js:270 | `getDay()` of a day number is a weekday index below 7 |
| Calendar.IntentGroup | frontend/js/calendar.js:225-228 | the title group exists exactly when a trigger word, an optional connector and blanks are followed by a title character; it is then the maximal run of title characters there |
| Calendar.SingleBlankNoTitle | frontend/js/calendar.js:225 | after a trigger, a single blank followed by a non-connector cannot start the group: the regex needs the group to start after its `\s+` |
| Calendar.StripTemporal | frontend/js/calendar.js:231 | removing temporal words never lengthens the title |
| Calendar.TemporalOneLine | frontend/js/calendar.js:231 | on a one-line title, removal cuts at the first temporal word at a word boundary, and keeps the title whole when there is none |
| Calendar.TitleOf | frontend/js/calendar.js:214-241 | with a title group, its cleaned text capitalised when longer than 2 characters, else "Evento Agendado"; without one, the first five space-separated pieces with "agendar"/"agenda" removed, or the default when that is empty; never empty |
| Calendar.UpperTwice | frontend/js/calendar.js:235 | capitalising the first character twice is capitalising it once |
| Calendar.RelativeDays | frontend/js/calendar.js:246-258 | "hoy" gives today, else "pasado mañana" two days ahead, else "mañana" tomorrow; no offset exactly when neither "hoy" nor "mañana" occurs |
| Calendar.NamedWeekday | frontend/js/calendar.js:261-268 | a weekday index below 7; none exactly when no weekday name occurs |
| Calendar.NamedWeekdayAt | frontend/js/calendar.js:262-268 | the first weekday name in table order that occurs decides the index |
| Calendar.DaysUntil | frontend/js/calendar.js:273-276 | between 1 and 7 days ahead, landing on the target weekday; the same weekday means a week ahead |
| Calendar.WeekdayAhead | frontend/js/calendar.js:269-279 | the day reached is the target weekday |
| Calendar.DateFrom | frontend/js/calendar.js:288 | day and month have at most two digits and a year at most four; no match exactly when no position starts one |
| Calendar.NoDigitNoDate | frontend/js/calendar.js:288 | a message without digits has no explicit date |
| Calendar.FullYear | frontend/js/calendar.js:295 | a year below 100 is taken as 2000 plus it; others are kept |
| Calendar.ExplicitDate | frontend/js/calendar.js:287-299 | a date exactly when the pattern matches, built from the day, the month minus one and the full year (this year when no year is written) |
| Calendar.NextWeekday | frontend/js/calendar.js:269-279 | a day 1 to 7 days ahead falling on the weekday, a week ahead when it is today's weekday |
| Calendar.DateOf | frontend/js/calendar.js:209-300 | the relative day when there is one, else the next named weekday, else the explicit date, else tomorrow |
| Calendar.TimeAt | frontend/js/calendar.js:304-309 | hour and minutes below 100, and the period is empty or one of the listed suffixes |
| Calendar.Hour24AsWritten | frontend/js/calendar.js:311-317 | the hour as the source converts it, by substring tests on the period |
| Calendar.Hour24 | frontend/js/calendar.js:311-317 | afternoon periods add 12 to hours below 12, morning periods turn 12 into 0, other hours are kept; a 12-hour time gives an hour below 24 |
| Calendar.DottedPmAsWritten | frontend/js/calendar.js:312 | "3 p.m." stays at 3 as written, where 15 is meant |
| Calendar.DottedAmAsWritten | frontend/js/calendar.js:315 | "12 a.m." stays at 12 as written, where 0 is meant |
| Calendar.AsWrittenAgrees | frontend/js/calendar.js:311-317 | for every period other than "a.m." and "p.m." the written conversion and the intended one agree |
| Calendar.ClockText | frontend/js/calendar.js:319 | five characters, two zero-padded digits either side of a colon |
| Calendar.TimeOf | frontend/js/calendar.js:304-320 | no time exactly when the message has no digit; otherwise `HH:MM` from the first digit's match, with the hour converted as written |
| Calendar.TimeOfIntended | frontend/js/calendar.js:304-320 | unless the period is a dotted "a.m." or "p.m.", the time written is the intended 24-hour time |
| Calendar.TimeOfDottedPm | frontend/js/calendar.js:304-320 | as written, "3 p.m." is written down as "03:00" |
| Calendar.WeekdayDate | frontend/js/calendar.js:261-284 | the loop over the weekday table finds a date exactly when a name occurs, and it is the next such weekday |
| Calendar.EventDate | frontend/js/calendar.js:243-300 | the date the steps settle on is DateOf |
| Calendar.ExplicitDateMatch | frontend/js/calendar.js:287-299 | the explicit-date step computes ExplicitDate |
| Calendar.ExtractEventDataFromMessage | frontend/js/calendar.js:198-324 | nothing for a missing or empty message; otherwise the title, date and time above (the hour converted as written), "Sin ubicación" and one hour |
| Calendar.DropFirstColon | frontend/js/calendar.js:327 | a text without a colon is unchanged |
| Calendar.DateWithoutDashes | frontend/js/calendar.js:327 | removing the dashes from `Y-M-D` gives `YMD` |
| Calendar.StampOfIso | frontend/js/calendar.js:327 | the start stamp of `Y-M-D` and `HH:MM` is `YMDTHHMM00` |
| Calendar.StampOfClock | frontend/js/calendar.js:319-327 | the time the extractor writes appears as its two padded fields in the start stamp |
| ConvStore.Fresh | backend/app/states/conversationState.py:5-10 | a new state has no intent, no slots, no awaited slot and no original query, stamped now |
| ConvStore.Loaded | backend/app/states/conversationStore.py:10-23 | the cached state for a non-empty key saved at most 300 seconds ago; a fresh state otherwise |
| ConvStore.SavedIn | backend/app/states/conversationStore.py:26-32 | an empty key leaves the cache alone; otherwise the key maps to the state stamped now and every other key is unchanged |
| ConvStore.SaveThenLoad | backend/app/states/conversationStore.py:6-32 | a state saved under a key is loaded back, stamped, within the five-minute window and a fresh state after it |
| ConvStore.AnonymousNeverStored | backend/app/states/conversationStore.py:12-30 | the empty key is never stored and always loads a fresh state |
| ConvStore.Store.constructor | backend/app/states/conversationStore.py:5 | the cache starts empty |
| ConvStore.Store.LoadState | backend/app/states/conversationStore.py:10-23 | returns Loaded; an expired entry is evicted and nothing else changes |
| ConvStore.Store.SaveState | backend/app/states/conversationStore.py:26-32 | the cache becomes SavedIn, and the stored state carries the new stamp |
| ConvStore.Store.ClearState | backend/app/states/conversationStore.py:35-38 | a non-empty key is removed; the empty key changes nothing |
| UserTasks.DefaultTask | backend/app/domain/task.py:9-22 | the record's defaults: no user, a note, empty content, active, every optional field absent |
| UserTasks.TasksOf | backend/app/stores/task_store.py:9-10 | a user's list, [] for an unknown user |
| UserTasks.ByKind | backend/app/stores/task_store.py:19-20 | exactly the tasks of the kind, taken from the list |
| UserTasks.Active | backend/app/stores/task_store.py:22-23 | exactly the active tasks, taken from the list |
| UserTasks.Without | backend/app/stores/task_store.py:25-30 | exactly the tasks that are not this id of this user |
| UserTasks.Group | backend/app/stores/task_store.py:11-17 | the three groups are the calendar, reminder and note filters |
| UserTasks.ByKindConcat | backend/app/stores/task_store.py:20 | filtering by kind keeps the order of the list |
| UserTasks.OtherKindsDropped | backend/app/stores/task_store.py:11-17 | a task of any other kind is in no group |
| UserTasks.WithoutConcat | backend/app/stores/task_store.py:27-30 | deletion keeps the order of the remaining tasks |
| UserTasks.WithoutAbsent | backend/app/stores/task_store.py:25-30 | deleting an id the user does not have keeps the list |
| UserTasks.AddThenDelete | backend/app/stores/task_store.py:6-30 | deleting a task just added under a new id gives back the list as it was |
| UserTasks.TaskStore.constructor | backend/app/stores/task_store.py:4 | the store starts empty |
| UserTasks.TaskStore.AddTask | backend/app/stores/task_store.py:6-7 | the task is appended to its user's list, created when absent; other users are unchanged |
| UserTasks.TaskStore.GetTasks | backend/app/stores/task_store.py:9-10 | the user's list, [] when the user has none |
| UserTasks.TaskStore.GetTasksGrouped | backend/app/stores/task_store.py:11-17 | the user's tasks grouped by kind |
| UserTasks.TaskStore.GetTasksByType | backend/app/stores/task_store.py:19-20 | the user's tasks of the kind |
| UserTasks.TaskStore.GetActiveTasks | backend/app/stores/task_store.py:22-23 | the user's active tasks |
| UserTasks.TaskStore.DeleteTaskById | backend/app/stores/task_store.py:25-34 | the user's list becomes the filtered list, and the user is dropped when none remain; other users are unchanged |
| UserTasks.TaskStore.ClearTasks | backend/app/stores/task_store.py:37-38 | the user's entry is removed; other users are unchanged |
| TaskOrchestrator.SelectAgent | backend/app/services/task_orchestator_service.py:16-21 | the calendar agent exactly for "calendar", the reminder agent exactly for "reminder", the note agent for every other type |
| TaskOrchestrator.FollowupQuestionFor | backend/app/services/task_orchestator_service.py:24-36 | never empty: the link question for meeting_link, the reminder or event time question for datetime by task type, the generic question otherwise |
| TaskOrchestrator.NormalizeCandidates | backend/app/services/task_orchestator_service.py:39-61 | a non-list gives []; for reminders and calendars naming fecha or hora, datetime preceded by meeting_link when it was listed; otherwise the pair meeting_link, datetime when both occur, else the list unchanged |
| TaskOrchestrator.NormalizeTwice | backend/app/services/task_orchestator_service.py:39-61 | normalising is idempotent |
| TaskOrchestrator.NormalizedSupported | backend/app/services/task_orchestator_service.py:48-59 | from date parts, links and datetimes, only meeting_link and datetime come out |
| TaskOrchestrator.RunAgent | backend/app/services/task_orchestator_service.py:100-110 | only the calendar agent can fail; the note agent never asks for a follow-up |
| TaskOrchestrator.SlotOf | backend/app/services/task_orchestator_service.py:127 | the first candidate, none for an empty list |
| TaskOrchestrator.FollowupState | backend/app/services/task_orchestator_service.py:126-132 | the state awaits the first normalised candidate under intent task_enrichment, and its slots are the agent's result plus the task type |
| TaskOrchestrator.FollowupTask | backend/app/services/task_orchestator_service.py:134-139 | the task sent back carries a non-empty follow-up question and the normalised candidates |
| TaskOrchestrator.SafeType | backend/app/services/task_orchestator_service.py:161 | one of calendar, reminder or note; a known type is kept |
| TaskOrchestrator.StoredTask | backend/app/services/task_orchestator_service.py:160-178 | an active task of the safe type for the user, with the agent's content, the agent's date and time before the analysis's, the analysis's meeting type, and the first of ubicacion, lugar and the analysis's location |
| TaskOrchestrator.Settled | backend/app/services/task_orchestator_service.py:115-202 | an agent failure changes nothing; a follow-up leaves the tasks alone and records the awaited slot; otherwise the task is appended to the user's list and returned with the user's grouped tasks and its invitation |
| TaskOrchestrator.ProcessTask | backend/app/services/task_orchestator_service.py:67-202 | the outcome, the new state and the new task store are those of the processing function |
| TaskOrchestrator.CalendarSlots | backend/app/services/task_orchestator_service.py:39-61 | every candidate list the calendar agent produces normalises to a first slot of meeting_link or datetime |
| TaskOrchestrator.ReminderSlots | backend/app/services/task_orchestator_service.py:39-61 | every candidate list the reminder agent produces normalises to datetime |
| TaskOrchestrator.CalendarAwaitsSupportedSlot | backend/app/services/task_orchestator_service.py:119-127 | when the calendar agent asks, the awaited slot is one the continuation handles |
| TaskOrchestrator.ReminderAwaitsDatetime | backend/app/services/task_orchestator_service.py:119-127 | when the reminder agent asks, the awaited slot is datetime |
| TaskOrchestrator.FollowupAwaitsSupportedSlot | backend/app/services/task_orchestator_service.py:119-152 | every follow-up the orchestrator asks awaits meeting_link or datetime |
| TaskOrchestrator.NotesNeverAsk | backend/app/services/task_orchestator_service.py:16-119 | a note never changes the state and never asks a follow-up |
| TaskOrchestrator.StoredTaskListed | backend/app/services/task_orchestator_service.py:180-194 | the stored task is the last one in its kind's group of the returned tasks |
| TaskOrchestrator.OrText | backend/app/services/task_orchestator_service.py:232-233 | Python's `a or b` on optional texts: a non-empty first value, else the second |
| TaskOrchestrator.HandleTaskWeb | backend/app/services/task_orchestator_service.py:208-253 | an empty stripped type or a continuation is refused with its message before anything changes; otherwise process_task on the stripped text and type, for the given user key or "" |
| TaskContinuation.TodayIsExplicit | backend/app/services/task_continuation_service.py:13-23 | a whole word "hoy" anywhere counts as an explicit date |
| TaskContinuation.FirstUrl | backend/app/services/task_continuation_service.py:56 | none exactly when no position starts `https?://\S+`; a match starts with "http", is at least 8 characters long, has no blank and occurs in the message; it is the match at the leftmost matching position, and its `\S+` runs to the end of the message or to a blank |
| TaskContinuation.UrlMaximal | backend/app/services/task_continuation_service.py:56 | the greedy `\S+` of a match stops only at the end of the message or at white space |
| TaskContinuation.SearchHit | backend/app/services/task_continuation_service.py:56 | a search hit is the leftmost position where the pattern matches, with the maximal run |
| TaskContinuation.At | backend/app/services/task_continuation_service.py:77 | `dict.get`: the value under the key, None when absent |
| TaskContinuation.LinkStep | backend/app/services/task_continuation_service.py:42-67 | a no-link keyword makes the meeting in person and moves on to datetime; else a URL becomes the virtual meeting's link and moves on to datetime; else the link is asked for again with status created |
| TaskContinuation.KeptFecha | backend/app/services/task_continuation_service.py:83-86 | a stored date survives unless the answer names a date explicitly |
| TaskContinuation.DatetimeStep | backend/app/services/task_continuation_service.py:72-112 | date and time complete the task, with the time stored and the date kept or replaced; a date alone or a time alone is stored and datetime asked again; neither asks again with status created; never moves back to meeting_link |
| TaskContinuation.CommentStep | backend/app/services/task_continuation_service.py:117-121 | any other slot stores the stripped answer as the description and completes the task |
| TaskContinuation.StepFor | backend/app/services/task_continuation_service.py:42-121 | the step is chosen by the pending slot: meeting_link, datetime, anything else |
| TaskContinuation.Apply | backend/app/services/task_continuation_service.py:36-120 | the snapshot with the step's fields written over it, the step's status, and next_slot present exactly when the step names one |
| TaskContinuation.HandleTaskContinuation | backend/app/services/task_continuation_service.py:26-126 | the updated task and the reply of the step for the pending slot |
| TaskContinuation.CompletedIffNoNextSlot | backend/app/services/task_continuation_service.py:42-121 | a task is completed exactly when it has no next slot, any next slot is meeting_link or datetime, and fields no step writes are kept from the snapshot |
| TaskContinuation.SlotsMoveForward | backend/app/services/task_continuation_service.py:34 | from meeting_link the link is asked again exactly when the status is created, datetime never goes back to meeting_link, and any other slot completes |
| TaskContinuation.KeywordBeatsUrl | backend/app/services/task_continuation_service.py:45-56 | "presencial" wins over a URL in the same answer |
| TaskContinuation.StoredFechaSurvives | backend/app/services/task_continuation_service.py:79-87 | with a stored date and no explicit date in the answer, the stored date stays, the new time is stored and the task completes |
| TaskContinuation.TodayOverridesFecha | backend/app/services/task_continuation_service.py:76-86 | an answer saying "hoy" replaces the stored date with the normalised one |
| TaskContinuation.ContentFrom | backend/app/services/task_continuation_service.py:177 | a text is synthesised; a falsy non-text becomes ""; any other value fails, as the synthesiser's text operations would |
| TaskContinuation.TextOr | backend/app/services/task_continuation_service.py:167-175 | the text held, or the default for any other value |
| TaskContinuation.CompletedTask | backend/app/services/task_continuation_service.py:167-185 | an active task of the first type and user key found, with the synthesised content and the updated task's date, time, link, meeting type, description and location |
| TaskContinuation.IcsOf | backend/app/services/task_continuation_service.py:192-197 | an invitation only for calendar and reminder tasks, and none when generating it fails |
| TaskContinuation.AskAgain | backend/app/services/task_continuation_service.py:150-153 | the state awaits the next slot under task_enrichment with the updated task as its slots |
| TaskContinuation.Reset | backend/app/services/task_continuation_service.py:202-204 | intent, awaited slot and slots are cleared; the rest of the state is kept |
| TaskContinuation.Ask | backend/app/services/task_continuation_service.py:150-162 | the state asks again, and the reply is the updated task flagged as needing a follow-up with the next slot as its only candidate |
| TaskContinuation.Store | backend/app/services/task_continuation_service.py:167-217 | the outcome, state and task store are those of storing the completed task |
| TaskContinuation.Finish | backend/app/services/task_continuation_service.py:144-217 | the outcome, state and task store are those of the finishing function |
| TaskContinuation.SynthesizeContent | backend/app/services/task_continuation_service.py:177 | the content is ContentFrom of the raw content |
| TaskContinuation.ContinueTask | backend/app/services/task_continuation_service.py:129-217 | the outcome, state and task store are those of the continuation function on the state's pending slot and slots |
| TaskContinuation.AsksIffIncomplete | backend/app/services/task_continuation_service.py:150-162 | a follow-up is asked exactly when the updated task is not completed, and it awaits meeting_link or datetime |
| TaskContinuation.CompletionStores | backend/app/services/task_continuation_service.py:167-206 | a stored task is active, carries the synthesised content, is appended to its user's list, and the state is reset |
| TaskContinuation.FailureChangesNothing | backend/app/services/task_continuation_service.py:177 | a failure comes only from the content synthesis and leaves the tasks and the state unchanged |
| FollowupPolicy.Question | backend/app/services/task_followup_policy.py:5-8 | a question exactly for a meeting's meeting_link or datetime, and never empty |
| FollowupPolicy.FirstQuestion | backend/app/services/task_followup_policy.py:24-36 | none exactly when no field has a question; otherwise the first text field that has one, with its question |
| FollowupPolicy.ShiftFirst | backend/app/services/task_followup_policy.py:24-26 | skipping a field without a question does not change which field is first |
| FollowupPolicy.DecideFollowup | backend/app/services/task_followup_policy.py:11-36 | none when task_kind is not a text or missing_fields is not a list; otherwise the first question; a question is only ever for a meeting's meeting_link or datetime |
| FollowupPolicy.OnlyMeetingsAsk | backend/app/services/task_followup_policy.py:5-30 | any other kind is never asked anything |
| FollowupPolicy.FirstFieldWins | backend/app/services/task_followup_policy.py:24-34 | a first field with a question is the one asked |
| FollowupPolicy.SkipsSilent | backend/app/services/task_followup_policy.py:24-30 | a field without a question is skipped |
| TaskAnalysis.MeetingTypeOf | backend/app/services/task_analysis_service.py:24-46 | virtual exactly when a virtual keyword occurs, presencial exactly when only a presencial one does, none otherwise |
| TaskAnalysis.MissingFields | backend/app/services/task_analysis_service.py:49-55 | nothing for non-calendar tasks; datetime exactly when the date or time is missing; meeting_link exactly when a virtual meeting has no "http"; in that order |
| TaskAnalysis.AnalysisOf | backend/app/services/task_analysis_service.py:5-57 | the normaliser's date and time, the meeting type, "Lugar por confirmar" exactly for in-person meetings, and the missing fields |
| TaskAnalysis.FindKeyword | backend/app/services/task_analysis_service.py:36-46 | the keyword loop finds a keyword exactly when one occurs |
| TaskAnalysis.AnalyzeTask | backend/app/services/task_analysis_service.py:5-57 | the analysis is AnalysisOf |
| TaskAnalysis.VideoCallAsksForLink | backend/app/services/task_analysis_service.py:24-55 | a dated videollamada without a link is missing exactly its link |
| TaskAnalysis.VirtualWinsOverPresencial | backend/app/services/task_analysis_service.py:36-46 | a virtual keyword wins over a presencial one, and no location is set |
| AgentReply.SplitLines | backend/app/agents/task/calendar_agent.py:73 | `str.splitlines`: no lines exactly for the empty text, no line holds a break, and the first line runs up to the first break |
| AgentReply.StripFence | backend/app/agents/task/calendar_agent.py:63-75 | nothing for a missing or blank reply; a reply without a fence is only stripped; a fenced one loses its fences and a leading "json" line; the result is stripped |
| AgentReply.Defence | backend/app/agents/task/calendar_agent.py:68-75 | without a "json" first line, the fenced body is the unfenced text stripped; the result is stripped |
| AgentReply.Unfenced | backend/app/agents/task/calendar_agent.py:70-71 | a closing fence is cut off, and nothing else |
| AgentReply.NormalizeReply | backend/app/agents/task/calendar_agent.py:47-84 | the parsed dictionary when the cleaned reply parses as a JSON object; {} for a blank reply, a parse failure or any other JSON value |
| AgentReply.PlainReplyIsStripped | backend/app/agents/task/calendar_agent.py:66-68 | an unfenced reply is passed on stripped |
| AgentReply.FenceWithoutLanguage | backend/app/agents/task/calendar_agent.py:68-72 | a fenced reply without a language line is its body between the fences, stripped |
| AgentReply.Strs | backend/app/agents/task/calendar_agent.py:151 | a list of names as JSON texts, position by position |
| Json.GetOr | backend/app/agents/base_agent.py:20-23 | `d.get(key, default)`: the stored value whenever the key is present, even a null one; the default only when it is absent |
| CalendarAgent.Candidates | backend/app/agents/task/calendar_agent.py:96-110 | meeting_link exactly when the analysis misses it, then datetime exactly when the normaliser lacks a date or a time |
| CalendarAgent.TextArg | backend/app/agents/task/calendar_agent.py:123-128 | a text argument is passed on; a falsy non-text reads as ""; a truthy non-text makes the invitation fail |
| CalendarAgent.Invitation | backend/app/agents/task/calendar_agent.py:121-128 | the invitation for the title, description, date and time, lasting 60 minutes in the default zone, when every argument is text; a failure otherwise |
| CalendarAgent.Handle | backend/app/agents/task/calendar_agent.py:87-154 | a calendar task whose title, description and location come from the model, whose date and time prefer the model's; an invitation only with both date and time, where only its failure fails the call; a follow-up exactly when there are candidates |
| CalendarAgent.DatetimeFromNormaliserOnly | backend/app/agents/task/calendar_agent.py:104-110 | without the normaliser's time the agent always asks, even when the model gave one |
| ReminderAgent.Candidates | backend/app/agents/task/reminder_agent.py:110-119 | fecha exactly when the date is missing, then hora exactly when the time is missing |
| ReminderAgent.Handle | backend/app/agents/task/reminder_agent.py:90-149 | a created reminder with the model's content or the message, the model's date and time before the normaliser's, the model's place, and a follow-up exactly when a date or time is missing |
| NoteAgent.DefaultTitle | backend/app/agents/task/note_agent.py:81 | at most 60 characters: the first 60 stripped |
| NoteAgent.Handle | backend/app/agents/task/note_agent.py:70-100 | a created note that never asks, with the model's title or the default title and the model's content or the message |
| BaseAgent.Extra | backend/app/agents/base_agent.py:33-35 | the extra fields when "extra" holds a dictionary, none otherwise |
| BaseAgent.ErrorReply | backend/app/agents/base_agent.py:43-54 | the failure reply: the seven keys, success false, the error context and the apology followed by the error text |
| BaseAgent.Handle | backend/app/agents/base_agent.py:14-54 | a failing resolver or one without "response" gives the error reply; otherwise the base fields with their defaults, overridden by the extra fields, then "awaiting" copied when present |
| ContentSynthesizer.FirstOpening | backend/app/services/task_content_synthesizer.py:50-51 | the first instruction, in list order, that the text opens with followed by a space; none exactly when there is none |
| ContentSynthesizer.DropOpening | backend/app/services/task_content_synthesizer.py:52 | dropping an instruction leaves a strictly shorter tail of the text |
| ContentSynthesizer.FirstIs | backend/app/services/task_content_synthesizer.py:50-54 | an opening no earlier instruction matches is the one found |
| ContentSynthesizer.StripPhrases | backend/app/services/task_content_synthesizer.py:46-54 | the result opens with no instruction and is a tail of the text |
| ContentSynthesizer.FindOpening | backend/app/services/task_content_synthesizer.py:50-54 | the loop over the instructions finds the first opening |
| ContentSynthesizer.DropLeadingPhrases | backend/app/services/task_content_synthesizer.py:46-54 | the repeat-until-unchanged loop computes StripPhrases: no instruction left at the front, and a tail of the text |
| ContentSynthesizer.SynthesizeTaskContent | backend/app/services/task_content_synthesizer.py:40-89 | the synthesized title; empty exactly when the stripped text is; anything other than the stripped text is tidy (non-empty, no double spaces, no trimmed marks at either end) |
| ContentSynthesizer.Outcome | backend/app/services/task_content_synthesizer.py:84-89 | the same two facts about the synthesis function |
| ContentSynthesizer.BlankTitle | backend/app/services/task_content_synthesizer.py:41-44 | a blank text gives an empty title |
| ContentSynthesizer.CleanedEmpty | backend/app/services/task_content_synthesizer.py:56-81 | the substitutions leave the empty text empty |
| ContentSynthesizer.TidiedIsTidy | backend/app/services/task_content_synthesizer.py:84 | a non-empty tidied text has single spaces and no trimmed marks at its ends |
| ContentSynthesizer.CapitalizeTidy | backend/app/services/task_content_synthesizer.py:89 | capitalising the first letter keeps a title tidy |
| ContentSynthesizer.ParaBecomesDe | backend/app/services/task_content_synthesizer.py:57 | a whole word "para" becomes "de" |
| ContentSynthesizer.ParaInsideWordKept | backend/app/services/task_content_synthesizer.py:57 | a position without a word boundary is kept as it is |
| TaskQuery.PyWeekday | backend/app/services/cerebro_service.py:313 | `date.weekday()` of a day number lies in 0..6 |
| TaskQuery.ThisWeek | backend/app/services/cerebro_service.py:312-315 | the week runs from the Monday on or before today to six days later, and contains today |
| TaskQuery.Leftmost | backend/app/services/cerebro_service.py:317 | `re.search`: the leftmost position where the pattern matches, none exactly when no position does |
| TaskQuery.NextDays | backend/app/services/cerebro_service.py:317-327 | a range exactly when "próximos N días" is found with N above 0; it starts today, spans N days and is labelled with N |
| TaskQuery.DetectDateRange | backend/app/services/cerebro_service.py:298-329 | "pasado mañana" first, then "mañana", then "hoy", then "esta semana", then "próximos N días", each with its range and label; none otherwise |
| TaskQuery.DayAfterTomorrowFirst | backend/app/services/cerebro_service.py:301-307 | "pasado mañana" also contains "mañana", and the earlier test wins |
| TaskQuery.Sanitize | backend/app/services/cerebro_service.py:338-341 | never empty and never holds a pipe or a newline; "-" for a missing or blank value, else the cleaned text |
| TaskQuery.CleanedIsClean | backend/app/services/cerebro_service.py:341 | replacing pipes and newlines and stripping leaves neither |
| TaskQuery.SanitizeKeepsClean | backend/app/services/cerebro_service.py:338-341 | a clean, stripped, non-empty value other than "-" is kept |
| TaskQuery.NormalizeTitle | backend/app/services/cerebro_service.py:343-366 | a title cell is never empty, and a missing or blank content gives "-" |
| TaskQuery.InstructionDropped | backend/app/services/cerebro_service.py:351-363 | a leading instruction word ("recuérdame", "agenda", "nota", …) followed by more words is dropped and the rest is capitalised |
| TaskQuery.TitleKept | backend/app/services/cerebro_service.py:345-366 | a trimmed content that does not start with an instruction word followed by more words is kept whole and capitalised |
| TaskQuery.Place | backend/app/services/cerebro_service.py:425-438 | a virtual meeting shows its link or "-", an in-person one its location or "-", any other shows the link, else the location, else "-" |
| TaskQuery.SortKey | backend/app/services/cerebro_service.py:399-405 | dated tasks sort in group 0 and undated ones in group 1 |
| TaskQuery.StrLeTotal | backend/app/services/cerebro_service.py:399-405 | the order on texts is total |
| TaskQuery.StrLeTrans | backend/app/services/cerebro_service.py:399-405 | the order on texts is transitive |
| TaskQuery.KeyLeTotal | backend/app/services/cerebro_service.py:399-405 | the order on sort keys is total |
| TaskQuery.KeyLeTrans | backend/app/services/cerebro_service.py:399-405 | the order on sort keys is transitive |
| TaskQuery.Insert | backend/app/services/cerebro_service.py:411 | inserting adds exactly the one task |
| TaskQuery.InsertSorted | backend/app/services/cerebro_service.py:411 | inserting into a sorted list keeps it sorted |
| TaskQuery.Sort | backend/app/services/cerebro_service.py:411 | `sorted(tasks, key=_sort_key)`: a permutation of the tasks that is sorted by key |
| TaskQuery.ShownFirst | backend/app/services/cerebro_service.py:411-413 | every shown row sorts no later than every hidden one, and a dated task is never hidden behind an undated one |
| TaskQuery.Rows | backend/app/services/cerebro_service.py:421-442 | one row per task, in order |
| TaskQuery.TableLines | backend/app/services/cerebro_service.py:415-419 | at least four lines, headed by the label and the total |
| TaskQuery.Closing | backend/app/services/cerebro_service.py:444-449 | the blank line, preceded by a blank and the footer when more than ten tasks exist |
| TaskQuery.Layout | backend/app/services/cerebro_service.py:415-449 | heading, column header, rule, then the rows, then the closing lines, at the positions stated |
| TaskQuery.TableShape | backend/app/services/cerebro_service.py:407-450 | the table has the header lines, the first ten rows in key order, the footer when tasks were hidden, and a final blank line |
| TaskQuery.TableFor | backend/app/services/cerebro_service.py:407-450 | the "Sin tareas." table exactly when there are no tasks |
| TaskQuery.JoinHead | backend/app/services/cerebro_service.py:408-416 | a table with a counted heading is never the empty-table text |
| TaskQuery.BuildTaskTable | backend/app/services/cerebro_service.py:452-456 | the events, reminders and notes tables joined by line breaks and stripped: the answer opens with the events heading, and with no tasks at all it is the three "Sin tareas." tables without the final line break |
| TaskQuery.InRange | backend/app/services/cerebro_service.py:493-501 | without a range every task is kept; with one, exactly the tasks whose date parses and lies in it |
| TaskQuery.TaskQuery | backend/app/services/cerebro_service.py:458-533 | an answer exactly when a query pattern occurs; notes are never filtered; events and reminders are filtered by the detected range; the text is the summary followed by the tables |
| TaskQuery.ThisWeekQuery | backend/app/services/cerebro_service.py:312-501 | "esta semana" is a query, its range is the Monday-based week containing today, and every event listed lies in it |
| TaskReplies.TypeNamed | backend/app/services/cerebro_service.py:46-49 | nothing for a value that is not a dict |
| TaskReplies.ConfirmationText | backend/app/services/cerebro_service.py:45-58 | the event, reminder and note texts exactly for those task types; the generic text for every other |
| TaskReplies.PyGet | backend/app/services/cerebro_service.py:79 | `.get` succeeds exactly on a dict |
| TaskReplies.TaskOf | backend/app/services/cerebro_service.py:73 | the nested task when truthy, else the result itself |
| TaskReplies.Enrichment | backend/app/services/cerebro_service.py:79 | the result's candidates when truthy, else the task's, which fails exactly when the task is not a dict |
| TaskReplies.FirstOf | backend/app/services/cerebro_service.py:80 | None for a falsy list, else its first item |
| TaskReplies.AskedQuestion | backend/app/services/cerebro_service.py:84-92 | the task's question, else the result's, else the nested task's; none when the task is not a dict |
| TaskReplies.SlotQuestion | backend/app/services/cerebro_service.py:95-104 | the link and datetime fallbacks for those slots, the generic one for no slot |
| TaskReplies.FollowupReply | backend/app/services/cerebro_service.py:78-114 | a follow-up reply has the tasks context, action task_followup, the task result and the task's type, and needs a dict task; its text is the question produced upstream when there is one, else one of the three fallback questions; it succeeds whenever that question exists and the candidates can be read |
| TaskReplies.BuildTaskResponse | backend/app/services/cerebro_service.py:61-124 | without a follow-up, the confirmation for the task; with one, the follow-up reply; the action is task_followup exactly when a follow-up is needed |
| TaskReplies.FollowupPrefersAsked | backend/app/services/cerebro_service.py:78-114 | the question produced upstream is asked; the slot's fallback only when there is none |
| TaskReplies.NonDictTaskFails | backend/app/services/cerebro_service.py:79 | a follow-up whose task is not a dict raises |
| TaskReplies.Cleared | backend/app/services/cerebro_service.py:273-275 | intent, awaited slot and slots are cleared; the rest is kept |
| TaskReplies.EarlyRoute | backend/app/services/cerebro_service.py:259-533 | a cancel pattern cancels and clears the state first; otherwise a task query is answered; otherwise the message goes on |
| TaskReplies.CancelBeatsQuery | backend/app/services/cerebro_service.py:261-284 | a message saying "ya no" is cancelled even when it is also a query |
| Memory.Count | backend/app/services/memory_service.py:26-29 | at most one per keyword, and zero exactly when no keyword occurs |
| Memory.DetectMainTopic | backend/app/services/memory_service.py:11-39 | general exactly when no keyword occurs; otherwise the topic with the most keywords, the first in order on a tie |
| Memory.Topics | backend/app/services/memory_service.py:47 | one topic per message, in order |
| Memory.DetectContextChange | backend/app/services/memory_service.py:42-53 | a change exactly when there are stored messages and none of them shares the current topic |
| Memory.SameTopicKeeps | backend/app/services/memory_service.py:49 | one stored message on the same topic means no change |
| Memory.Trimmed | backend/app/services/memory_service.py:74-75 | a list within the limit is kept; with a positive limit the last n messages are kept |
| Memory.TrimmedTwice | backend/app/services/memory_service.py:70-77 | trimming after every append equals trimming once at the end |
| Memory.DefaultKeepsLastTwo | backend/app/services/memory_service.py:70 | with the default limit the last two messages remain |
| Memory.Stored | backend/app/services/memory_service.py:57 | [] for an unknown user |
| Memory.ChatMemory.constructor | backend/app/services/memory_service.py:8 | the memory starts empty |
| Memory.ChatMemory.GetRelevantMemory | backend/app/services/memory_service.py:56-67 | at most one message: none for an empty memory; none with the memory cleared on a change of topic; else the last message, with nothing changed |
| Memory.ChatMemory.AppendMemory | backend/app/services/memory_service.py:70-77 | the user's memory becomes the old one plus the message, trimmed; with a positive limit it holds at most that many and ends with the message |
| ChannelMessages.Window | backend/app/services/channel_message_service.py:19-21 | no history without a positive limit or a list; otherwise the last min(limit, length) messages |
| ChannelMessages.Kept | backend/app/services/channel_message_service.py:21-23 | exactly the window's messages that are not blank and differ from the stripped user message, as user messages |
| ChannelMessages.ChatMessages | backend/app/services/channel_message_service.py:7-26 | the system message first and the user message last, with between them at most limit kept history messages, exactly the usable ones of the window |
| ChannelMessages.KeptStep | backend/app/services/channel_message_service.py:21-23 | one more loop pass appends the message exactly when it is usable |
| ChannelMessages.BuildChatMessages | backend/app/services/channel_message_service.py:7-26 | the loop builds the message list the function describes |
| ChatOrchestrator.MaxPrev | backend/app/services/chat_orchestrator_service.py:152 | no history for SMS, one message for the other channels |
| ChatOrchestrator.SmsCut | backend/app/services/chat_orchestrator_service.py:174-175 | the cut is the last space within the first 137 characters, or 137 when there is none after position 0 |
| ChatOrchestrator.SmsText | backend/app/services/chat_orchestrator_service.py:171-175 | at most 140 characters: the collapsed text when it fits, else its prefix up to the cut followed by "..." |
| ChatOrchestrator.SmsShortIsFixed | backend/app/services/chat_orchestrator_service.py:171-175 | a text that fits is left alone by a second shaping |
| ChatOrchestrator.Clip | backend/app/services/chat_orchestrator_service.py:177-181 | a text within the limit is kept; a longer one becomes exactly the limit long, its prefix followed by "..." |
| ChatOrchestrator.ShapeReply | backend/app/services/chat_orchestrator_service.py:170-181 | SMS fits 140 characters, WhatsApp 1500 and RCS 1000, a reply within the limit is kept, and the web reply is never changed |
| ChatOrchestrator.UrlsJson | backend/app/services/chat_orchestrator_service.py:106 | one JSON text per URL |
| ChatOrchestrator.NoHistory | backend/app/services/chat_orchestrator_service.py:84-159 | with the empty history the model gets only the system prompt and the message |
| ChatOrchestrator.Answer | backend/app/services/chat_orchestrator_service.py:86-100 | the model's answer to the system prompt and the message |
| ChatOrchestrator.RunChat | backend/app/services/chat_orchestrator_service.py:47-192 | exactly a blank message raises "Mensaje vacío"; otherwise the model, asked with the system prompt and the message alone, gives the answer that is shaped for the channel, with the context label, at most nUrls of its URLs in order, no memory used, a context reset, and the channel only for the channel orchestrator (the web orchestrator has no such key) |
| ChatOrchestrator.RunWebChat | backend/app/services/chat_orchestrator_service.py:47-110 | the web reply is the model's answer unchanged, with at most five URLs and no channel |
| ChatOrchestrator.RunChannelChat | backend/app/services/chat_orchestrator_service.py:113-192 | whatever the model answers, each channel's reply fits its limit, with at most three URLs, and it names its channel, "web" included |
| ContextService.FirstMentioned | backend/app/services/context_service.py:28-31 | none exactly when no keyword list matches; otherwise the name of the first list that does |
| ContextService.DetectCountry | backend/app/services/context_service.py:12-31 | a listed country exactly when one of its keywords occurs in the lower-cased text, the first in table order |
| ContextService.DetectOperator | backend/app/services/context_service.py:34-42 | claro, else telcel, else a1 for "a1" or "a one", each exactly when its test is the first to hold |
| ContextService.TopicOf | backend/app/services/context_service.py:51-55 | health exactly when a health word occurs, education exactly when only an education word does |
| ContextService.DetectTopic | backend/app/services/context_service.py:45-55 | the same on the lower-cased text with the service's word lists |
| ContextService.HealthBeforeEducation | backend/app/services/context_service.py:51-52 | any health word makes the topic health |
| ContextService.ListAt | backend/app/services/context_service.py:71-78 | the list under the key when it is a list, [] otherwise |
| ContextService.CountryUrls | backend/app/services/context_service.py:82-89 | at most n URLs: the first n of the country's list when the block is a table holding the detected country, [] otherwise |
| ContextService.GetRelevantUrls | backend/app/services/context_service.py:58-98 | no repeats, and a URL is in the result exactly when it is in the selection, or in the Telcel list when the selection is empty |
| ContextService.TopicPreempts | backend/app/services/context_service.py:69-98 | a topic present in the table wins, giving its first two URLs or the Telcel fallback |
| ContextService.TelcelGivesTelcelList | backend/app/services/context_service.py:76-98 | Telcel or Mexico gives the Telcel list without repeats |
| ContextService.ClaroAtMostTwo | backend/app/services/context_service.py:81-98 | Claro gives at most two URLs of the country, or the Telcel fallback |
| ContextService.A1AtMostOne | backend/app/services/context_service.py:86-98 | A1 gives at most one URL of the country, or the Telcel fallback |
| ContextService.NothingDetectedFallsBack | backend/app/services/context_service.py:91-98 | without a topic or an operator the Telcel list is used |
| ContextService.NeverEmpty | backend/app/services/context_service.py:91-98 | with a non-empty Telcel list the result is never empty |
| ContextService.DeployedOnlyTelcelOrA1 | backend/app/services/context_service.py:58-98 | with the table as deployed (health a table, no education key, Claro keyed by capitalised names), every query not about A1 gets the Telcel list |
| ContextService.ContextLabel | backend/app/services/context_service.py:101-114 | education, then health, then Telcel or Mexico, then Claro, then A1, then the general label |
| ContextService.GetContextForQuery | backend/app/services/context_service.py:117-138 | the label and the URLs agree: a query labelled Telcel has no topic and gets the Telcel list, one that names nothing gets the general label and the Telcel list, and no URL repeats |
| LegacyServices.LegacyCountry | backend/services.py:130-150 | a country of this table exactly when one of its keywords occurs, the first in this table's order |
| LegacyServices.CountryOrderDiffers | backend/services.py:133-137 | a message naming Lima and CDMX is Peru here and Mexico in the newer service |
| LegacyServices.LegacyTopic | backend/services.py:163-174 | health exactly when a health word occurs, education exactly when only an education word does |
| LegacyServices.ListValue | backend/services.py:190 | `URLS[key]` as a list succeeds exactly when the key holds a list |
| LegacyServices.BlockUrls | backend/services.py:191-194 | at most n URLs of the country's list, and no failure when the operator's block is a table |
| LegacyServices.UrlsFor | backend/services.py:176-200 | an empty selection falls back to the Telcel list, and a failing lookup fails the whole call |
| LegacyServices.LegacyRelevantUrls | backend/services.py:176-200 | with the legacy table shape every call succeeds with at least one URL; without a topic, Telcel or Mexico gives the whole Telcel list |
| LegacyServices.LegacyNeverEmpty | backend/services.py:176-200 | with the legacy table shape every call succeeds with at least one URL |
| LegacyServices.LegacyTopicFirst | backend/services.py:185-198 | a topic gives its first two URLs, or the Telcel list when its list is empty |
| LegacyServices.LegacyTelcelOrMexico | backend/services.py:189-190 | Telcel or Mexico gives the whole Telcel list, repeats kept |
| LegacyServices.LegacyClaroAtMostTwo | backend/services.py:191-192 | Claro in a listed country gives one or two of its URLs |
| LegacyServices.LegacyA1AtMostOne | backend/services.py:193-194 | A1 in a listed country gives its first URL |
| LegacyServices.LegacyUnlistedFallsBack | backend/services.py:191-198 | an operator whose block lacks the country falls back to the Telcel list |
| IntentClassification.DropWordRun | backend/app/services/intent_clasification_service.py:65 | `(\w+)?`: the longest run of word characters at the front is removed |
| IntentClassification.CleanJsonString | backend/app/services/intent_clasification_service.py:59-67 | an unfenced answer is only stripped; the result never starts or ends with whitespace |
| IntentClassification.StripKeeps | backend/app/services/intent_clasification_service.py:67 | stripping a text without outer whitespace keeps it |
| IntentClassification.DropWordOf | backend/app/services/intent_clasification_service.py:65 | the language word after the fence is dropped up to the first non-word character |
| IntentClassification.StripFramed | backend/app/services/intent_clasification_service.py:67 | a body between two newlines is recovered by stripping |
| IntentClassification.FencedRoundTrip | backend/app/services/intent_clasification_service.py:59-67 | a stripped body fenced with a language tag comes back out unchanged |
| IntentClassification.IntentJson | backend/app/services/intent_clasification_service.py:81-98 | the dict carries the macro intent |
| IntentClassification.WordRule | backend/app/services/intent_clasification_service.py:74-98 | reminder words first, then calendar words, then note words, each as whole words in the stripped lower-cased message; no rule exactly when none occurs |
| IntentClassification.ReminderBeforeCalendar | backend/app/services/intent_clasification_service.py:80-84 | "recuerdame" as a word makes a reminder whatever else the message says |
| IntentClassification.Validate | backend/app/services/intent_clasification_service.py:121-129 | only a dict passes; an allowed intent is kept as is; any other becomes chat with no task type |
| IntentClassification.ParseAnswer | backend/app/services/intent_clasification_service.py:116-137 | whatever the model wrote, the result is a dict with an allowed intent |
| IntentClassification.FromModel | backend/app/services/intent_clasification_service.py:100-137 | a truthy "json" field is returned as is; otherwise an allowed intent; a text reply is parsed as it is and any other non-dict reply through its str(); a failing call is chat |
| IntentClassification.ClassifyIntent | backend/app/services/intent_clasification_service.py:69-137 | a word rule decides first; otherwise the model's answer, validated, with chat on any failure |
| Prompts.Lookup | backend/app/services/prompt_service.py:9-12 | a present key gives its value; a missing one gives "" in the safe mapping and KeyError otherwise |
| Prompts.Prefixed | backend/app/services/prompt_service.py:53 | a formatted piece keeps its literal prefix, and failures pass through |
| Prompts.PrefixedTwice | backend/app/services/prompt_service.py:53 | two prefixes are one concatenated prefix |
| Prompts.FormatPlain | backend/app/services/prompt_service.py:53 | text without braces is copied |
| Prompts.FormatField | backend/app/services/prompt_service.py:47-53 | a field is replaced by its value, or fails when the unsafe mapping lacks it |
| Prompts.FieldAt | backend/app/services/prompt_service.py:53 | a text opening with a field formats as that field followed by the rest |
| Prompts.LoneCloseFails | backend/app/services/prompt_service.py:52-59 | a single closing brace makes formatting fail |
| Prompts.ContextIsSimple | backend/app/services/prompt_service.py:48 | "context" is a plain field name |
| Prompts.UrlsIsSimple | backend/app/services/prompt_service.py:49 | "urls" is a plain field name |
| Prompts.Rules | backend/app/prompts/prompts.py:138-143 | only WhatsApp, SMS and RCS add format rules |
| Prompts.RulesPlain | backend/app/prompts/prompts.py:141-143 | the rules hold no braces when the prose holds none |
| Prompts.TwoFields | backend/app/prompts/prompts.py:114 | a template with the two fields and plain text around them formats to the values in place |
| Prompts.CoreFormatsWith | backend/app/prompts/prompts.py:114 | the core prompt formats with the context and the URL block in place |
| Prompts.CoreFormats | backend/app/prompts/prompts.py:138-143 | each channel's template formats to the core text with the values in place followed by its rules |
| Prompts.BuildSystemPrompt | backend/app/services/prompt_service.py:26-59 | when formatting fails the template is returned unformatted |
| Prompts.SystemPromptPlain | backend/app/services/prompt_service.py:26-59 | with plain prose the prompt is the core text with the context and URLs filled in, followed by the channel's rules |
| Prompts.ServiceUrlsBlock | backend/app/services/prompt_service.py:15-23 | None gives "", a text is kept, anything else is dumped as JSON |
| Prompts.HasWordIff | backend/app/services/prompt_service.py:72 | the word search succeeds exactly when the word occurs between word boundaries somewhere |
| Prompts.LowerKeeps | backend/app/services/prompt_service.py:69 | lower-casing keeps lower-case letters |
| Prompts.LongerWordIsNot | backend/app/services/prompt_service.py:70-72 | a word followed by more word characters is not the word |
| Prompts.AbsentWordIsNot | backend/app/services/prompt_service.py:72 | a text without the word's first letter does not hold it |
| Prompts.FirstDiffers | backend/app/services/prompt_service.py:72 | a position whose letter differs does not start the word |
| Prompts.AprendemosIsNot | backend/app/services/prompt_service.py:70-72 | "aprendemos" does not switch to Aprende |
| Prompts.AprendemosHasNoWord | backend/app/services/prompt_service.py:72 | "aprendemos" holds no whole word "aprende" |
| Prompts.EmprendeIsNot | backend/app/services/prompt_service.py:70-72 | "emprende" does not switch to Aprende |
| Prompts.PromptsUrlsBlock | backend/app/prompts/prompts.py:7-15 | None gives "{}", a text is kept, anything else is dumped as JSON |
| Prompts.RenderPrompt | backend/app/prompts/prompts.py:111-130 | any channel other than default, WhatsApp, SMS and RCS raises |
| Prompts.RenderPlain | backend/app/prompts/prompts.py:111-128 | with plain prose the core text is filled in and followed by the channel's rules |
| Prompts.BuildersAgree | backend/app/prompts/prompts.py:111-143 | for a text URL block the two builders give the same prompt, the default channel matching the web one |
| WebSearch.DropPrivate | backend/app/services/web_search_service.py:19 | no private-use character remains, the text is a subsequence of the input, and a text without them is kept |
| WebSearch.DeleteAll | backend/app/services/web_search_service.py:22-25 | deleting matches keeps a subsequence of the text |
| WebSearch.StripIsSubseq | backend/app/services/web_search_service.py:27 | stripping keeps a subsequence |
| WebSearch.Cleaned | backend/app/services/web_search_service.py:19-27 | the result has no outer whitespace |
| WebSearch.CleanedDeletes | backend/app/services/web_search_service.py:19-27 | the clean-up only deletes characters and leaves no private-use ones |
| WebSearch.SanitizePreservingMarkdown | backend/app/services/web_search_service.py:11-27 | an empty text is returned as is; otherwise a stripped subsequence of the text without private-use characters |
| WebSearch.CleanTextKept | backend/app/services/web_search_service.py:11-27 | a text with no private-use character, no citation residue and no outer white space comes back unchanged |
| WebSearch.LeftoverSpacesStay | backend/app/services/web_search_service.py:22-27 | deleting a residue keeps the blanks around it: "a citeTurn0 b" becomes "a  b" |
| AprendeSearch.IntentIsSubstring | backend/app/services/aprende_search_service.py:9-16 | no message and no action keep the heuristic off; "aprendemos" switches it on although the whole-word test of the prompt service does not |
| AprendeSearch.RunAprendeFlow | backend/app/services/aprende_search_service.py:19-55 | an empty message searches nothing; otherwise the candidates are the search's list or none, and the top is the first max(n, 0) of them |
| AprendeSearch.EmptyMessageSkipsSearch | backend/app/services/aprende_search_service.py:29-31 | with an empty message the result does not depend on the search |
| AprendeSearch.TopBounds | backend/app/services/aprende_search_service.py:47 | a count of zero or less keeps no candidate; a count covering them all keeps every one |
| AprendeResources.DetectarTipoRecurso | backend/aprende_ia_model_api.py:164-180 | the kind is the first of curso, diplomado, ruta, especialidad whose path segment occurs in the lower-cased URL, each in both directions, and general when none occurs |
| AprendeResources.UrlEnd | backend/aprende_ia_model_api.py:240 | the run of link characters is maximal |
| AprendeResources.SchemeEnd | backend/aprende_ia_model_api.py:240 | a match begins with http:// or https:// |
| AprendeResources.LinkAt | backend/aprende_ia_model_api.py:240 | a match is a scheme followed by at least one link character |
| AprendeResources.LinkAtExact | backend/aprende_ia_model_api.py:240 | the match at a position takes every link character that follows (greedy), and there is one exactly when `https://` or `http://` starts there and is followed by a link character |
| AprendeResources.Links | backend/aprende_ia_model_api.py:240-241 | every match found is a link that occurs in the text |
| AprendeResources.LinksLeftmost | backend/aprende_ia_model_api.py:240-241 | `findall` returns nothing exactly when no match starts in the text, and its first match is the leftmost one |
| AprendeResources.UrlRecurso | backend/aprende_ia_model_api.py:243-249 | the first match mentioning aprende.org in any case, and "" exactly when no match does |
| AprendeResources.AskAboutVectorStore | backend/aprende_ia_model_api.py:233-296 | the answer is the stripped text; without a resource the kind is general and the content a web page; a video or PDF address comes only with that content type |
| Render.RunLen | frontend/js/app.js:355 | the run of the character at the front is maximal |
| Render.StripCommentsDeletes | frontend/js/app.js:334 | removing comments only deletes characters |
| Render.StripBangDashesDeletes | frontend/js/app.js:337 | removing stray `<!-` markers only deletes characters |
| Render.StripDashArrowsDeletes | frontend/js/app.js:338 | removing stray `->` markers only deletes characters |
| Render.Uncomment | frontend/js/app.js:333-338 | the three comment passes together only delete characters, and text without angle brackets passes unchanged |
| Render.StripCommentsPlain | frontend/js/app.js:334 | text without `<` holds no comment |
| Render.StripBangDashesPlain | frontend/js/app.js:337 | text without `<` holds no `<!-` marker |
| Render.StripDashArrowsPlain | frontend/js/app.js:338 | text without `>` holds no `->` marker |
| Render.StripCommentsCutsComment | frontend/js/app.js:334 | a comment is cut out up to its first `-->` and the text before it is kept |
| Render.StripCommentsKeepsPlain | frontend/js/app.js:334 | text before which no comment opens is kept |
| Render.StripCommentsSkips | frontend/js/app.js:334 | a comment closing k characters after its opening is skipped whole, lazily |
| Render.Escape | frontend/js/app.js:341-348 | escaped text holds no angle bracket |
| Render.EscapeRoundTrip | frontend/js/app.js:341-348 | unescaping the escaped text gives it back |
| Render.EscapePlain | frontend/js/app.js:341-348 | text without `&`, `<` and `>` is kept |
| Render.EscapeKeeps | frontend/js/app.js:341-348 | any other character occurs in the escaped text exactly when it occurs in the text |
| Render.SplitLines | frontend/js/app.js:351 | at least one line, none holding a newline |
| Render.SplitLinesJoin | frontend/js/app.js:351 | joining the lines with newlines gives the text back |
| Render.SplitLinesSingle | frontend/js/app.js:351 | text without a newline is one line |
| Render.BlankIsEmptyTrim | frontend/js/app.js:360 | a line is blank exactly when its trim is empty |
| Render.RuleIsTrimmedDashes | frontend/js/app.js:355 | a line is a rule exactly when its trim is three or more dashes and nothing else |
| Render.FragmentShowsPayload | frontend/js/app.js:353-393 | each line's HTML is its block's tags around its text, escaped, and the text comes back whole |
| Render.FragmentsConcat | frontend/js/app.js:397 | the HTML of two runs of lines is the concatenation of their HTML |
| Render.Classify | frontend/js/app.js:353-393 | a line is a rule exactly when its trim is three or more dashes, and a spacer exactly when its trim is empty |
| Render.Markup | frontend/js/app.js:364-393 | the marker tests never give a rule or a spacer |
| Render.ClassifyIsMarkup | frontend/js/app.js:353-393 | a line that is neither rule nor blank takes the first marker test that matches |
| Render.MarkerEndHeading | frontend/js/app.js:365-393 | headings, quotes and paragraphs show the line after their marker, a paragraph all of it |
| Render.HeadingStopsAtThree | frontend/js/app.js:365-373 | four hashes make a paragraph: only three heading levels exist |
| Render.Heading3Line | frontend/js/app.js:365-366 | `### ` makes a third-level heading of the rest of the line |
| Render.Heading2Line | frontend/js/app.js:368-369 | `## ` makes a second-level heading of the rest of the line |
| Render.Heading1Line | frontend/js/app.js:371-372 | `# ` makes a first-level heading of the rest of the line |
| Render.QuoteLine | frontend/js/app.js:376-377 | `> ` makes a quote of the rest of the line |
| Render.QuoteNeedsSpace | frontend/js/app.js:376-393 | `>` without a space makes a paragraph of the whole line |
| Render.BulletLine | frontend/js/app.js:381-383 | a bullet character and white space make a list item of what follows the white space |
| Render.MarkerEndBullet | frontend/js/app.js:381-384 | a bullet item shows the line after its bullet marker and the white space after it |
| Render.MarkerEndNumbered | frontend/js/app.js:386-389 | a numbered item shows the line after its number, dot and white space |
| Render.NumberedLine | frontend/js/app.js:387-389 | digits, a dot and white space make a numbered item of what follows |
| Inline.Bold | frontend/js/app.js:402 | the bold pass over the whole text; text without a star passes unchanged |
| Inline.BoldAt | frontend/js/app.js:402 | a bold match is the opening pair, at least one star-free character and the closing pair |
| Inline.BoldSkip | frontend/js/app.js:402 | star-free text is copied by the bold pass |
| Inline.BoldHit | frontend/js/app.js:402 | `**x**` becomes `<strong>x</strong>` and the pass resumes after it |
| Inline.BoldStep | frontend/js/app.js:402 | a match is replaced by its inner text between strong tags |
| Inline.BoldUnclosed | frontend/js/app.js:402 | an unclosed pair is left as written |
| Inline.BoldNoClose | frontend/js/app.js:402 | with no star after the pair, the first character is copied |
| Inline.BoldLoneStar | frontend/js/app.js:402 | a lone star is copied |
| Inline.Italic | frontend/js/app.js:405 | the italic pass over the whole text; text without a star passes unchanged |
| Inline.ItalicAt | frontend/js/app.js:405 | an italic match ends on a star |
| Inline.ItalicSkip | frontend/js/app.js:405 | star-free text is copied by the italic pass |
| Inline.ItalicHit | frontend/js/app.js:405 | `*x*` not followed by a star becomes `<em>x</em>` |
| Inline.ItalicStep | frontend/js/app.js:405 | a match is replaced by its inner text between em tags |
| Inline.ItalicKeepsDoubleStars | frontend/js/app.js:405 | the lookarounds leave an unconverted `**x**` alone |
| Inline.ItalicPair | frontend/js/app.js:405 | no italic match starts on a double star |
| Inline.Code | frontend/js/app.js:408 | the inline-code pass over the whole text; text without a backtick passes unchanged |
| Inline.CodeAt | frontend/js/app.js:408 | a code match is a backtick, at least one other character and a backtick |
| Inline.CodeSkip | frontend/js/app.js:408 | backtick-free text is copied by the code pass |
| Inline.CodeHit | frontend/js/app.js:408 | a backtick span becomes a code element of its text |
| Inline.CodeStep | frontend/js/app.js:408 | a match is replaced by its inner text between code tags |
| Inline.Link | frontend/js/app.js:411 | the markdown-link pass over the whole text; text without `[` passes unchanged |
| Inline.LinkAt | frontend/js/app.js:411 | a link match has a non-empty text and a non-empty address |
| Inline.LinkSkip | frontend/js/app.js:411 | text without `[` is copied by the link pass |
| Inline.LinkHit | frontend/js/app.js:411 | `[text](url)` becomes an anchor to url showing text |
| Inline.LinkStep | frontend/js/app.js:411 | a match becomes the anchor of its own address and text |
| Inline.Autolink | frontend/js/app.js:413-416 | the bare-URL pass over the whole text; text without a colon passes unchanged |
| Inline.UrlRunChars | frontend/js/app.js:414 | a bare URL's run of characters is maximal |
| Inline.AutoAtNoScheme | frontend/js/app.js:414 | no bare URL starts where the text does not start with "ht" |
| Inline.AutoAtNoColon | frontend/js/app.js:414 | text with no colon holds no bare URL |
| Inline.AutoAtClosing | frontend/js/app.js:414 | no bare URL is linked when the next tag closes an anchor |
| Inline.AutolinkKeepsAnchor | frontend/js/app.js:413-416 | an anchor made by the link pass is not linked a second time |
| Inline.Emoji | frontend/js/app.js:418-424 | the six global replacements in the renderer's order equal the one-pass reference EmojiRef: ⚠️ with its selector becomes the orange span, each of the other five its span, everything else is kept |
| Inline.EmojiRef | frontend/js/app.js:418-424 | the reference stage keeps text without emoji |
| Inline.EmojiRefConcat | frontend/js/app.js:418-424 | text without emoji in front is copied and the rest is converted |
| Inline.EmojiWraps | frontend/js/app.js:418-424 | an emoji between plain texts is wrapped in its span (changing it) and the texts around it are kept |
| Inline.WarningWraps | frontend/js/app.js:422 | ⚠️ with its variation selector is wrapped; U+26A0 without the selector is kept |
| Inline.EmojiChainIsRef | frontend/js/app.js:418-424 | the chained replacements, grouped as the first four, the warning and the smile, equal the reference stage |
| Inline.EmojiPlain | frontend/js/app.js:418-424 | text without the six emoji passes the emoji stage unchanged |
| Format.FormatMessage | frontend/js/app.js:332-427 | a plain line comes out as one paragraph holding the line |
| Format.PlainLinePasses | frontend/js/app.js:350-427 | the block stage and the inline stages leave a plain line as one paragraph holding it |
| Format.ParagraphBlock | frontend/js/app.js:350-397 | a line with no line break, angle bracket or ampersand, whose first character opens no block marker, becomes one paragraph block holding it |
| Format.InertPasses | frontend/js/app.js:399-424 | HTML with no star, backtick, bracket, colon or emoji passes every inline stage unchanged |
| Format.BoldThenItalic | frontend/js/app.js:401-405 | bold is taken first, and a single-star span after it still becomes italic |
| Format.BoldStarWord | frontend/js/app.js:402 | a single-star span is not bold |
| Format.FormatLinkLine | frontend/js/app.js:332-427 | a markdown link alone on a line, such as `[site](https://x.com)`, comes out of the whole renderer as one paragraph holding exactly one anchor |
| Format.LinkedOnce | frontend/js/app.js:410-416 | a markdown link is turned into exactly one anchor, not linked again by the URL pass |
| CalendarIcs.EscapeText | backend/app/services/calendar_ics.py:72-83 | an empty text stays empty; otherwise the result equals the per-character reference escaping (backslash, `;`, `,`, newline each replaced by its escape), holds no newline, and every `;` and `,` in it is preceded by a backslash (section 3.3.11 of RFC 5545) |
| CalendarIcs.ChainIsEscaped | backend/app/services/calendar_ics.py:78-83 | the four global replacements in the source's order (backslash first) equal the per-character escaping: a backslash inserted by one replacement is never escaped again |
| CalendarIcs.EscapedShape | backend/app/services/calendar_ics.py:79-82 | an escaped text has no newline, every `;` and `,` follows a backslash, and it never starts with `;` or `,` |
| CalendarIcs.UnescapeEscaped | backend/app/services/calendar_ics.py:79-82 | decoding the escapes `\\`, `\;`, `\,` and `\n` gives the original text back: escaping loses nothing |
| CalendarIcs.ParseStamp | backend/app/services/calendar_ics.py:8-16 | `strptime(f"{fecha} {hora}", "%Y-%m-%d %H:%M")`: a parse succeeds only with a valid calendar date, hour below 24 and minute below 60 |
| CalendarIcs.ParseStampInput | backend/app/services/calendar_ics.py:8-16 | the zero-padded "YYYY-MM-DD HH:MM" text of any valid stamp parses back to that stamp |
| CalendarIcs.SpacedDayIsPadded | backend/app/services/calendar_ics.py:8-16 | a blank before a one-digit day is accepted like a leading zero: "2025-03- 7 09:30" is the 7th of March |
| CalendarIcs.StampText | backend/app/services/calendar_ics.py:49-50 | the `%Y%m%dT%H%M%S` text of a valid stamp has at least 12 characters and no newline |
| CalendarIcs.ExampleStartText | backend/app/services/calendar_ics.py:49 | 2025-03-07 09:30 is written 20250307T093000 |
| CalendarIcs.AddMinutes | backend/app/services/calendar_ics.py:44 | `inicio + timedelta(minutes=n)`: the clock time is the old one plus n modulo a day, the date stays when no midnight is crossed, and the date is valid |
| CalendarIcs.ShiftDays | backend/app/services/calendar_ics.py:44 | moving a valid date by whole days gives a valid date; a shift of zero changes nothing |
| CalendarIcs.IcsLines | backend/app/services/calendar_ics.py:52-67 | 15 lines from BEGIN:VCALENDAR to END:VCALENDAR; SUMMARY, DESCRIPTION and LOCATION carry the escaped title, description and location; DTSTART and DTEND carry the TZID and the two stamps |
| CalendarIcs.CreateInvitation | backend/app/services/calendar_ics.py:19-69 | an empty title raises "El título del evento es obligatorio", then an empty date or time raises "Fecha y hora son obligatorias"; a date and time that do not parse give an error starting "Fecha u hora inválida: "; a start whose end falls outside the calendar gives "date value out of range"; it succeeds exactly when the date and time parse and the end is a valid stamp, and then the text is the invitation's lines joined by newlines with the start and start+duration stamps |
| TaskCalendar.DescriptionOf | backend/app/services/task_calendar_service.py:16 | `task.description or task.content`: the description when it is set and not empty, the content otherwise |
| TaskCalendar.GenerateIcsForTask | backend/app/services/task_calendar_service.py:5-24 | no file for a task without date or time; otherwise it fails exactly when the invitation fails (with its error) and succeeds with the invitation and the file name `evento_{fecha}_{hora}.ics`; a task with no content raises |
| TaskCalendar.NotFailSafe | backend/app/services/task_calendar_service.py:6-19 | despite the "never raises" documentation, a task with date and time but empty content gives an error |
| ClaroCountry.Base | backend/app/agents/claro/country_detector.py:36 | an accented letter decomposes to a plain lower-case letter |
| ClaroCountry.Mark | backend/app/agents/claro/country_detector.py:36 | and to a combining mark |
| ClaroCountry.Nfkd | backend/app/agents/claro/country_detector.py:36 | no accented letter survives the decomposition |
| ClaroCountry.NfkdPerChar | backend/app/agents/claro/country_detector.py:36 | each character in turn is replaced by its decomposition: an accented letter by its base letter followed by its mark, any other character by itself |
| ClaroCountry.NfkdFixed | backend/app/agents/claro/country_detector.py:36 | a text without accented letters is its own decomposition |
| ClaroCountry.DropMarks | backend/app/agents/claro/country_detector.py:37 | no combining mark remains and no accented letter is brought in, and the result is no longer than the input |
| ClaroCountry.DropMarksPerChar | backend/app/agents/claro/country_detector.py:37 | exactly the characters that are not combining marks are kept, in their order |
| ClaroCountry.DropMarksConcat | backend/app/agents/claro/country_detector.py:37 | dropping marks distributes over concatenation |
| ClaroCountry.Normalize | backend/app/agents/claro/country_detector.py:29-38 | the result is words joined by single blanks, with no accented letter or combining mark |
| ClaroCountry.NormalizeWords | backend/app/agents/claro/country_detector.py:29-38 | the words of the result are exactly the words of the lower-cased, decomposed text with its marks dropped |
| ClaroCountry.FoldAccents | backend/app/agents/claro/country_detector.py:35-37 | decomposing and then dropping the marks folds each accented letter to its base letter, character by character |
| ClaroCountry.NormalizeFolds | backend/app/agents/claro/country_detector.py:29-38 | `normalize` is `" ".join(...split())` of the lower-cased text folded character by character |
| ClaroCountry.PlainFixed | backend/app/agents/claro/country_detector.py:35-37 | a text without accents or marks is left as it is by the folding |
| ClaroCountry.PlainContains | backend/app/agents/claro/country_detector.py:35-37 | folding keeps every occurrence of an unaccented word |
| ClaroCountry.NameSurvives | backend/app/agents/claro/country_detector.py:29-38 | an unaccented word found in the lower-cased message is found in the normalised one |
| ClaroCountry.FirstCode | backend/app/agents/claro/country_detector.py:45-49 | the code of the first name in table order that occurs, and unknown exactly when none does |
| ClaroCountry.CodesWellFormed | backend/app/agents/claro/country_detector.py:3-26 | every name has a code, and unknown is none of them |
| ClaroCountry.DetectCountry | backend/app/agents/claro/country_detector.py:41-49 | the code of the first table name in the normalised message, unknown exactly when none occurs |
| ClaroCountry.FirstNameWins | backend/app/agents/claro/country_detector.py:45-49 | when the table's first name occurs, its code is returned |
| ClaroCountry.ArgentinaDetected | backend/app/agents/claro/country_detector.py:29-49 | any message containing "Argentina" in any letter case is detected as "ar" |
| ClaroCountry.NoAccentNoMatch | backend/app/agents/claro/country_detector.py:36-47 | a name holding an accented letter cannot occur in normalised text |
| ClaroCountry.AccentedNamesNeverMatch | backend/app/agents/claro/country_detector.py:15-25 | "perú", "república dominicana" and "españa" never match, and their plain spellings carry the same codes |
| ClaroCountry.AccentedNamesNeverIn | backend/app/agents/claro/country_detector.py:36-47 | a text without accents or marks holds none of the names "perú", "república dominicana" and "españa" |
| ClaroCollections.ResolveVectorConfig | backend/app/agents/claro/claro_collections.py:9-55 | a configuration exactly for Argentina, Colombia and Brazil, with their collection and index names |
| ClaroCollections.ResolveCollection | backend/app/agents/claro/claro_collections.py:34-40 | the configured collection, and None exactly for the other countries |
| ClaroCollections.ResolveVectorIndex | backend/app/agents/claro/claro_collections.py:42-48 | the configured index, and None exactly for the other countries |
| ClaroCollections.ResolversAgree | backend/app/agents/claro/claro_collections.py:34-55 | the three resolvers succeed together and agree with the configuration |
| ClaroCollections.DetectedCountryResolves | backend/app/agents/claro/claro_collections.py:9-55 | of the detected codes only ar, co and br have a knowledge base, and unknown has none |
| Chunking.PiecesCount | pruebas-exploratorias/vector-storage-p1.py:94-95 | there are as many pieces as it takes to hold all words n at a time, and no more |
| Chunking.FirstPiece | pruebas-exploratorias/vector-storage-p1.py:95 | the first piece is the first n words joined by blanks, and it splits back into them |
| Chunking.PiecesSize | pruebas-exploratorias/vector-storage-p1.py:94-95 | every piece has between one and n words |
| Chunking.PiecesWords | pruebas-exploratorias/vector-storage-p1.py:94-95 | the pieces' words, in order, are the words of the text |
| Chunking.ChunkText | pruebas-exploratorias/vector-storage-p1.py:86-95 | a missing, empty or blank text yields nothing; a zero step raises exactly when there are words; a positive step gives the fewest pieces that hold them |
| Chunking.ChunksKeepWords | pruebas-exploratorias/vector-storage-p1.py:86-95 | with a positive step each chunk has one to max_tokens words, and together they are the words of the text |
| Scraping.StripKeepsNoDouble | pruebas-exploratorias/scraping_telcel.py:8 | stripping keeps a text free of doubled whitespace |
| Scraping.KeepStripRight | pruebas-exploratorias/scraping_telcel.py:8 | stripping the right end removes only whitespace |
| Scraping.StripKeeps | pruebas-exploratorias/scraping_telcel.py:8 | stripping removes only whitespace |
| Scraping.LimpiarTexto | pruebas-exploratorias/scraping_telcel.py:5-8 | a missing or empty text reads N/A; otherwise no whitespace at either end, none doubled, no white space but the blank (so single blanks between words), and the same non-blank characters in order |
| Scraping.StripLeftAll | pruebas-exploratorias/scraping_telcel.py:8 | a blank text strips to nothing |
| Scraping.BlankIsEmpty | pruebas-exploratorias/scraping_telcel.py:7-8 | a non-empty blank text cleans to "" rather than N/A |
| AprendeSemantic.SkipSpace | backend/app/services/aprende_semantic_service.py:17-32 | the `\s*` run is maximal |
| AprendeSemantic.DigitsEnd | backend/app/services/aprende_semantic_service.py:17-32 | the `\d+` run is maximal |
| AprendeSemantic.DigitsAt | backend/app/services/aprende_semantic_service.py:17-32 | a captured group is a digit-only id that occurs in the text |
| AprendeSemantic.MatchAt | backend/app/services/aprende_semantic_service.py:17-32 | a pattern matching at a position captures an id occurring in the text |
| AprendeSemantic.Search | backend/app/services/aprende_semantic_service.py:78 | a search finds an id occurring in the text |
| AprendeSemantic.FirstMatch | backend/app/services/aprende_semantic_service.py:77-83 | the id of the first pattern, in list order, that matches, and none exactly when no pattern does |
| AprendeSemantic.ExtractCourseId | backend/app/services/aprende_semantic_service.py:72-83 | an empty text has no id; otherwise the first pattern's match, a digit-only id found in the text |
| AprendeSemantic.Gather | backend/app/services/aprende_semantic_service.py:131-143 | the id found while reading the parts is digit-only |
| AprendeSemantic.ItemId | backend/app/services/aprende_semantic_service.py:131-147 | the id of a hit, from a part or from the whole text, is digit-only |
| AprendeSemantic.CourseName | backend/app/services/aprende_semantic_service.py:43-47 | "Curso " followed by the id |
| AprendeSemantic.Preview | backend/app/services/aprende_semantic_service.py:170 | at most 203 characters, the text itself when short, its first 200 characters and an ellipsis otherwise |
| AprendeSemantic.Process | backend/app/services/aprende_semantic_service.py:108-171 | a low score or non-list content gives nothing; a kept hit is new, at or above the threshold, with a digit-only id and its catalogue name; nothing otherwise only for no id or a repeated one |
| AprendeSemantic.GatherStep | backend/app/services/aprende_semantic_service.py:134-143 | empty parts are skipped, a part with an id ends the scan, any other is appended with a blank |
| AprendeSemantic.ProcessOf | backend/app/services/aprende_semantic_service.py:130-171 | a hit passing the score test is kept exactly when its id is found and new |
| AprendeSemantic.ProcessSearchItem | backend/app/services/aprende_semantic_service.py:108-175 | the loop over the parts computes the hit's course and adds its id to the seen ids |
| AprendeSemantic.CollectStep | backend/app/services/aprende_semantic_service.py:308-326 | each hit is processed against the ids kept so far and the scan stops once 2k results are in hand |
| AprendeSemantic.CollectKept | backend/app/services/aprende_semantic_service.py:305-326 | the preliminary results have distinct ids and all pass the threshold |
| AprendeSemantic.CollectBound | backend/app/services/aprende_semantic_service.py:322-326 | the preliminary results never exceed what the early stop allows |
| AprendeSemantic.StopsEarly | backend/app/services/aprende_semantic_service.py:322-326 | hits after the early stop are never read |
| AprendeSemantic.Insert | backend/app/services/aprende_semantic_service.py:329 | inserting adds exactly one element |
| AprendeSemantic.InsertSorted | backend/app/services/aprende_semantic_service.py:329 | inserting keeps the order by descending score |
| AprendeSemantic.SortDesc | backend/app/services/aprende_semantic_service.py:329 | the sort is a permutation ordered by descending score |
| AprendeSemantic.SortUnique | backend/app/services/aprende_semantic_service.py:329 | sorting keeps ids distinct |
| AprendeSemantic.SortKept | backend/app/services/aprende_semantic_service.py:329-335 | sorting keeps every course above the threshold |
| AprendeSemantic.PySlice | backend/app/services/aprende_semantic_service.py:338 | `[:k]` keeps a prefix: k elements for k >= 0, all but the last -k otherwise |
| AprendeSemantic.FilterKeepsAll | backend/app/services/aprende_semantic_service.py:331-335 | the threshold filter removes nothing, since the scan already skipped low scores |
| AprendeSemantic.FinalProperties | backend/app/services/aprende_semantic_service.py:328-338 | the result is best first, ids distinct, all at or above the threshold, at most k (none for k <= 0), a prefix of the sorted results |
| AprendeSemantic.SemanticSearchService.constructor | backend/app/services/aprende_semantic_service.py:36-40 | the threshold starts at 0.3 |
| AprendeSemantic.SemanticSearchService.SearchCourses | backend/app/services/aprende_semantic_service.py:224-361 | a blank query or an unavailable store gives nothing and leaves the threshold; a min_score replaces it for later calls; an exception gives nothing; otherwise the scan, sort, filter and cut above |
| FlaskApp.DetectCountry | backend/flask_app.py:596-621 | the first country in table order with a keyword in the lower-cased text, none exactly when no keyword occurs |
| FlaskApp.DetectHealthTopic | backend/flask_app.py:634-650 | the first health topic with a keyword in the text, none exactly when no keyword occurs |
| FlaskApp.DetectEducationTopic | backend/flask_app.py:652-669 | the first education topic with a keyword in the text, none exactly when no keyword occurs |
| FlaskApp.DetectOperator | backend/flask_app.py:623-632 | claro before telcel before a1, each in both directions, none when no name occurs |
| FlaskApp.ExtractRelevantUrls | backend/flask_app.py:671-741 | no URL repeats, an empty table gives none, and the URLs are exactly those the detected topic, country and operator select |
| FlaskApp.HealthPreempts | backend/flask_app.py:683-699 | a health topic decides the URLs alone |
| FlaskApp.TelcelGivesTelcelList | backend/flask_app.py:726-739 | without a topic, Telcel gives its own list, non-empty when the list is |
| FlaskApp.ExtractRelevantUrlsAsWritten | backend/flask_app.py:671-674 | every call raises NameError, since the table is bound to another name |
| FlaskApp.GetContextForQueryAsWritten | backend/flask_app.py:743-746 | every call raises NameError for the same reason |
| FlaskApp.OrFallback | backend/flask_app.py:58-70 | the wrappers return the call's value, or their fallback when it raises |
| FlaskApp.SafeExtractRelevantUrls | backend/flask_app.py:58-63 | the guarded call always raises as written, so the wrapper always gives no URLs |
| FlaskApp.SafeGetContextForQuery | backend/flask_app.py:65-70 | the guarded call always raises as written, so the wrapper always gives "Información general disponible" |
| FlaskApp.WrappersNeverSucceed | backend/flask_app.py:58-75 | as written the wrappers always give no URLs and the general context |
| FlaskApp.Remember | backend/flask_app.py:940-948 | the message is appended and at most the last three are kept |
| FlaskApp.Previous | backend/flask_app.py:932-934 | the previous messages are the last three of the memory |
| FlaskApp.RememberAfterPrevious | backend/flask_app.py:930-948 | the new memory is the previous messages, less the oldest when there were three, with the message appended |
| FlaskApp.UrlsText | backend/flask_app.py:958-963 | no URLs give the invitation to explore |
| FlaskApp.SentMessages | backend/flask_app.py:954-985 | the system prompt with the fallback context first, the message last, and between them only previous messages that are not blank and differ from it |
| FlaskApp.Outcome | backend/flask_app.py:987-1016 | a failing model call is a 500 with its text; otherwise the answer, the context, at most five URLs and the previous messages |
| FlaskApp.ChatServer.constructor | backend/flask_app.py:909-1016 | the memory starts empty |
| FlaskApp.ChatServer.Chat | backend/flask_app.py:909-1016 | 503 without a model and 400 for an empty message, memory untouched; otherwise the message is remembered before the call and the reply is the outcome of the model on the sent list |

## Left out

- Language-model, vector-store, web-search, scraper and HTTP calls are not modelled. Their results (answers, intent JSON, normalised dates, search hits, scraped media) are parameters, and so are raised exceptions where the source catches them.
- Logging, `print`, `verbose` output, Flask and FastAPI routing, request parsing, and the JSON serialisation of replies are left out. Replies are Dafny datatypes or maps.
- Clocks, UUIDs and the date library are parameters or left out. Dates are integer day numbers with a weekday function. The JavaScript `Date` constructor's normalisation of out-of-range fields is not modelled. The DTSTAMP, UID and DTEND lines of the client's iCalendar file are left out.
- Floating-point values are not modelled as floats. Vector-store scores are `real` and only their order matters. Durations are integer minutes.
- Unicode is covered only in part. Case mapping covers ASCII and Latin-1, and NFKD decomposition covers the accented Latin-1 letters. JavaScript's `\w` (no `u` flag) is the ASCII letters, digits and underscore. Python's `\w` is modelled as those plus the Latin-1 and Latin Extended-A letters; its letters and digits from other scripts are left out. `\d` is the ASCII digits in both; Python's other Unicode decimal digits are left out.
- JavaScript string lengths are counted in code points. JavaScript counts UTF-16 code units, so lengths differ for characters outside the Basic Multilingual Plane.
- Browser storage is an in-memory value. Its JSON encoding, quota errors and the DOM (toasts, modals, downloads, `escapeHtml` in taskManager.js) are left out.
- Prompts.Format: only plain field names are formatted. Positional fields and fields with a conversion, a format spec, an attribute or an index all count as failures. The prompt prose itself is a parameter.
- FlaskApp.ExtractRelevantUrls: states which URLs are returned and that none repeats, but not their order. `list(set(...))` in the source leaves the order unspecified.
- FlaskApp.ChatServer.Chat: the branch where computing the client key raises is not modelled. The key is a parameter.
- AprendeSemantic.SortDesc: states the permutation and the descending order of scores, not the order among equal scores.
- TaskQuery.Sort: states the permutation and the order by key, not the order among equal keys.
- AprendeSemantic.SemanticSearchService.SearchCourses: reading hits and parts from response objects (`_resp_to_dict`, `_extract_text_from_content`) is not modelled. A hit is given with its score and the texts of its parts.
- AprendeResources.AskAboutVectorStore: a scraper answer without a "url" field is not modelled. The scraper returns the content type and its address, or fails.
- `procesar_chat_web` (backend/app/services/cerebro_service.py) is not modelled as a whole, because as written it cannot run. It imports names prompt_service.py does not define. It calls `is_aprende_intent` with an `action` argument that the one-argument version does not accept. It calls `append_memory` with a `role` argument (lines 231-235) that memory_service.py:70 does not accept, which raises TypeError. It calls `run_web_chat` with a `messages` argument. Only its task-query, cancellation and reply helpers are modelled.
- `build_aprende_iframe_response` (backend/app/services/cerebro_service.py:131-194) is not modelled. It only assembles an iframe reply around the course search results.
- CalendarIcs.CreateInvitation: a date or time that does not parse gives only the prefix "Fecha u hora inválida: ", not the `strptime` message that follows it. An end outside the years 1 to 9999 gives the text of the `OverflowError` that `timedelta` addition raises, as a failure rather than a distinct exception type.
- CalendarIcs.ParseStamp: only ASCII digits are read. `strptime` also accepts other Unicode decimal digits.
- Chunking.ChunkText: the generator is modelled as the list of what it yields. Laziness is not captured.
- backend/calendar_ics.py, the older calendar file builder, is not part of this model.

## Findings

| source | as written | input that shows it | evidently intended | confidence | as-written member | corrected member |
|---|---|---|---|---|---|---|
| frontend/js/modules/taskManager.js:277 | the alternation lists `agenda` before `agendar`, so the leading-verb strip removes only "agenda" | "agendar comida" becomes "r comida" | strip the whole verb, "comida" | not executed | TaskManager.CleanAgendarAsWritten | TaskManager.AgendarStripped |
| frontend/js/calendar.js:311-317 | the period test looks for "pm" and "am" as substrings, which "p.m." and "a.m." do not contain | "3 p.m." stays at hour 3 | hour 15 | not executed | Calendar.TimeOfDottedPm | Calendar.Hour24 |
| backend/flask_app.py:75 | the URL table is bound to `RLS`, while `extract_relevant_urls` and `get_context_for_query` read `URLS` (lines 674 and 746), so every call raises NameError and the safe wrappers always fall back | any prompt, e.g. "planes telcel", gets no URLs and the general context | the table's URLs for the detected topic, country and operator | not executed | FlaskApp.WrappersNeverSucceed | FlaskApp.ExtractRelevantUrls |
