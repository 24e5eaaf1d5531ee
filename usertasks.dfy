/** The server's task records and the per-user task store: a dictionary from
    a user key to the list of that user's tasks, appended to as tasks are
    completed and filtered when one is deleted. */
module UserTasks {
  import opened Wrappers
  import Lists

  /** A stored task. The type, the status and the meeting type are the texts
      the services put there ("reminder" / "calendar" / "note", "created" /
      "active" / "completed", "virtual" / "presencial"); the id and the
      creation time come from the id generator and the clock and are given. */
  datatype Task = Task(
    id: string,
    userKey: string,
    kind: string,
    content: string,
    description: Option<string>,
    meetingType: Option<string>,
    meetingLink: Option<string>,
    location: Option<string>,
    fecha: Option<string>,
    hora: Option<string>,
    status: string,
    createdAt: int)

  /** A task with the record's defaults: an empty user key and content, type
      "note", status "active", nothing else set. */
  function DefaultTask(id: string, createdAt: int): (t: Task)
    ensures t.id == id && t.createdAt == createdAt
    ensures t.userKey == "" && t.kind == "note" && t.content == "" && t.status == "active"
    ensures t.description.None? && t.meetingType.None? && t.meetingLink.None?
    ensures t.location.None? && t.fecha.None? && t.hora.None?
  {
    Task(id, "", "note", "", None, None, None, None, None, None, "active", createdAt)
  }

  /** `_TASKS.get(user_key, [])`. */
  function TasksOf(store: map<string, seq<Task>>, user: string): (r: seq<Task>)
    ensures user in store ==> r == store[user]
    ensures user !in store ==> r == []
  {
    if user in store then store[user] else []
  }

  predicate OfKind(kind: string, t: Task) {
    t.kind == kind
  }

  function OfKindFn(kind: string): Task -> bool {
    t => OfKind(kind, t)
  }

  predicate IsActive(t: Task) {
    t.status == "active"
  }

  function IsActiveFn(): Task -> bool {
    t => IsActive(t)
  }

  /** The test `delete_task_by_id` keeps a task by: not both that id and that
      user. */
  predicate Kept(id: string, user: string, t: Task) {
    !(t.id == id && t.userKey == user)
  }

  function KeptFn(id: string, user: string): Task -> bool {
    t => Kept(id, user, t)
  }

  /** `[t for t in tasks if t.type == kind]`: the tasks of that type, in order. */
  function ByKind(tasks: seq<Task>, kind: string): (r: seq<Task>)
    ensures |r| <= |tasks|
    ensures forall i :: 0 <= i < |r| ==> r[i].kind == kind && r[i] in tasks
    ensures forall t :: t in tasks && t.kind == kind ==> t in r
  {
    var p := OfKindFn(kind);
    assert forall t :: p(t) == (t.kind == kind);
    Lists.Filter(p, tasks)
  }

  /** `[t for t in tasks if t.status == "active"]`. */
  function Active(tasks: seq<Task>): (r: seq<Task>)
    ensures |r| <= |tasks|
    ensures forall i :: 0 <= i < |r| ==> r[i].status == "active" && r[i] in tasks
    ensures forall t :: t in tasks && t.status == "active" ==> t in r
  {
    var p := IsActiveFn();
    assert forall t :: p(t) == (t.status == "active");
    Lists.Filter(p, tasks)
  }

  /** The list `delete_task_by_id` keeps. */
  function Without(tasks: seq<Task>, id: string, user: string): (r: seq<Task>)
    ensures |r| <= |tasks|
    ensures forall i :: 0 <= i < |r| ==> !(r[i].id == id && r[i].userKey == user) && r[i] in tasks
    ensures forall t :: t in tasks && !(t.id == id && t.userKey == user) ==> t in r
  {
    var p := KeptFn(id, user);
    assert forall t :: p(t) == !(t.id == id && t.userKey == user);
    Lists.Filter(p, tasks)
  }

  /** The three buckets of `get_tasks_grouped`. */
  datatype Grouped = Grouped(calendar: seq<Task>, reminder: seq<Task>, note: seq<Task>)

  function Group(tasks: seq<Task>): (g: Grouped)
    ensures g.calendar == ByKind(tasks, "calendar")
    ensures g.reminder == ByKind(tasks, "reminder")
    ensures g.note == ByKind(tasks, "note")
  {
    Grouped(ByKind(tasks, "calendar"), ByKind(tasks, "reminder"), ByKind(tasks, "note"))
  }

  /** A bucket keeps the order of the list: bucketing a concatenation buckets
      each part. */
  lemma ByKindConcat(a: seq<Task>, b: seq<Task>, kind: string)
    ensures ByKind(a + b, kind) == ByKind(a, kind) + ByKind(b, kind)
  {
    Lists.FilterConcat(OfKindFn(kind), a, b);
  }

  /** A task of another type is dropped from every bucket it does not name:
      a task whose type is none of the three appears in no bucket. */
  lemma OtherKindsDropped(tasks: seq<Task>, t: Task)
    requires t.kind != "calendar" && t.kind != "reminder" && t.kind != "note"
    ensures t !in Group(tasks).calendar && t !in Group(tasks).reminder && t !in Group(tasks).note
  {
    var g := Group(tasks);
    assert forall i :: 0 <= i < |g.calendar| ==> g.calendar[i].kind == "calendar";
    assert forall i :: 0 <= i < |g.reminder| ==> g.reminder[i].kind == "reminder";
    assert forall i :: 0 <= i < |g.note| ==> g.note[i].kind == "note";
  }

  /** Deleting keeps the other tasks in order: deleting from a concatenation
      deletes from each part. */
  lemma WithoutConcat(a: seq<Task>, b: seq<Task>, id: string, user: string)
    ensures Without(a + b, id, user) == Without(a, id, user) + Without(b, id, user)
  {
    Lists.FilterConcat(KeptFn(id, user), a, b);
  }

  /** A list that holds no task with that id and user loses nothing. */
  lemma WithoutAbsent(tasks: seq<Task>, id: string, user: string)
    requires forall i :: 0 <= i < |tasks| ==> !(tasks[i].id == id && tasks[i].userKey == user)
    ensures Without(tasks, id, user) == tasks
  {
    var p := KeptFn(id, user);
    assert forall i :: 0 <= i < |tasks| ==> p(tasks[i]);
    Lists.FilterAll(p, tasks);
  }

  /** Deleting an appended task that is the only one with its id gives the
      list from before the append back. */
  lemma AddThenDelete(tasks: seq<Task>, t: Task)
    requires forall i :: 0 <= i < |tasks| ==> !(tasks[i].id == t.id && tasks[i].userKey == t.userKey)
    ensures Without(tasks + [t], t.id, t.userKey) == tasks
  {
    WithoutConcat(tasks, [t], t.id, t.userKey);
    WithoutAbsent(tasks, t.id, t.userKey);
    Lists.FilterCons(KeptFn(t.id, t.userKey), [t]);
    assert [t][1..] == [];
  }

  /** The server's task dictionary. */
  class TaskStore {
    var tasks: map<string, seq<Task>>

    constructor ()
      ensures tasks == map[]
    {
      tasks := map[];
    }

    /** `add_task`: the task goes at the end of its own user's list; no other
        user's list changes. */
    method AddTask(task: Task)
      modifies this
      ensures tasks == old(tasks)[task.userKey := TasksOf(old(tasks), task.userKey) + [task]]
      ensures TasksOf(tasks, task.userKey) == TasksOf(old(tasks), task.userKey) + [task]
      ensures forall u :: u != task.userKey ==> TasksOf(tasks, u) == TasksOf(old(tasks), u)
    {
      var list := if task.userKey in tasks then tasks[task.userKey] else [];
      tasks := tasks[task.userKey := list + [task]];
    }

    /** `get_tasks`: an unknown user has no tasks. */
    method GetTasks(user: string) returns (r: seq<Task>)
      ensures r == TasksOf(tasks, user)
      ensures user !in tasks ==> r == []
    {
      if user in tasks {
        r := tasks[user];
      } else {
        r := [];
      }
    }

    method GetTasksGrouped(user: string) returns (g: Grouped)
      ensures g == Group(TasksOf(tasks, user))
    {
      var list := GetTasks(user);
      g := Grouped(ByKind(list, "calendar"), ByKind(list, "reminder"), ByKind(list, "note"));
    }

    method GetTasksByType(user: string, kind: string) returns (r: seq<Task>)
      ensures r == ByKind(TasksOf(tasks, user), kind)
    {
      var list := GetTasks(user);
      r := ByKind(list, kind);
    }

    method GetActiveTasks(user: string) returns (r: seq<Task>)
      ensures r == Active(TasksOf(tasks, user))
    {
      var list := GetTasks(user);
      r := Active(list);
    }

    /** `delete_task_by_id`: the user's list loses exactly the tasks with
        that id; a list left empty takes its key with it. */
    method DeleteTaskById(id: string, user: string)
      modifies this
      ensures Without(TasksOf(old(tasks), user), id, user) != [] ==>
        tasks == old(tasks)[user := Without(TasksOf(old(tasks), user), id, user)]
      ensures Without(TasksOf(old(tasks), user), id, user) == [] ==> tasks == old(tasks) - {user}
      ensures TasksOf(tasks, user) == Without(TasksOf(old(tasks), user), id, user)
      ensures forall u :: u != user ==> TasksOf(tasks, u) == TasksOf(old(tasks), u)
    {
      var list := if user in tasks then tasks[user] else [];
      var filtered := Without(list, id, user);
      if filtered != [] {
        tasks := tasks[user := filtered];
      } else {
        tasks := tasks - {user};
      }
    }

    /** `clear_tasks`: the user's key goes. */
    method ClearTasks(user: string)
      modifies this
      ensures tasks == old(tasks) - {user}
      ensures TasksOf(tasks, user) == []
      ensures forall u :: u != user ==> TasksOf(tasks, u) == TasksOf(old(tasks), u)
    {
      tasks := tasks - {user};
    }
  }
}
