/** The client's task store (`taskStore` of the state module): installing a
    list, the upsert by id or by content signature, and removal by id.
    A task is a JavaScript object seen as a map from field names to string
    values; the spread `{...a, ...b}` is the right-biased map union `a + b`. */
module TaskStore {
  import opened Wrappers
  import opened Text
  import Lists

  type Fields = map<string, string>

  /** `o?.k || ''`: the field's value, or "" when it is missing. */
  function Field(o: Fields, k: string): string {
    if k in o then o[k] else ""
  }

  /** The field is present and not the empty string (JavaScript truthiness). */
  predicate Truthy(o: Fields, k: string) {
    k in o && o[k] != ""
  }

  /** The lower-cased `type|content|fecha|hora|meeting_type|location`. */
  function Signature(t: Fields): (r: string)
    ensures r != []
  {
    assert |SigText(t)| >= 5;
    LowerStr(SigText(t))
  }

  function SigText(t: Fields): string {
    Field(t, "type") + "|" + Field(t, "content") + "|" + Field(t, "fecha") + "|"
    + Field(t, "hora") + "|" + Field(t, "meeting_type") + "|" + Field(t, "location")
  }

  /** The `findIndex` test of `addTask`: the same id; or, for a task without
      id, the same signature; or a stored `_sig` equal to the new signature. */
  predicate Matches(task: Fields, sig: string, t: Fields) {
    (Truthy(task, "id") && "id" in t && t["id"] == task["id"])
    || (!Truthy(task, "id") && Signature(t) == sig)
    || (Truthy(t, "_sig") && t["_sig"] == sig)
  }

  /** The `findIndex` callback for a given task. */
  function MatchFn(task: Fields): Fields -> bool {
    t => Matches(task, Signature(task), t)
  }

  /** The entry `addTask` writes: the old fields, then the task's, then `_sig`. */
  function Tagged(base: Fields, task: Fields): (r: Fields)
    ensures "_sig" in r && r["_sig"] == Signature(task)
    ensures forall k :: k in task && k != "_sig" ==> k in r && r[k] == task[k]
    ensures forall k :: k in base && k !in task && k != "_sig" ==> k in r && r[k] == base[k]
    ensures r.Keys == base.Keys + task.Keys + {"_sig"}
  {
    base + task + map["_sig" := Signature(task)]
  }

  /** Some entry of the store carries `sig` as its `_sig`. */
  predicate Carries(store: seq<Fields>, sig: string) {
    exists j :: 0 <= j < |store| && "_sig" in store[j] && store[j]["_sig"] == sig
  }

  lemma CarriesAt(store: seq<Fields>, k: nat, sig: string)
    requires k < |store| && "_sig" in store[k] && store[k]["_sig"] == sig
    ensures Carries(store, sig)
  {
  }

  /** Overwriting an entry the task matches leaves every other entry alone. */
  lemma ReplaceMatched(store: seq<Fields>, task: Fields, i: nat, t: Fields)
    requires i < |store| && Matches(task, Signature(task), store[i])
    ensures forall j :: 0 <= j < |store| && !Matches(task, Signature(task), store[j]) ==> store[i := t][j] == store[j]
  {
  }

  /** The store after `addTask(task)`: it grows by at most one entry, only an
      entry the task matches can change, and afterwards some entry carries
      the task's signature as `_sig`. */
  function Upsert(store: seq<Fields>, task: Fields): (r: seq<Fields>)
    ensures |store| <= |r| <= |store| + 1
    ensures forall j :: 0 <= j < |store| && !Matches(task, Signature(task), store[j]) ==> r[j] == store[j]
    ensures Carries(r, Signature(task))
  {
    match Lists.FindFirst(MatchFn(task), store)
    case Some(i) =>
      var t := Tagged(store[i], task);
      assert Matches(task, Signature(task), store[i]) by { assert MatchFn(task)(store[i]); }
      ReplaceMatched(store, task, i, t);
      CarriesAt(store[i := t], i, Signature(task));
      store[i := t]
    case None =>
      var t := Tagged(map[], task);
      CarriesAt(store + [t], |store|, Signature(task));
      store + [t]
  }

  /** The first matching entry is overwritten in place; nothing else changes. */
  lemma UpsertMatch(store: seq<Fields>, task: Fields, i: nat)
    requires i < |store| && Matches(task, Signature(task), store[i])
    requires forall j :: 0 <= j < i ==> !Matches(task, Signature(task), store[j])
    ensures Upsert(store, task) == store[i := Tagged(store[i], task)]
  {
    var p := MatchFn(task);
    assert p(store[i]);
    assert forall j :: 0 <= j < i ==> !p(store[j]);
    Lists.FindIsFirst(p, store, i);
    assert Lists.FindFirst(p, store).value == i;
  }

  /** With no matching entry, exactly one tagged copy is appended. */
  lemma UpsertAppend(store: seq<Fields>, task: Fields)
    requires forall j :: 0 <= j < |store| ==> !Matches(task, Signature(task), store[j])
    ensures Upsert(store, task) == store + [Tagged(map[], task)]
  {
    var p := MatchFn(task);
    assert forall j :: 0 <= j < |store| ==> !p(store[j]);
  }

  /** Adding the same task twice is adding it once: the second call finds
      the entry the first one tagged. */
  lemma UpsertTwice(store: seq<Fields>, task: Fields)
    ensures Upsert(Upsert(store, task), task) == Upsert(store, task)
  {
    var r := Upsert(store, task);
    match Lists.FindFirst(MatchFn(task), store)
    case Some(i) =>
      UpsertMatch(store, task, i);
      SecondFinds(store, r, task, i);
      TaggedTwice(store[i], task);
    case None =>
      UpsertAppend(store, task);
      SecondFinds(store, r, task, |store|);
      TaggedTwice(map[], task);
  }

  /** After the first call, the entry it tagged at k is the first match. */
  lemma SecondFinds(store: seq<Fields>, r: seq<Fields>, task: Fields, k: nat)
    requires k < |r| && k <= |store| && "_sig" in r[k] && r[k]["_sig"] == Signature(task)
    requires forall j :: 0 <= j < k ==> r[j] == store[j] && !Matches(task, Signature(task), store[j])
    ensures Upsert(r, task) == r[k := Tagged(r[k], task)]
  {
    UpsertMatch(r, task, k);
  }

  lemma TaggedTwice(base: Fields, task: Fields)
    ensures Tagged(Tagged(base, task), task) == Tagged(base, task)
  {
  }

  /** `t?.id !== taskId`. */
  predicate KeptBy(id: string, t: Fields) {
    !("id" in t && t["id"] == id)
  }

  /** The `filter` callback of `removeTask`. */
  function KeepFn(id: string): Fields -> bool {
    t => KeptBy(id, t)
  }

  /** The store after `removeTask(id)`. */
  function Remove(store: seq<Fields>, id: string): (r: seq<Fields>)
    ensures id == "" ==> r == store
    ensures id != "" ==> forall i :: 0 <= i < |r| ==> KeptBy(id, r[i])
    ensures forall t :: t in store && KeptBy(id, t) ==> t in r
  {
    if id == "" then store
    else
      var p := KeepFn(id);
      assert forall t :: p(t) == KeptBy(id, t);
      Lists.Filter(p, store)
  }

  /** Removing an id nothing carries keeps the store as it was. */
  lemma RemoveAbsent(store: seq<Fields>, id: string)
    requires forall i :: 0 <= i < |store| ==> KeptBy(id, store[i])
    ensures Remove(store, id) == store
  {
    if id != "" {
      Lists.FilterAll(KeepFn(id), store);
    }
  }

  /** Removal keeps the order: removing from a concatenation removes from
      each part. */
  lemma RemoveConcat(a: seq<Fields>, b: seq<Fields>, id: string)
    ensures Remove(a + b, id) == Remove(a, id) + Remove(b, id)
  {
    if id != "" {
      Lists.FilterConcat(KeepFn(id), a, b);
    }
  }

  class Store {
    var tasks: seq<Fields>

    constructor ()
      ensures tasks == []
    {
      tasks := [];
    }

    /** `setTaskStore`: an array replaces the store, anything else empties it. */
    method SetTaskStore(newStore: Option<seq<Fields>>) returns (r: seq<Fields>)
      modifies this
      ensures tasks == (if newStore.Some? then newStore.value else [])
      ensures r == tasks
    {
      tasks := if newStore.Some? then newStore.value else [];
      r := tasks;
    }

    /** `addTask`: a missing task leaves the store as it was. */
    method AddTask(task: Option<Fields>) returns (r: seq<Fields>)
      modifies this
      ensures tasks == (if task.Some? then Upsert(old(tasks), task.value) else old(tasks))
      ensures r == tasks
    {
      if task.None? {
        return tasks;
      }
      var t := task.value;
      var existing := Lists.FindFirst(MatchFn(t), tasks);
      if existing.Some? {
        var i := existing.value;
        tasks := tasks[i := Tagged(tasks[i], t)];
        return tasks;
      }
      tasks := tasks + [Tagged(map[], t)];
      r := tasks;
    }

    /** `removeTask`: an empty id leaves the store as it was. */
    method RemoveTask(id: string) returns (r: seq<Fields>)
      modifies this
      ensures tasks == Remove(old(tasks), id)
      ensures id == "" ==> tasks == old(tasks)
      ensures r == tasks
    {
      if id == "" {
        return tasks;
      }
      tasks := Lists.Filter(KeepFn(id), tasks);
      r := tasks;
    }
  }
}
