/** The task store: the ordered collection of tasks the whole application
    reads and changes, the transforms each operation applies to it, and the
    durable slot every change is written to. */
module TaskService {
  import opened Seqs

  /** A point in time, in milliseconds since the epoch (a JavaScript `Date`). */
  type Timestamp = int

  datatype Task = Task(
    id: int,
    title: string,
    description: string,
    dueDate: string,
    priority: string,
    status: string,
    createdAt: Timestamp,
    lastUpdated: Timestamp)

  /** What a caller hands to `addTask`: a task without its id and timestamps. */
  datatype Draft = Draft(
    title: string,
    description: string,
    dueDate: string,
    priority: string,
    status: string)

  /** A `Partial<Task>`: `Some` for every field the patch object carries. */
  datatype Patch = Patch(
    id: Option<int>,
    title: Option<string>,
    description: Option<string>,
    dueDate: Option<string>,
    priority: Option<string>,
    status: Option<string>,
    createdAt: Option<Timestamp>,
    lastUpdated: Option<Timestamp>)

  const EmptyPatch := Patch(None, None, None, None, None, None, None, None)

  /** The patch `{ status: s }`. */
  function StatusPatch(s: string): Patch {
    EmptyPatch.(status := Some(s))
  }

  // ---------------------------------------------------------------------------
  // Creating a task

  /** The draft part of a task: everything but the id and the timestamps. */
  function DraftOf(t: Task): Draft {
    Draft(t.title, t.description, t.dueDate, t.priority, t.status)
  }

  /** `{ ...draft, id: Date.now(), createdAt: new Date(), lastUpdated: new Date() }`. */
  function NewTask(d: Draft, now: Timestamp): (t: Task)
    ensures DraftOf(t) == d
    ensures t.id == now && t.createdAt == now && t.lastUpdated == now
  {
    Task(now, d.title, d.description, d.dueDate, d.priority, d.status, now, now)
  }

  // ---------------------------------------------------------------------------
  // Selecting tasks by id

  function IdIs(id: int): Task -> bool {
    (t: Task) => t.id == id
  }

  function IdIsNot(id: int): Task -> bool {
    (t: Task) => t.id != id
  }

  /** `getTaskById`: the first task with this id, if there is one. */
  function FindById(ts: seq<Task>, id: int): (r: Option<Task>)
    ensures r.None? <==> forall t :: t in ts ==> t.id != id
    ensures r.Some? ==> r.value in ts && r.value.id == id
    ensures forall i :: 0 <= i < |ts| && ts[i].id == id && (forall j :: 0 <= j < i ==> ts[j].id != id) ==>
      r == Some(ts[i])
  {
    Find(IdIs(id), ts)
  }

  // ---------------------------------------------------------------------------
  // Changing the status

  function StatusUpdater(id: int, s: string, now: Timestamp): Task -> Task {
    (t: Task) => if t.id == id then t.(status := s, lastUpdated := now) else t
  }

  /** The collection after `updateTaskStatus(id, s)` at time `now`. */
  function SetStatusById(ts: seq<Task>, id: int, s: string, now: Timestamp): (r: seq<Task>)
    ensures |r| == |ts|
    ensures forall i :: 0 <= i < |ts| && ts[i].id == id ==>
      r[i].status == s && r[i].lastUpdated == now &&
      r[i].(status := ts[i].status, lastUpdated := ts[i].lastUpdated) == ts[i]
    ensures forall i :: 0 <= i < |ts| && ts[i].id != id ==> r[i] == ts[i]
    ensures (forall t :: t in ts ==> t.id != id) ==> r == ts
  {
    Map(StatusUpdater(id, s, now), ts)
  }

  // ---------------------------------------------------------------------------
  // Merging a patch

  /** `{ ...t, ...p }`: every field the patch carries overrides the task's,
      and every field it omits keeps the task's value. In particular an empty
      patch changes nothing, and a patch with an `id` replaces the task's id. */
  function Spread(t: Task, p: Patch): (r: Task)
    ensures p.id.Some? ==> r.id == p.id.value
    ensures p.id.None? ==> r.id == t.id
    ensures p.title.Some? ==> r.title == p.title.value
    ensures p.title.None? ==> r.title == t.title
    ensures p.description.Some? ==> r.description == p.description.value
    ensures p.description.None? ==> r.description == t.description
    ensures p.dueDate.Some? ==> r.dueDate == p.dueDate.value
    ensures p.dueDate.None? ==> r.dueDate == t.dueDate
    ensures p.priority.Some? ==> r.priority == p.priority.value
    ensures p.priority.None? ==> r.priority == t.priority
    ensures p.status.Some? ==> r.status == p.status.value
    ensures p.status.None? ==> r.status == t.status
    ensures p.createdAt.Some? ==> r.createdAt == p.createdAt.value
    ensures p.createdAt.None? ==> r.createdAt == t.createdAt
    ensures p.lastUpdated.Some? ==> r.lastUpdated == p.lastUpdated.value
    ensures p.lastUpdated.None? ==> r.lastUpdated == t.lastUpdated
    ensures p == EmptyPatch ==> r == t
  {
    Task(
      p.id.GetOr(t.id),
      p.title.GetOr(t.title),
      p.description.GetOr(t.description),
      p.dueDate.GetOr(t.dueDate),
      p.priority.GetOr(t.priority),
      p.status.GetOr(t.status),
      p.createdAt.GetOr(t.createdAt),
      p.lastUpdated.GetOr(t.lastUpdated))
  }

  /** `{ ...t, ...p, lastUpdated: new Date() }`: the result is stamped `now`
      whatever the patch says about `lastUpdated`, and agrees with the spread
      on every other field. */
  function Merge(t: Task, p: Patch, now: Timestamp): (r: Task)
    ensures r.lastUpdated == now
    ensures r.(lastUpdated := t.lastUpdated) == Spread(t, p.(lastUpdated := None))
  {
    Spread(t, p).(lastUpdated := now)
  }

  /** `{ ...p, ...q }`: the patch that applies `p` and then `q`. */
  function Combine(p: Patch, q: Patch): Patch {
    Patch(
      if q.id.Some? then q.id else p.id,
      if q.title.Some? then q.title else p.title,
      if q.description.Some? then q.description else p.description,
      if q.dueDate.Some? then q.dueDate else p.dueDate,
      if q.priority.Some? then q.priority else p.priority,
      if q.status.Some? then q.status else p.status,
      if q.createdAt.Some? then q.createdAt else p.createdAt,
      if q.lastUpdated.Some? then q.lastUpdated else p.lastUpdated)
  }

  function PatchUpdater(id: int, p: Patch, now: Timestamp): Task -> Task {
    (t: Task) => if t.id == id then Merge(t, p, now) else t
  }

  /** The collection after `updateTask(id, p)` at time `now`. */
  function UpdateById(ts: seq<Task>, id: int, p: Patch, now: Timestamp): (r: seq<Task>)
    ensures |r| == |ts|
    ensures forall i :: 0 <= i < |ts| && ts[i].id == id ==> r[i] == Merge(ts[i], p, now)
    ensures forall i :: 0 <= i < |ts| && ts[i].id != id ==> r[i] == ts[i]
    ensures (forall t :: t in ts ==> t.id != id) ==> r == ts
  {
    Map(PatchUpdater(id, p, now), ts)
  }

  // ---------------------------------------------------------------------------
  // Deleting

  /** The collection after `deleteTask(id)`. */
  function RemoveById(ts: seq<Task>, id: int): (r: seq<Task>)
    ensures forall t :: t in r ==> t.id != id
    ensures IsSubseq(r, ts)
    ensures forall t :: t in ts && t.id != id ==> multiset(r)[t] == multiset(ts)[t]
    ensures (forall t :: t in ts ==> t.id != id) ==> r == ts
  {
    FilterKeepsAll(IdIsNot(id), ts);
    Filter(IdIsNot(id), ts)
  }

  // ---------------------------------------------------------------------------
  // Loading and saving

  /** The four example tasks used when nothing usable is stored. Their
      timestamps are the stored strings read as UTC. */
  function SeedTasks(): (r: seq<Task>)
    ensures |r| == 4
    ensures forall i :: 0 <= i < |r| ==> r[i].id == i + 1
  {
    [ Task(1, "Test", "No description provided", "2025-08-25",
           "Low Priority", "pending", 1704877200000, 1704877200000),
      Task(2, "Complete project proposal", "Draft the initial project proposal for the new client", "2024-08-25",
           "High Priority", "in-progress", 1705069800000, 1705069800000),
      Task(3, "Review code changes", "Review pull requests and provide feedback to team members", "2024-08-20",
           "Medium Priority", "completed", 1704712500000, 1704712500000),
      Task(4, "Schedule team meeting", "Organize weekly team meeting and send out invitations", "2024-08-18",
           "Low Priority", "pending", 1705337100000, 1705337100000) ]
  }

  /** `loadTasksFromStorage`: what the slot holds, or the seed tasks when the
      slot is empty, missing or unreadable. A stored empty list stays empty. */
  function Load(stored: Option<seq<Task>>): (r: seq<Task>)
    ensures stored.Some? ==> r == stored.value
    ensures stored.None? ==> r == SeedTasks() && |r| == 4
    ensures stored == Some([]) ==> r == []
  {
    stored.GetOr(SeedTasks())
  }

  /** A timestamp after it is written as a date-and-time string with whole
      seconds and read back. */
  function WholeSeconds(ms: Timestamp): (r: Timestamp)
    ensures r <= ms < r + 1000
    ensures r % 1000 == 0
  {
    ms - ms % 1000
  }

  /** A task as a later load reads it back: only the two timestamps change,
      each to the whole second at or below it. */
  function StorageForm(t: Task): (r: Task)
    ensures r.(createdAt := t.createdAt, lastUpdated := t.lastUpdated) == t
    ensures r.createdAt <= t.createdAt < r.createdAt + 1000 && r.createdAt % 1000 == 0
    ensures r.lastUpdated <= t.lastUpdated < r.lastUpdated + 1000 && r.lastUpdated % 1000 == 0
  {
    t.(createdAt := WholeSeconds(t.createdAt), lastUpdated := WholeSeconds(t.lastUpdated))
  }

  /** What a later load reads back after `saveTasksToStorage(ts)`: the same
      tasks in the same order, with the milliseconds of both timestamps lost. */
  function Persisted(ts: seq<Task>): (r: seq<Task>)
    ensures |r| == |ts|
    ensures forall i :: 0 <= i < |ts| ==>
      r[i].(createdAt := ts[i].createdAt, lastUpdated := ts[i].lastUpdated) == ts[i] &&
      r[i].createdAt <= ts[i].createdAt < r[i].createdAt + 1000 &&
      r[i].lastUpdated <= ts[i].lastUpdated < r[i].lastUpdated + 1000
  {
    Map(StorageForm, ts)
  }

  // ---------------------------------------------------------------------------
  // The store

  /** The durable key-value entry under `task-manager-tasks`, as a later load
      would decode it: `None` when it is absent, empty or unreadable. */
  class StorageSlot {
    var content: Option<seq<Task>>

    constructor (content: Option<seq<Task>>)
      ensures this.content == content
    {
      this.content := content;
    }
  }

  class TaskStore {
    /** `_tasks`: the authoritative, ordered collection. */
    var tasks: seq<Task>
    const storage: StorageSlot

    /** Loads the collection from the slot, or the seed tasks; writes nothing. */
    constructor (storage: StorageSlot)
      ensures this.storage == storage
      ensures storage.content.Some? ==> tasks == storage.content.value
      ensures storage.content.None? ==> tasks == SeedTasks()
    {
      this.storage := storage;
      tasks := Load(storage.content);
    }

    /** `saveTasksToStorage`. */
    method Save(ts: seq<Task>)
      modifies storage
      ensures storage.content == Some(Persisted(ts))
    {
      storage.content := Some(Persisted(ts));
    }

    /** `addTask`: the new task goes first, the old ones follow in order. */
    method AddTask(draft: Draft, now: Timestamp)
      modifies this, storage
      ensures tasks == [NewTask(draft, now)] + old(tasks)
      ensures storage.content == Some(Persisted(tasks))
    {
      var newTask := NewTask(draft, now);
      tasks := [newTask] + tasks;
      Save(tasks);
    }

    /** `updateTaskStatus`. */
    method UpdateTaskStatus(id: int, status: string, now: Timestamp)
      modifies this, storage
      ensures tasks == SetStatusById(old(tasks), id, status, now)
      ensures storage.content == Some(Persisted(tasks))
    {
      tasks := SetStatusById(tasks, id, status, now);
      Save(tasks);
    }

    /** `deleteTask`. */
    method DeleteTask(id: int)
      modifies this, storage
      ensures tasks == RemoveById(old(tasks), id)
      ensures storage.content == Some(Persisted(tasks))
    {
      tasks := RemoveById(tasks, id);
      Save(tasks);
    }

    /** `getTaskById`: the first task with this id, or nothing. */
    method GetTaskById(id: int) returns (r: Option<Task>)
      ensures r == FindById(tasks, id)
    {
      r := FindById(tasks, id);
    }

    /** `updateTask`. */
    method UpdateTask(id: int, patch: Patch, now: Timestamp)
      modifies this, storage
      ensures tasks == UpdateById(old(tasks), id, patch, now)
      ensures storage.content == Some(Persisted(tasks))
    {
      tasks := UpdateById(tasks, id, patch, now);
      Save(tasks);
    }

    /** `importTasksFromJSON`, given the outcome of parsing the text: on
        success the parsed tasks replace the collection outright and are
        saved; on failure nothing changes. */
    method ImportTasksFromJson(parsed: Option<seq<Task>>) returns (ok: bool)
      modifies this, storage
      ensures ok == parsed.Some?
      ensures ok ==> tasks == parsed.value && storage.content == Some(Persisted(parsed.value))
      ensures !ok ==> tasks == old(tasks) && storage.content == old(storage.content)
    {
      match parsed
      case None =>
        ok := false;
      case Some(imported) =>
        tasks := imported;
        Save(imported);
        ok := true;
    }
  }

  /** Deleting a task and then starting a new store from the same slot: the
      task is not found there either. */
  method DeleteThenReload(store: TaskStore, id: int) returns (found: Option<Task>)
    modifies store, store.storage
    ensures found == None
  {
    ghost var before := store.tasks;
    store.DeleteTask(id);
    var reloaded := new TaskStore(store.storage);
    DeletePersists(before, id);
    found := reloaded.GetTaskById(id);
  }

  // ---------------------------------------------------------------------------
  // Properties of the operations

  /** Looking up the id of a task just added finds that task, even when an
      older task has the same id. */
  lemma FindAfterAdd(ts: seq<Task>, d: Draft, now: Timestamp)
    ensures FindById([NewTask(d, now)] + ts, now) == Some(NewTask(d, now))
  {
  }

  /** After `deleteTask(id)` no task has that id, and every other id finds
      what it found before. */
  lemma FindAfterRemove(ts: seq<Task>, id: int, other: int)
    ensures FindById(RemoveById(ts, id), id) == None
    ensures other != id ==> FindById(RemoveById(ts, id), other) == FindById(ts, other)
  {
    if other != id {
      FindAfterFilter(IdIs(other), IdIsNot(id), ts);
    }
  }

  /** After `updateTaskStatus(id, s)` looking up `id` finds the task found
      before, with the new status and time; other ids find what they found. */
  lemma FindAfterSetStatus(ts: seq<Task>, id: int, s: string, now: Timestamp, other: int)
    ensures FindById(SetStatusById(ts, id, s, now), id) ==
      match FindById(ts, id)
      case None => None
      case Some(t) => Some(t.(status := s, lastUpdated := now))
    ensures other != id ==> FindById(SetStatusById(ts, id, s, now), other) == FindById(ts, other)
  {
    FindAfterMap(IdIs(id), StatusUpdater(id, s, now), ts);
    FindAfterMap(IdIs(other), StatusUpdater(id, s, now), ts);
    if other != id {
      match FindById(ts, other)
      case None =>
      case Some(t) =>
        assert t.id == other;
    }
  }

  /** Setting the same status twice leaves what the second call leaves alone:
      only the second time survives. */
  lemma SetStatusTwice(ts: seq<Task>, id: int, s: string, first: Timestamp, second: Timestamp)
    ensures SetStatusById(SetStatusById(ts, id, s, first), id, s, second) == SetStatusById(ts, id, s, second)
  {
  }

  /** `updateTaskStatus(id, s)` is `updateTask(id, { status: s })`. */
  lemma SetStatusIsStatusPatch(ts: seq<Task>, id: int, s: string, now: Timestamp)
    ensures SetStatusById(ts, id, s, now) == UpdateById(ts, id, StatusPatch(s), now)
  {
  }

  /** A `lastUpdated` in a patch never survives: the merge always stamps `now`. */
  lemma MergeStampsNow(t: Task, p: Patch, x: Timestamp, now: Timestamp)
    ensures Merge(t, p, now).lastUpdated == now
    ensures Merge(t, p.(lastUpdated := Some(x)), now) == Merge(t, p, now)
  {
  }

  /** An empty patch only refreshes `lastUpdated`. */
  lemma MergeEmptyPatch(t: Task, now: Timestamp)
    ensures Merge(t, EmptyPatch, now) == t.(lastUpdated := now)
  {
  }

  /** Two merges in a row are one merge with the combined patch. */
  lemma MergeTwice(t: Task, p: Patch, q: Patch, first: Timestamp, second: Timestamp)
    ensures Merge(Merge(t, p, first), q, second) == Merge(t, Combine(p, q), second)
  {
  }

  // ---------------------------------------------------------------------------
  // What the store keeps, and what it does not check

  ghost predicate UniqueIds(ts: seq<Task>) {
    forall i, j :: 0 <= i < j < |ts| ==> ts[i].id != ts[j].id
  }

  /** A subsequence of a collection with distinct ids has distinct ids. */
  lemma {:induction false} SubseqUniqueIds(a: seq<Task>, b: seq<Task>)
    requires IsSubseq(a, b) && UniqueIds(b)
    ensures UniqueIds(a)
    decreases |b|
  {
    if a != [] {
      assert forall k :: 0 <= k < |b| - 1 ==> b[1..][k] == b[k + 1];
      if a[0] == b[0] && IsSubseq(a[1..], b[1..]) {
        SubseqUniqueIds(a[1..], b[1..]);
        SubseqMembers(a[1..], b[1..]);
        forall i, j | 0 <= i < j < |a| ensures a[i].id != a[j].id {
          if i == 0 {
            assert a[j] == a[1..][j - 1];
            assert a[j] in b[1..];
          } else {
            assert a[i] == a[1..][i - 1] && a[j] == a[1..][j - 1];
          }
        }
      } else {
        SubseqUniqueIds(a, b[1..]);
      }
    }
  }

  /** Status changes and deletions keep ids distinct; an addition does when
      the clock value is not already an id; a patch does when it leaves the
      id alone. */
  lemma OperationsKeepUniqueIds(ts: seq<Task>, id: int, d: Draft, s: string, p: Patch, now: Timestamp)
    requires UniqueIds(ts)
    ensures FindById(ts, now) == None ==> UniqueIds([NewTask(d, now)] + ts)
    ensures UniqueIds(SetStatusById(ts, id, s, now))
    ensures p.id.None? || p.id == Some(id) ==> UniqueIds(UpdateById(ts, id, p, now))
    ensures UniqueIds(RemoveById(ts, id))
  {
    var added := [NewTask(d, now)] + ts;
    if FindById(ts, now) == None {
      forall i, j | 0 <= i < j < |added| ensures added[i].id != added[j].id {
        assert added[j] == ts[j - 1] && ts[j - 1] in ts;
        if i > 0 {
          assert added[i] == ts[i - 1];
        }
      }
    }
    var r := SetStatusById(ts, id, s, now);
    assert forall i :: 0 <= i < |r| ==> r[i].id == ts[i].id;
    if p.id.None? || p.id == Some(id) {
      var u := UpdateById(ts, id, p, now);
      assert forall i :: 0 <= i < |u| ==> u[i].id == ts[i].id;
    }
    SubseqUniqueIds(RemoveById(ts, id), ts);
  }

  /** `addTask` does not check its id: adding at a time that is already an id
      gives two tasks with the same id. */
  lemma AddMayDuplicateId(t: Task, d: Draft)
    ensures !UniqueIds([NewTask(d, t.id), t])
  {
    var s := [NewTask(d, t.id), t];
    assert s[0].id == s[1].id;
  }

  ghost predicate TimestampsOrdered(ts: seq<Task>) {
    forall t :: t in ts ==> t.createdAt <= t.lastUpdated
  }

  ghost predicate NoneAfter(ts: seq<Task>, now: Timestamp) {
    forall t :: t in ts ==> t.lastUpdated <= now
  }

  /** With a clock that is not behind any task, every operation keeps
      `createdAt <= lastUpdated`; a patch must not move `createdAt` past now. */
  lemma OperationsKeepTimestampsOrdered(ts: seq<Task>, id: int, d: Draft, s: string, p: Patch, now: Timestamp)
    requires TimestampsOrdered(ts) && NoneAfter(ts, now)
    ensures TimestampsOrdered([NewTask(d, now)] + ts)
    ensures TimestampsOrdered(SetStatusById(ts, id, s, now))
    ensures p.createdAt.None? || p.createdAt.value <= now ==> TimestampsOrdered(UpdateById(ts, id, p, now))
    ensures TimestampsOrdered(RemoveById(ts, id))
  {
    var r := SetStatusById(ts, id, s, now);
    forall t | t in r ensures t.createdAt <= t.lastUpdated {
      var i :| 0 <= i < |r| && r[i] == t;
      assert ts[i] in ts;
    }
    var u := UpdateById(ts, id, p, now);
    if p.createdAt.None? || p.createdAt.value <= now {
      forall t | t in u ensures t.createdAt <= t.lastUpdated {
        var i :| 0 <= i < |u| && u[i] == t;
        assert ts[i] in ts;
      }
    }
  }

  // ---------------------------------------------------------------------------
  // Saving and loading again

  /** Saving what was loaded from a save writes the same thing again; a
      collection survives a save unchanged exactly when its timestamps are
      whole seconds. */
  lemma {:induction false} PersistedStable(ts: seq<Task>)
    ensures Persisted(Persisted(ts)) == Persisted(ts)
    ensures Persisted(ts) == ts <==> forall t :: t in ts ==> t.createdAt % 1000 == 0 && t.lastUpdated % 1000 == 0
  {
    if Persisted(ts) == ts {
      forall t | t in ts ensures t.createdAt % 1000 == 0 && t.lastUpdated % 1000 == 0 {
        var i :| 0 <= i < |ts| && ts[i] == t;
        assert Persisted(ts)[i] == StorageForm(t);
      }
    }
  }

  /** Reloading after a save drops milliseconds: a task created at 1.5 s is
      read back as created at 1 s. */
  lemma ReloadDropsMilliseconds(t: Task)
    requires t.createdAt == 1500
    ensures Load(Some(Persisted([t])))[0].createdAt == 1000
  {
  }

  /** A deleted task stays deleted when the store is loaded again from what
      the deletion saved. */
  lemma DeletePersists(ts: seq<Task>, id: int)
    ensures FindById(Load(Some(Persisted(RemoveById(ts, id)))), id) == None
  {
    var r := Persisted(RemoveById(ts, id));
    forall i | 0 <= i < |r| ensures r[i].id != id {
      assert RemoveById(ts, id)[i] in RemoveById(ts, id);
    }
  }

  /** Deleting id 3 from a four-task collection with ids 1 to 4. */
  lemma {:induction false} RemoveThirdOfFour(s: seq<Task>)
    requires |s| == 4 && forall i :: 0 <= i < 4 ==> s[i].id == i + 1
    ensures RemoveById(s, 3) == [s[0], s[1], s[3]]
  {
    var keep := IdIsNot(3);
    assert s[3..][1..] == [];
    assert Filter(keep, s[3..]) == [s[3]];
    assert s[2..][1..] == s[3..];
    assert Filter(keep, s[2..]) == [s[3]];
    assert s[1..][1..] == s[2..];
    assert Filter(keep, s[1..]) == [s[1], s[3]];
  }

  /** The seed collection after `deleteTask(3)`: three tasks, none with id 3,
      in the seed's order. */
  lemma SeedDeleteScenario()
    ensures var r := RemoveById(Load(None), 3);
      |r| == 3 && FindById(r, 3) == None && r == [SeedTasks()[0], SeedTasks()[1], SeedTasks()[3]]
  {
    RemoveThirdOfFour(SeedTasks());
  }
}
