/**
 * The date-partitioned task store of task_manager.py.
 *
 * The directory of one JSON file per date is modelled as a map from the date
 * string (`YYYY-MM-DD`) to that file's task list; a date without a file is a
 * date that is not a key of the map. The current date is read from the clock
 * once, at construction, and never changes afterwards.
 */
module TaskStore {
  import opened Wrappers

  /** One to-do record: `{id, content, created_at, completed}`. */
  datatype Task = Task(id: int, content: string, createdAt: string, completed: bool)

  /** What `add_task` is given for one new task: its content and the creation timestamp. */
  datatype Entry = Entry(content: string, createdAt: string)

  predicate HasId(tasks: seq<Task>, id: int) {
    exists j :: 0 <= j < |tasks| && tasks[j].id == id
  }

  // ---------------------------------------------------------------------------
  // add_task: append one record whose id is the current length plus one

  /** The list `add_task` writes back: the old list and one new, uncompleted task at the end. */
  function Appended(tasks: seq<Task>, e: Entry): (r: seq<Task>)
    ensures |r| == |tasks| + 1 && r[..|tasks|] == tasks
    ensures r[|tasks|] == Task(|tasks| + 1, e.content, e.createdAt, false)
  {
    tasks + [Task(|tasks| + 1, e.content, e.createdAt, false)]
  }

  /** The list after calling `add_task` once for each entry, in order. */
  function AppendedAll(tasks: seq<Task>, entries: seq<Entry>): seq<Task>
    decreases |entries|
  {
    if entries == [] then tasks
    else AppendedAll(Appended(tasks, entries[0]), entries[1..])
  }

  /** Adding tasks keeps the earlier ones and gives the k-th new one the id `|tasks| + k + 1`. */
  lemma {:induction false} AppendedAllIds(tasks: seq<Task>, entries: seq<Entry>)
    ensures |AppendedAll(tasks, entries)| == |tasks| + |entries|
    ensures AppendedAll(tasks, entries)[..|tasks|] == tasks
    ensures forall k :: 0 <= k < |entries| ==>
      AppendedAll(tasks, entries)[|tasks| + k] ==
        Task(|tasks| + k + 1, entries[k].content, entries[k].createdAt, false)
    decreases |entries|
  {
    if entries != [] {
      var t1 := Appended(tasks, entries[0]);
      AppendedAllIds(t1, entries[1..]);
      var r := AppendedAll(tasks, entries);
      assert r == AppendedAll(t1, entries[1..]);
      assert r[..|tasks|] == tasks by {
        assert r[..|t1|][..|tasks|] == r[..|tasks|];
      }
      forall k | 0 <= k < |entries|
        ensures r[|tasks| + k] == Task(|tasks| + k + 1, entries[k].content, entries[k].createdAt, false)
      {
        if k == 0 {
          assert r[|tasks|] == r[..|t1|][|tasks|];
        } else {
          assert entries[1..][k - 1] == entries[k];
          assert |tasks| + k == |t1| + (k - 1);
        }
      }
    }
  }

  /** On a day that starts empty, adding N tasks yields ids 1..N in insertion order. */
  lemma FreshDayIds(entries: seq<Entry>)
    ensures |AppendedAll([], entries)| == |entries|
    ensures forall k :: 0 <= k < |entries| ==>
      AppendedAll([], entries)[k].id == k + 1 &&
      AppendedAll([], entries)[k].content == entries[k].content &&
      !AppendedAll([], entries)[k].completed
  {
    var none: seq<Task> := [];
    AppendedAllIds(none, entries);
    forall k | 0 <= k < |entries| ensures AppendedAll(none, entries)[k] == AppendedAll(none, entries)[|none| + k] {
    }
  }

  // ---------------------------------------------------------------------------
  // update_task: patch the first record with the id

  /** The index of the first task carrying `id`, as the loop with `break` finds it. */
  function FirstIndex(tasks: seq<Task>, id: int): (r: Option<nat>)
    ensures r.None? <==> !HasId(tasks, id)
    ensures r.Some? ==> r.value < |tasks| && tasks[r.value].id == id &&
                        (forall j :: 0 <= j < r.value ==> tasks[j].id != id)
  {
    if tasks == [] then None
    else if tasks[0].id == id then Some(0)
    else match FirstIndex(tasks[1..], id)
      case None => None
      case Some(i) => Some(i + 1)
  }

  /** One record with the fields that were passed (not None) replaced. */
  function Patch(t: Task, completed: Option<bool>, content: Option<string>): Task {
    t.(completed := completed.GetOr(t.completed), content := content.GetOr(t.content))
  }

  /** The list `update_task` writes back: only the first record with `id` patched. */
  function Patched(tasks: seq<Task>, id: int, completed: Option<bool>, content: Option<string>): seq<Task> {
    match FirstIndex(tasks, id)
    case None => tasks
    case Some(i) => tasks[i := Patch(tasks[i], completed, content)]
  }

  /**
   * Updating patches only the first record with the id, and only the fields passed;
   * every other record, the order, every id and every timestamp are unchanged.
   */
  lemma PatchedFrame(tasks: seq<Task>, id: int, completed: Option<bool>, content: Option<string>, i: nat)
    requires i < |tasks| && tasks[i].id == id
    requires forall j :: 0 <= j < i ==> tasks[j].id != id
    ensures var r := Patched(tasks, id, completed, content);
      && |r| == |tasks|
      && (forall j :: 0 <= j < |r| && j != i ==> r[j] == tasks[j])
      && (forall j :: 0 <= j < |r| ==> r[j].id == tasks[j].id && r[j].createdAt == tasks[j].createdAt)
      && r[i].completed == (if completed.Some? then completed.value else tasks[i].completed)
      && r[i].content == (if content.Some? then content.value else tasks[i].content)
  {
  }

  /** Without a record carrying the id, updating changes nothing. */
  lemma PatchedMissing(tasks: seq<Task>, id: int, completed: Option<bool>, content: Option<string>)
    requires !HasId(tasks, id)
    ensures Patched(tasks, id, completed, content) == tasks
  {
  }

  /** Repeating the same update has no further effect: the first match stays the first match. */
  lemma PatchedIdempotent(tasks: seq<Task>, id: int, completed: Option<bool>, content: Option<string>)
    ensures var once := Patched(tasks, id, completed, content);
      Patched(once, id, completed, content) == once
  {
    var once := Patched(tasks, id, completed, content);
    match FirstIndex(tasks, id)
    case None =>
    case Some(i) =>
      assert once[i].id == id;
      match FirstIndex(once, id)
      case None =>
      case Some(k) =>
        assert forall j :: 0 <= j < |once| ==> once[j].id == tasks[j].id;
        assert k == i;
  }

  // ---------------------------------------------------------------------------
  // delete_task: keep every record whose id differs

  /** The list comprehension `[task for task in tasks if task['id'] != task_id]`. */
  function Without(tasks: seq<Task>, id: int): (r: seq<Task>)
    ensures |r| <= |tasks|
    ensures forall j :: 0 <= j < |r| ==> r[j].id != id && r[j] in tasks
    ensures forall t :: t in tasks && t.id != id ==> t in r
    ensures |r| == |tasks| <==> !HasId(tasks, id)
    ensures !HasId(tasks, id) ==> r == tasks
  {
    if tasks == [] then []
    else
      var rest := Without(tasks[1..], id);
      assert HasId(tasks, id) <==> tasks[0].id == id || HasId(tasks[1..], id) by {
        if HasId(tasks[1..], id) {
          var j :| 0 <= j < |tasks[1..]| && tasks[1..][j].id == id;
          assert tasks[j + 1].id == id;
        }
        if HasId(tasks, id) && tasks[0].id != id {
          var j :| 0 <= j < |tasks| && tasks[j].id == id;
          assert tasks[1..][j - 1].id == id;
        }
      }
      if tasks[0].id != id then [tasks[0]] + rest else rest
  }

  /** Deleting keeps the relative order: filtering distributes over concatenation. */
  lemma {:induction false} WithoutConcat(a: seq<Task>, b: seq<Task>, id: int)
    ensures Without(a + b, id) == Without(a, id) + Without(b, id)
    decreases |a|
  {
    if a == [] {
      assert a + b == b;
    } else {
      assert (a + b)[0] == a[0] && (a + b)[1..] == a[1..] + b;
      WithoutConcat(a[1..], b, id);
    }
  }

  /** Deleting the same id again finds nothing more to remove. */
  lemma WithoutIdempotent(tasks: seq<Task>, id: int)
    ensures Without(Without(tasks, id), id) == Without(tasks, id)
  {
    var r := Without(tasks, id);
    assert !HasId(r, id);
  }

  /**
   * The id quirk: ids are the list length plus one, so after deleting any id
   * below the last one, the next added task repeats the id of the last task.
   */
  lemma IdRepeatsAfterDelete(tasks: seq<Task>, k: int, e: Entry)
    requires forall j :: 0 <= j < |tasks| ==> tasks[j].id == j + 1
    requires 1 <= k < |tasks|
    ensures var kept := Without(tasks, k);
      var next := Appended(kept, e);
      next[|kept|].id == |tasks| && tasks[|tasks| - 1] in kept && tasks[|tasks| - 1].id == |tasks|
  {
    var n := |tasks|;
    WithoutDropsExactlyOne(tasks, k);
    assert tasks[n - 1] in tasks && tasks[n - 1].id != k;
  }

  /** With ids 1..n, exactly one record carries the deleted id, so exactly one record goes. */
  lemma {:induction false} WithoutDropsExactlyOne(tasks: seq<Task>, k: int)
    requires forall j :: 0 <= j < |tasks| ==> tasks[j].id == j + 1
    requires 1 <= k <= |tasks|
    ensures |Without(tasks, k)| == |tasks| - 1
  {
    var n := |tasks|;
    var front := tasks[..k - 1];
    var back := tasks[k..];
    assert tasks == front + [tasks[k - 1]] + back;
    WithoutConcat(front + [tasks[k - 1]], back, k);
    WithoutConcat(front, [tasks[k - 1]], k);
    assert !HasId(front, k);
    assert !HasId(back, k) by {
      forall j | 0 <= j < |back| ensures back[j].id != k {
        assert back[j] == tasks[k + j];
      }
    }
    assert Without([tasks[k - 1]], k) == [];
  }

  // ---------------------------------------------------------------------------

  /** The task store: the per-date task lists and the date fixed at construction. */
  class TaskManager {
    const currentDate: string
    var store: map<string, seq<Task>>

    /** The constructor makes sure the current date has an entry, so every writer finds one. */
    ghost predicate Valid()
      reads this
    {
      currentDate in store
    }

    /**
     * `today` is the date the clock gives at startup and `existing` the
     * files already on disk; a missing file for today is created empty.
     */
    constructor (today: string, existing: map<string, seq<Task>>)
      ensures Valid() && currentDate == today
      ensures today in existing ==> store == existing
      ensures today !in existing ==> store == existing[today := []]
    {
      currentDate := today;
      store := if today in existing then existing else existing[today := []];
    }

    /** `get_tasks`: the stored list of `date` (default: the current date), or [] when there is no file. */
    function GetTasks(date: Option<string>): (r: seq<Task>)
      reads this
      ensures date.GetOr(currentDate) !in store ==> r == []
      ensures date.GetOr(currentDate) in store ==> r == store[date.GetOr(currentDate)]
    {
      var d := date.GetOr(currentDate);
      if d in store then store[d] else []
    }

    /** `add_task`: appends one record to the current date's list and returns it. */
    method AddTask(content: string, createdAt: string) returns (task: Task)
      requires Valid()
      modifies this
      ensures Valid()
      ensures task == Task(|old(store[currentDate])| + 1, content, createdAt, false)
      ensures store == old(store)[currentDate := Appended(old(store[currentDate]), Entry(content, createdAt))]
    {
      var tasks := store[currentDate];
      task := Task(|tasks| + 1, content, createdAt, false);
      store := store[currentDate := tasks + [task]];
    }

    /**
     * `update_task`: finds the first record with the id and patches the fields
     * passed; returns false, writing nothing, when no record has the id.
     */
    method UpdateTask(id: int, completed: Option<bool>, content: Option<string>) returns (ok: bool)
      requires Valid()
      modifies this
      ensures Valid()
      ensures ok == HasId(old(store[currentDate]), id)
      ensures store == old(store)[currentDate := Patched(old(store[currentDate]), id, completed, content)]
      ensures !ok ==> store == old(store)
    {
      var tasks := store[currentDate];
      var i := 0;
      while i < |tasks| && tasks[i].id != id
        invariant 0 <= i <= |tasks|
        invariant forall j :: 0 <= j < i ==> tasks[j].id != id
      {
        i := i + 1;
      }
      if i == |tasks| {
        assert store[currentDate := tasks] == store;
        return false;
      }
      store := store[currentDate := tasks[i := Patch(tasks[i], completed, content)]];
      ok := true;
    }

    /**
     * `delete_task`: removes every record with the id; returns whether the
     * list got shorter, and writes nothing when it did not.
     */
    method DeleteTask(id: int) returns (ok: bool)
      requires Valid()
      modifies this
      ensures Valid()
      ensures ok == HasId(old(store[currentDate]), id)
      ensures ok ==> store == old(store)[currentDate := Without(old(store[currentDate]), id)]
      ensures !ok ==> store == old(store)
    {
      var tasks := store[currentDate];
      var kept := Without(tasks, id);
      if |kept| == |tasks| {
        return false;
      }
      store := store[currentDate := kept];
      ok := true;
    }
  }

  /** The example run: two adds on a fresh day, then deleting id 1 leaves only the second task. */
  method AddAddDelete(tm: TaskManager, now: string)
    requires tm.Valid() && tm.store[tm.currentDate] == []
    modifies tm
    ensures tm.GetTasks(None) == [Task(2, "call mom", now, false)]
  {
    var first := tm.AddTask("buy milk", now);
    var second := tm.AddTask("call mom", now);
    assert first.id == 1 && second.id == 2;
    var ok := tm.DeleteTask(1);
    assert tm.store[tm.currentDate] == Without([first, second], 1);
  }
}
