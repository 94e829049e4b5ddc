/**
 * The Kanban task repository: tasks in three columns, kept in storage under
 * their own key and written back after every change.
 */
module KanbanContext {
  import opened Seqs
  import opened Decimal
  import opened Wrappers

  datatype TaskStatus = Todo | Doing | Done

  datatype KanbanTask = KanbanTask(id: string, text: string, status: TaskStatus)

  /** The storage key the tasks are kept under. */
  const TASKS_KEY: string := "kanban-tasks"

  /** The id a task added at clock reading `clock` gets: `task-<clock>`. */
  function TaskId(clock: nat): string {
    "task-" + NatToString(clock)
  }

  /** `[...t, {id: task-<now>, text, status: "todo"}]`: a new to-do task at
      the end, nothing else touched. */
  function AddTask(tasks: seq<KanbanTask>, text: string, clock: nat): (r: seq<KanbanTask>)
    ensures |r| == |tasks| + 1 && r[..|tasks|] == tasks
    ensures r[|tasks|] == KanbanTask(TaskId(clock), text, Todo)
  {
    tasks + [KanbanTask(TaskId(clock), text, Todo)]
  }

  /** `t.map(task => task.id === id ? {...task, status: to} : task)`: the
      tasks with that id move to column `to`; ids, texts and order stay. */
  function MoveTask(tasks: seq<KanbanTask>, id: string, to: TaskStatus): (r: seq<KanbanTask>)
    ensures |r| == |tasks|
    ensures forall i :: 0 <= i < |tasks| ==>
      r[i] == if tasks[i].id == id then tasks[i].(status := to) else tasks[i]
  {
    if tasks == [] then []
    else [if tasks[0].id == id then tasks[0].(status := to) else tasks[0]] + MoveTask(tasks[1..], id, to)
  }

  /** `t.filter(task => task.id !== id)`: the tasks without that id, each as
      often as before and in the same relative order. */
  function DeleteTask(tasks: seq<KanbanTask>, id: string): (r: seq<KanbanTask>)
    ensures forall t :: multiset(r)[t] == if t.id == id then 0 else multiset(tasks)[t]
    ensures Subsequence(r, tasks)
  {
    if tasks == [] then []
    else
      var rest := DeleteTask(tasks[1..], id);
      assert tasks == [tasks[0]] + tasks[1..];
      if tasks[0].id == id then
        SubsequenceSkip(rest, tasks[1..], tasks[0]);
        rest
      else
        SubsequenceKeep(rest, tasks[1..], tasks[0]);
        [tasks[0]] + rest
  }

  /** Tasks added at different clock readings get different ids. */
  lemma TaskIdInjective(a: nat, b: nat)
    ensures TaskId(a) == TaskId(b) <==> a == b
  {
    PrefixedNumeralInjective("task-", a, b);
  }

  /** Moving to the same column twice is moving once; a later move of the
      same id wins. */
  lemma MoveTaskTwice(tasks: seq<KanbanTask>, id: string, first: TaskStatus, second: TaskStatus)
    ensures MoveTask(MoveTask(tasks, id, first), id, second) == MoveTask(tasks, id, second)
  {
    var a, b := MoveTask(MoveTask(tasks, id, first), id, second), MoveTask(tasks, id, second);
    assert forall i :: 0 <= i < |tasks| ==> a[i] == b[i];
  }

  /** Moving or deleting an id no task carries changes nothing. */
  lemma {:induction false} AbsentIdUntouched(tasks: seq<KanbanTask>, id: string, to: TaskStatus)
    requires forall i :: 0 <= i < |tasks| ==> tasks[i].id != id
    ensures MoveTask(tasks, id, to) == tasks
    ensures DeleteTask(tasks, id) == tasks
  {
    if tasks != [] {
      assert tasks[0].id != id;
      AbsentIdUntouched(tasks[1..], id, to);
    }
  }

  /** Deleting a task after moving it is deleting it; deleting twice is
      deleting once. */
  lemma {:induction false} DeleteAfterMove(tasks: seq<KanbanTask>, id: string, to: TaskStatus)
    ensures DeleteTask(MoveTask(tasks, id, to), id) == DeleteTask(tasks, id)
    ensures DeleteTask(DeleteTask(tasks, id), id) == DeleteTask(tasks, id)
  {
    if tasks != [] {
      DeleteAfterMove(tasks[1..], id, to);
      assert MoveTask(tasks, id, to)[1..] == MoveTask(tasks[1..], id, to);
    }
  }

  /** The tasks on first load: the stored list when there is one, else none. */
  function LoadedTasks(storage: map<string, seq<KanbanTask>>): seq<KanbanTask> {
    if TASKS_KEY in storage then storage[TASKS_KEY] else []
  }

  /** The provider's state: the task list and the browser storage (holding
      decoded lists; encoding and decoding are taken to round-trip). */
  class KanbanProvider {
    var tasks: seq<KanbanTask>
    var storage: map<string, seq<KanbanTask>>

    constructor (storage: map<string, seq<KanbanTask>>)
      ensures tasks == [] && this.storage == storage
    {
      tasks := [];
      this.storage := storage;
    }

    /** The write-back effect: the whole list under the key, after every
        change and once on mount. */
    method Persist()
      modifies this
      ensures tasks == old(tasks) && storage == old(storage)[TASKS_KEY := tasks]
    {
      storage := storage[TASKS_KEY := tasks];
    }

    /** Mounting: the load effect reads the stored list, then the write-back
        effect runs with the still-empty list, then the loaded list is set
        and written back. The net result is the stored list (or none),
        and storage holding exactly that. */
    method Mount()
      modifies this
      requires tasks == []
      ensures tasks == LoadedTasks(old(storage))
      ensures storage == old(storage)[TASKS_KEY := tasks]
    {
      var stored := if TASKS_KEY in storage then Some(storage[TASKS_KEY]) else None;
      Persist();
      if stored.Some? {
        tasks := stored.value;
        Persist();
      }
    }

    method Add(text: string, clock: nat)
      modifies this
      ensures tasks == AddTask(old(tasks), text, clock)
      ensures storage == old(storage)[TASKS_KEY := tasks]
    {
      tasks := AddTask(tasks, text, clock);
      Persist();
    }

    method Move(id: string, to: TaskStatus)
      modifies this
      ensures tasks == MoveTask(old(tasks), id, to)
      ensures storage == old(storage)[TASKS_KEY := tasks]
    {
      tasks := MoveTask(tasks, id, to);
      Persist();
    }

    method Delete(id: string)
      modifies this
      ensures tasks == DeleteTask(old(tasks), id)
      ensures storage == old(storage)[TASKS_KEY := tasks]
    {
      tasks := DeleteTask(tasks, id);
      Persist();
    }
  }
}
