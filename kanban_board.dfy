/**
 * The Kanban board: three columns in a fixed order, a text box for new
 * tasks in the first one, and drag-and-drop between columns.
 */
module KanbanBoard {
  import opened Wrappers
  import opened Seqs
  import opened Text
  import opened KanbanContext

  /** The columns, left to right. */
  const ORDER: seq<TaskStatus> := [Todo, Doing, Done]

  function ColumnLabel(s: TaskStatus): string {
    match s
    case Todo => "To Do"
    case Doing => "Doing"
    case Done => "Done"
  }

  /** `tasks.filter(t => t.status === status)`: a column shows exactly the
      tasks with its status, in list order. */
  function ColumnTasks(tasks: seq<KanbanTask>, status: TaskStatus): (r: seq<KanbanTask>)
    ensures forall t :: multiset(r)[t] == if t.status == status then multiset(tasks)[t] else 0
    ensures Subsequence(r, tasks)
  {
    if tasks == [] then []
    else
      var rest := ColumnTasks(tasks[1..], status);
      assert tasks == [tasks[0]] + tasks[1..];
      if tasks[0].status == status then
        SubsequenceKeep(rest, tasks[1..], tasks[0]);
        [tasks[0]] + rest
      else
        SubsequenceSkip(rest, tasks[1..], tasks[0]);
        rest
  }

  /** The three columns together show every task exactly once. */
  lemma ColumnsPartition(tasks: seq<KanbanTask>)
    ensures multiset(ColumnTasks(tasks, ORDER[0])) + multiset(ColumnTasks(tasks, ORDER[1])) +
      multiset(ColumnTasks(tasks, ORDER[2])) == multiset(tasks)
    ensures |ColumnTasks(tasks, ORDER[0])| + |ColumnTasks(tasks, ORDER[1])| +
      |ColumnTasks(tasks, ORDER[2])| == |tasks|
  {
    var a, b, c := ColumnTasks(tasks, Todo), ColumnTasks(tasks, Doing), ColumnTasks(tasks, Done);
    assert multiset(a) + multiset(b) + multiset(c) == multiset(tasks) by {
      forall t ensures (multiset(a) + multiset(b) + multiset(c))[t] == multiset(tasks)[t] {
      }
    }
    assert |multiset(a) + multiset(b) + multiset(c)| == |multiset(tasks)|;
  }

  /** What a drop reports: the column the card came from, the column it was
      dropped on (none when dropped outside every column), and its id. */
  datatype DropResult = DropResult(source: TaskStatus, destination: Option<TaskStatus>, draggableId: string)

  /** The task list after a drop: unchanged when dropped outside or back in
      its own column, otherwise the dragged task moves to the new column. */
  function DragOutcome(tasks: seq<KanbanTask>, result: DropResult): (r: seq<KanbanTask>)
    ensures result.destination.None? || result.destination.value == result.source ==> r == tasks
    ensures result.destination.Some? && result.destination.value != result.source ==>
      r == MoveTask(tasks, result.draggableId, result.destination.value)
  {
    if result.destination.None? then tasks
    else if result.source == result.destination.value then tasks
    else MoveTask(tasks, result.draggableId, result.destination.value)
  }

  /** After a drop on another column, every task with the dragged id shows
      in that column and in no other. */
  lemma DropLandsInColumn(tasks: seq<KanbanTask>, result: DropResult, i: int, s: TaskStatus)
    requires result.destination.Some? && result.destination.value != result.source
    requires 0 <= i < |tasks| && tasks[i].id == result.draggableId
    ensures DragOutcome(tasks, result)[i] in ColumnTasks(DragOutcome(tasks, result), s) <==>
      s == result.destination.value
  {
    var r := DragOutcome(tasks, result);
    assert r[i] in multiset(r);
  }

  /** The board's own state: the text of the task being typed. */
  class Board {
    var newText: string

    constructor ()
      ensures newText == ""
    {
      newText := "";
    }

    method HandleTextChange(value: string)
      modifies this
      ensures newText == value
    {
      newText := value;
    }

    /** Adding: the trimmed text becomes a new to-do task and the box is
        cleared; a blank text adds nothing and leaves the box as it is. */
    method HandleAdd(provider: KanbanProvider, clock: nat)
      modifies this, provider
      ensures Trim(old(newText)) == [] ==>
        newText == old(newText) && provider.tasks == old(provider.tasks) &&
        provider.storage == old(provider.storage)
      ensures Trim(old(newText)) != [] ==>
        newText == "" && provider.tasks == AddTask(old(provider.tasks), Trim(old(newText)), clock) &&
        provider.storage == old(provider.storage)[TASKS_KEY := provider.tasks]
    {
      var t := Trim(newText);
      if t != [] {
        provider.Add(t, clock);
        newText := "";
      }
    }

    /** The drop handler. */
    method OnDragEnd(provider: KanbanProvider, result: DropResult)
      modifies provider
      ensures provider.tasks == DragOutcome(old(provider.tasks), result)
      ensures result.destination.None? || result.destination.value == result.source ==>
        provider.storage == old(provider.storage)
      ensures result.destination.Some? && result.destination.value != result.source ==>
        provider.storage == old(provider.storage)[TASKS_KEY := provider.tasks]
    {
      if result.destination.None? {
        return;
      }
      if result.source == result.destination.value {
        return;
      }
      provider.Move(result.draggableId, result.destination.value);
    }

    /** A task card's delete button: that task's id goes to `deleteTask`. */
    method HandleDelete(provider: KanbanProvider, task: KanbanTask)
      modifies provider
      ensures provider.tasks == DeleteTask(old(provider.tasks), task.id)
      ensures task !in provider.tasks
      ensures provider.storage == old(provider.storage)[TASKS_KEY := provider.tasks]
    {
      provider.Delete(task.id);
    }
  }
}
