/**
 * The daily sprint page: the add-task form, and the board that shows the task
 * list split into one column per phase.
 */
module DailyPage {
  import opened Text
  import opened Types
  import opened Seqs
  import opened Store

  /** The board's columns, left to right. */
  const Phases: seq<TaskPhase> := [Database, Skills, Deploy]

  /** Every phase has a column, and only one. */
  lemma PhasesAreAllPhases(p: TaskPhase)
    ensures p in Phases
    ensures forall i, j :: 0 <= i < j < |Phases| ==> Phases[i] != Phases[j]
  {
  }

  function InPhase(p: TaskPhase): Task -> bool {
    (t: Task) => t.phase == p
  }

  /** `tasks.filter(t => t.phase === phase)`: the column of one phase. */
  function Column(tasks: seq<Task>, p: TaskPhase): seq<Task> {
    Filter(tasks, InPhase(p))
  }

  /** A task shows in a column exactly when it is in the list and has that phase. */
  lemma ColumnMembers(tasks: seq<Task>, p: TaskPhase, t: Task)
    ensures t in Column(tasks, p) <==> t in tasks && t.phase == p
  {
    FilterMembers(tasks, InPhase(p), t);
  }

  /** Each task of the list shows in exactly one of the three columns. */
  lemma ExactlyOneColumn(tasks: seq<Task>, t: Task)
    requires t in tasks
    ensures t in Column(tasks, t.phase)
    ensures forall p :: p != t.phase ==> t !in Column(tasks, p)
  {
    ColumnMembers(tasks, t.phase, t);
    forall p | p != t.phase ensures t !in Column(tasks, p) {
      ColumnMembers(tasks, p, t);
    }
  }

  /** The three columns of a task list, counted with multiplicity. */
  function ColumnsMultiset(tasks: seq<Task>): multiset<Task> {
    multiset(Column(tasks, Database)) + multiset(Column(tasks, Skills)) + multiset(Column(tasks, Deploy))
  }

  /** Adding a task adds it to exactly one column's count. */
  lemma ColumnsMultisetAfterAdd(tasks: seq<Task>, t: Task)
    ensures ColumnsMultiset(tasks + [t]) == ColumnsMultiset(tasks) + multiset{t}
  {
    ColumnAfterAdd(tasks, t, Database);
    ColumnAfterAdd(tasks, t, Skills);
    ColumnAfterAdd(tasks, t, Deploy);
    var d, s, p := Column(tasks, Database), Column(tasks, Skills), Column(tasks, Deploy);
    match t.phase
    case Database => assert multiset(d + [t]) == multiset(d) + multiset{t};
    case Skills => assert multiset(s + [t]) == multiset(s) + multiset{t};
    case Deploy => assert multiset(p + [t]) == multiset(p) + multiset{t};
  }

  /** The three columns together hold every task exactly as often as the list does. */
  lemma {:induction false} ColumnsPartition(tasks: seq<Task>)
    ensures multiset(Column(tasks, Database)) + multiset(Column(tasks, Skills)) +
      multiset(Column(tasks, Deploy)) == multiset(tasks)
    ensures |Column(tasks, Database)| + |Column(tasks, Skills)| + |Column(tasks, Deploy)| == |tasks|
  {
    if |tasks| > 0 {
      var rest, t := tasks[..|tasks| - 1], tasks[|tasks| - 1];
      ColumnsPartition(rest);
      assert tasks == rest + [t];
      ColumnsMultisetAfterAdd(rest, t);
    }
    assert ColumnsMultiset(tasks) == multiset(tasks);
    assert |ColumnsMultiset(tasks)| == |tasks|;
  }

  /** Within a column, tasks keep their store order: it is the list read at increasing positions. */
  lemma ColumnKeepsOrder(tasks: seq<Task>, p: TaskPhase) returns (idx: seq<nat>)
    ensures |idx| == |Column(tasks, p)|
    ensures forall k :: 0 <= k < |idx| ==>
      idx[k] < |tasks| && tasks[idx[k]] == Column(tasks, p)[k] && tasks[idx[k]].phase == p
    ensures forall k, l :: 0 <= k < l < |idx| ==> idx[k] < idx[l]
  {
    idx := FilterIndices(tasks, InPhase(p));
  }

  /** A task added at the end of the list shows at the bottom of its own column and nowhere else. */
  lemma ColumnAfterAdd(tasks: seq<Task>, t: Task, p: TaskPhase)
    ensures Column(tasks + [t], p) == Column(tasks, p) + (if t.phase == p then [t] else [])
  {
    var s := tasks + [t];
    assert s[..|s| - 1] == tasks;
  }

  /** "No tasks for this phase" shows when the column is empty. */
  predicate ShowsEmptyNotice(tasks: seq<Task>, p: TaskPhase) {
    |Column(tasks, p)| == 0
  }

  /** The notice shows exactly when no task of the list has that phase. */
  lemma EmptyNoticeExactly(tasks: seq<Task>, p: TaskPhase)
    ensures ShowsEmptyNotice(tasks, p) <==> forall i :: 0 <= i < |tasks| ==> tasks[i].phase != p
  {
    if forall i :: 0 <= i < |tasks| ==> tasks[i].phase != p {
      FilterNone(tasks, InPhase(p));
    } else {
      var i :| 0 <= i < |tasks| && tasks[i].phase == p;
      ColumnMembers(tasks, p, tasks[i]);
    }
  }

  /** The page's own state: the add-task input, over the shared store. */
  class DailyView {
    const store: Store
    var newTaskTitle: string

    constructor (store: Store)
      ensures this.store == store && newTaskTitle == ""
    {
      this.store := store;
      newTaskTitle := "";
    }

    method EditTitle(s: string)
      modifies this
      ensures newTaskTitle == s
    {
      newTaskTitle := s;
    }

    /**
     * Submitting the form: a blank title does nothing; otherwise the title, as
     * typed and untrimmed, becomes a new task of phase Skills and the input is cleared.
     */
    method HandleAddTask(freshId: string)
      modifies this, store
      ensures IsBlank(old(newTaskTitle)) ==>
        store.State() == old(store.State()) && newTaskTitle == old(newTaskTitle)
      ensures !IsBlank(old(newTaskTitle)) ==>
        store.State() == old(store.State()).(tasks := old(store.tasks) + [Task(freshId, old(newTaskTitle), false, Skills)])
        && newTaskTitle == ""
      ensures store.Valid() == old(store.Valid())
    {
      if IsBlank(newTaskTitle) {
        return;
      }
      store.AddTask(newTaskTitle, Skills, freshId);
      newTaskTitle := "";
    }
  }
}
