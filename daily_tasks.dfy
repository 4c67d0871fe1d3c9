/**
 * The "Today's Focus" page: one list of ad-hoc tasks for the day, loaded from
 * local storage when the page mounts, mirrored back into it after every
 * change, and edited by completing, skipping, adding and clearing tasks.
 */
module DailyTasks {
  import opened Wrappers
  import opened Seqs
  import opened Text

  /** A task of the page; `goalTitle` is absent when the form's goal field was left empty. */
  datatype DailyTask = DailyTask(
    id: string,
    title: string,
    description: string,
    goalTitle: Option<string>,
    completed: bool)

  /** The add-task form: its three text fields. */
  datatype Draft = Draft(title: string, description: string, goalTitle: string)

  /** The form field an input event names. */
  datatype DraftField = TitleField | DescriptionField | GoalTitleField

  const EmptyDraft: Draft := Draft("", "", "")

  // ---------------------------------------------------------------------------
  // The list edits, as functions of the old list

  /** `handleComplete`: every task with id `id` becomes completed. */
  function MarkCompleted(ts: seq<DailyTask>, id: string): seq<DailyTask> {
    seq(|ts|, k requires 0 <= k < |ts| => if ts[k].id == id then ts[k].(completed := true) else ts[k])
  }

  /** The test `task.id !== id`. */
  function IdIsNot(id: string): DailyTask -> bool {
    (t: DailyTask) => t.id != id
  }

  /** The test `!task.completed`. */
  predicate IsOpen(t: DailyTask) {
    !t.completed
  }

  /** The test `task.completed`. */
  predicate IsDone(t: DailyTask) {
    t.completed
  }

  /** `handleSkip`: the tasks whose id is not `id`. */
  function Skipped(ts: seq<DailyTask>, id: string): seq<DailyTask> {
    Filter(ts, IdIsNot(id))
  }

  /** `handleClearCompletedTasks`: the tasks not completed. */
  function Cleared(ts: seq<DailyTask>): seq<DailyTask> {
    Filter(ts, IsOpen)
  }

  /** The record `handleAddTask` appends for the form `d`. */
  function NewTask(d: Draft, id: string): DailyTask {
    DailyTask(id, d.title, d.description, if d.goalTitle == "" then None else Some(d.goalTitle), false)
  }

  /** `completedTasks`: how many tasks are completed. */
  function CompletedCount(ts: seq<DailyTask>): nat {
    |Filter(ts, IsDone)|
  }

  /**
   * The progress figure: 0 for an empty list, otherwise 100·completed/total
   * rounded half up, computed exactly.
   */
  function Percent(completed: nat, total: nat): nat {
    if total == 0 then 0 else (200 * completed + total) / (2 * total)
  }

  // ---------------------------------------------------------------------------
  // Facts about the edits

  /**
   * Completing changes only the `completed` flag, and sets it on the tasks
   * with that id; the other tasks, the length and the order stay.
   */
  lemma MarkCompletedSpec(ts: seq<DailyTask>, id: string, k: int)
    requires 0 <= k < |ts|
    ensures |MarkCompleted(ts, id)| == |ts|
    ensures MarkCompleted(ts, id)[k].completed == (ts[k].completed || ts[k].id == id)
    ensures MarkCompleted(ts, id)[k].(completed := ts[k].completed) == ts[k]
  {
  }

  /** Completing twice is completing once. */
  lemma MarkCompletedIdempotent(ts: seq<DailyTask>, id: string)
    ensures MarkCompleted(MarkCompleted(ts, id), id) == MarkCompleted(ts, id)
  {
  }

  /** Skipping removes every task with that id and keeps every other one. */
  lemma SkippedSpec(ts: seq<DailyTask>, id: string)
    ensures forall k :: 0 <= k < |Skipped(ts, id)| ==> Skipped(ts, id)[k].id != id
    ensures forall k :: 0 <= k < |ts| && ts[k].id != id ==> ts[k] in Skipped(ts, id)
  {
    var r := Skipped(ts, id);
    forall k | 0 <= k < |r|
      ensures r[k].id != id
    {
      assert IdIsNot(id)(r[k]);
    }
    forall k | 0 <= k < |ts| && ts[k].id != id
      ensures ts[k] in r
    {
      assert IdIsNot(id)(ts[k]);
    }
  }

  /** Skipping keeps the others in their relative order: it works piece by piece. */
  lemma SkippedAppend(a: seq<DailyTask>, b: seq<DailyTask>, id: string)
    ensures Skipped(a + b, id) == Skipped(a, id) + Skipped(b, id)
  {
    FilterAppend(a, b, IdIsNot(id));
  }

  /** Clearing leaves no completed task, keeps every open one, and clearing twice is clearing once. */
  lemma ClearedSpec(ts: seq<DailyTask>)
    ensures CompletedCount(Cleared(ts)) == 0
    ensures forall k :: 0 <= k < |ts| && !ts[k].completed ==> ts[k] in Cleared(ts)
    ensures Cleared(Cleared(ts)) == Cleared(ts)
  {
    var r := Cleared(ts);
    FilterDropsAll(r, IsDone);
    FilterIdempotent(ts, IsOpen);
  }

  /** There are never more completed tasks than tasks. */
  lemma CountsBounded(ts: seq<DailyTask>)
    ensures CompletedCount(ts) <= |ts|
  {
  }

  /**
   * The percent lies in [0, 100], is 0 for no tasks and 100 when all are
   * done, and is the integer nearest to 100·completed/total, halves rounded up.
   */
  lemma PercentSpec(completed: nat, total: nat)
    requires completed <= total
    ensures 0 <= Percent(completed, total) <= 100
    ensures completed == 0 ==> Percent(completed, total) == 0
    ensures total > 0 ==>
              2 * total * Percent(completed, total) <= 200 * completed + total
              < 2 * total * (Percent(completed, total) + 1)
    ensures total > 0 && completed == total ==> Percent(completed, total) == 100
  {
    if total > 0 {
      var n, d := 200 * completed + total, 2 * total;
      var p, r := n / d, n % d;
      assert n == d * p + r && 0 <= r < d;
      if p > 100 {
        ScaleMonotone(d, 101, p);
        assert false;
      }
      if completed == total {
        QuotientOf(n, d, 100, total);
      }
      if completed == 0 {
        QuotientOf(n, d, 0, total);
      }
    }
  }

  lemma ScaleMonotone(d: nat, a: nat, b: nat)
    requires a <= b
    ensures d * a <= d * b
  {
  }

  /** `n / d` is `q` when `n` is `q` times `d` plus a remainder below `d`. */
  lemma QuotientOf(n: nat, d: nat, q: nat, r: nat)
    requires 0 <= r < d && n == d * q + r
    ensures n / d == q
  {
    var q', r' := n / d, n % d;
    assert n == d * q' + r';
    if q' < q {
      ScaleMonotone(d, q' + 1, q);
    } else if q' > q {
      ScaleMonotone(d, q + 1, q');
    }
  }

  // ---------------------------------------------------------------------------
  // The page state

  class DailyFocus {
    /** The `tasks` state. */
    var tasks: seq<DailyTask>
    /** The add-task form and whether it is shown. */
    var draft: Draft
    var showAddForm: bool
    /** What local storage holds under the page's key. */
    var saved: Stored<seq<DailyTask>>

    /** The save effect has run: storage holds the current list. */
    predicate Persisted()
      reads this
    {
      saved == Json(tasks)
    }

    /**
     * Mounting the page with `stored` in local storage: the load effect takes
     * a stored list; a missing or unparsable value leaves the list empty.
     */
    constructor (stored: Stored<seq<DailyTask>>)
      ensures stored.Json? ==> tasks == stored.value
      ensures !stored.Json? ==> tasks == []
      ensures draft == EmptyDraft && !showAddForm
      ensures Persisted()
    {
      tasks := match stored
        case Json(ts) => ts
        case _ => [];
      draft := EmptyDraft;
      showAddForm := false;
      saved := Json(if stored.Json? then stored.value else []);
    }

    /** `handleComplete(id)`. */
    method Complete(id: string)
      modifies this
      ensures tasks == MarkCompleted(old(tasks), id)
      ensures draft == old(draft) && showAddForm == old(showAddForm)
      ensures Persisted()
    {
      tasks := MarkCompleted(tasks, id);
      saved := Json(tasks);
    }

    /** `handleSkip(id)`. */
    method Skip(id: string)
      modifies this
      ensures tasks == Skipped(old(tasks), id)
      ensures draft == old(draft) && showAddForm == old(showAddForm)
      ensures Persisted()
    {
      tasks := Skipped(tasks, id);
      saved := Json(tasks);
    }

    /** `handleInputChange`: one form field takes the typed value. */
    method Edit(field: DraftField, value: string)
      modifies this
      ensures draft == match field
        case TitleField => old(draft).(title := value)
        case DescriptionField => old(draft).(description := value)
        case GoalTitleField => old(draft).(goalTitle := value)
      ensures tasks == old(tasks) && showAddForm == old(showAddForm) && saved == old(saved)
    {
      match field
      case TitleField => draft := draft.(title := value);
      case DescriptionField => draft := draft.(description := value);
      case GoalTitleField => draft := draft.(goalTitle := value);
    }

    /** The "Add New Task" / "Cancel" button. */
    method ToggleForm()
      modifies this
      ensures showAddForm == !old(showAddForm)
      ensures tasks == old(tasks) && draft == old(draft) && saved == old(saved)
    {
      showAddForm := !showAddForm;
    }

    /**
     * `handleAddTask` with `id` as the new task's id: a title that is empty
     * or only white space changes nothing; otherwise one open task is
     * appended and the form is emptied and hidden.
     */
    method AddTask(id: string) returns (added: bool)
      requires Persisted()
      modifies this
      ensures added <==> !AllSpace(old(draft).title)
      ensures !added ==> tasks == old(tasks) && draft == old(draft) && showAddForm == old(showAddForm)
      ensures added ==> tasks == old(tasks) + [NewTask(old(draft), id)] && draft == EmptyDraft && !showAddForm
      ensures Persisted()
    {
      if Trim(draft.title) == "" {
        return false;
      }
      tasks := tasks + [NewTask(draft, id)];
      saved := Json(tasks);
      draft := EmptyDraft;
      showAddForm := false;
      added := true;
    }

    /** `handleClearCompletedTasks`. */
    method ClearCompleted()
      modifies this
      ensures tasks == Cleared(old(tasks))
      ensures draft == old(draft) && showAddForm == old(showAddForm)
      ensures Persisted()
    {
      tasks := Cleared(tasks);
      saved := Json(tasks);
    }

    /** The figure shown in the progress circle. */
    function Progress(): (p: nat)
      reads this
      ensures p <= 100
    {
      CountsBounded(tasks);
      PercentSpec(CompletedCount(tasks), |tasks|);
      Percent(CompletedCount(tasks), |tasks|)
    }
  }
}
