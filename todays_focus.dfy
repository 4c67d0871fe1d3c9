/**
 * The "Today's Focus" card of the mentor room: it collects the open tasks of
 * the active goals that are due today or undated, tops the list up with one
 * generic task when fewer than three were found, and orders the list by how
 * well each task's energy level suits the user's current energy.
 */
module TodaysFocus {
  import opened Wrappers
  import opened StableSort
  import opened MentorModel

  /**
   * A task as the card lists it: the task's own fields, the goal and
   * milestone it belongs to, and an energy level that is always present.
   */
  datatype FocusTask = FocusTask(
    id: string,
    title: string,
    description: string,
    dueDate: Option<Day>,
    isCompleted: bool,
    tags: seq<string>,
    energy: Energy,
    goalId: string,
    milestoneId: string)

  // ---------------------------------------------------------------------------
  // Collecting the candidates

  /** `!task.dueDate || isToday(task.dueDate)`, with `today` the current calendar day. */
  predicate DueToday(t: Task, today: Day) {
    t.dueDate.None? || t.dueDate.value == today
  }

  /** The card lists `t` of milestone `m` of goal `g`. */
  predicate Collectable(g: Goal, m: Milestone, t: Task, today: Day) {
    g.isActive && !m.isCompleted && !t.isCompleted && DueToday(t, today)
  }

  /** The pushed record: the task with its owners' ids, a missing energy level read as medium. */
  function Lift(g: Goal, m: Milestone, t: Task): FocusTask {
    FocusTask(t.id, t.title, t.description, t.dueDate, t.isCompleted, t.tags,
              t.energyLevel.GetOr(Medium), g.id, m.id)
  }

  /** What the innermost loop pushes for the tasks `ts` of milestone `m`. */
  function FromTasks(g: Goal, m: Milestone, ts: seq<Task>, today: Day): seq<FocusTask>
    decreases |ts|
  {
    if |ts| == 0 then []
    else
      var t := ts[|ts| - 1];
      FromTasks(g, m, ts[..|ts| - 1], today)
        + (if !t.isCompleted && DueToday(t, today) then [Lift(g, m, t)] else [])
  }

  /** What the middle loop pushes for the milestones `ms` of goal `g`. */
  function FromMilestones(g: Goal, ms: seq<Milestone>, today: Day): seq<FocusTask>
    decreases |ms|
  {
    if |ms| == 0 then []
    else
      var m := ms[|ms| - 1];
      FromMilestones(g, ms[..|ms| - 1], today)
        + (if m.isCompleted then [] else FromTasks(g, m, m.tasks, today))
  }

  /** What the outer loop pushes for the goals `gs`. */
  function Candidates(gs: seq<Goal>, today: Day): seq<FocusTask>
    decreases |gs|
  {
    if |gs| == 0 then []
    else
      var g := gs[|gs| - 1];
      Candidates(gs[..|gs| - 1], today)
        + (if g.isActive then FromMilestones(g, g.milestones, today) else [])
  }

  /** The innermost `forEach`: push the open tasks of milestone `m` that are due today. */
  method PushTasks(g: Goal, m: Milestone, today: Day, acc: seq<FocusTask>) returns (tasks: seq<FocusTask>)
    ensures tasks == acc + FromTasks(g, m, m.tasks, today)
  {
    tasks := acc;
    var n := 0;
    while n < |m.tasks|
      invariant 0 <= n <= |m.tasks|
      invariant tasks == acc + FromTasks(g, m, m.tasks[..n], today)
    {
      var task := m.tasks[n];
      assert m.tasks[..n + 1][..n] == m.tasks[..n];
      if !task.isCompleted && DueToday(task, today) {
        tasks := tasks + [Lift(g, m, task)];
      }
      n := n + 1;
    }
    assert m.tasks[..|m.tasks|] == m.tasks;
  }

  /** The middle `forEach`: push the candidates of every open milestone of goal `g`. */
  method PushMilestones(g: Goal, today: Day, acc: seq<FocusTask>) returns (tasks: seq<FocusTask>)
    ensures tasks == acc + FromMilestones(g, g.milestones, today)
  {
    tasks := acc;
    var j := 0;
    while j < |g.milestones|
      invariant 0 <= j <= |g.milestones|
      invariant tasks == acc + FromMilestones(g, g.milestones[..j], today)
    {
      var milestone := g.milestones[j];
      assert g.milestones[..j + 1][..j] == g.milestones[..j];
      if !milestone.isCompleted {
        tasks := PushTasks(g, milestone, today, tasks);
      }
      j := j + 1;
    }
    assert g.milestones[..|g.milestones|] == g.milestones;
  }

  /** The first half of the `todaysTasks` memo: the outer `forEach` over the goals. */
  method CollectCandidates(goals: seq<Goal>, today: Day) returns (tasks: seq<FocusTask>)
    ensures tasks == Candidates(goals, today)
  {
    tasks := [];
    var i := 0;
    while i < |goals|
      invariant 0 <= i <= |goals|
      invariant tasks == Candidates(goals[..i], today)
    {
      var goal := goals[i];
      assert goals[..i + 1][..i] == goals[..i];
      if goal.isActive {
        tasks := PushMilestones(goal, today, tasks);
      }
      i := i + 1;
    }
    assert goals[..|goals|] == goals;
  }

  /** Every task the innermost loop pushes is an open task of `ts` due today, lifted. */
  lemma {:induction false} FromTasksSound(g: Goal, m: Milestone, ts: seq<Task>, today: Day, k: nat)
    requires k < |FromTasks(g, m, ts, today)|
    ensures exists n :: 0 <= n < |ts| && !ts[n].isCompleted && DueToday(ts[n], today)
                        && FromTasks(g, m, ts, today)[k] == Lift(g, m, ts[n])
    decreases |ts|
  {
    var init := FromTasks(g, m, ts[..|ts| - 1], today);
    if k < |init| {
      FromTasksSound(g, m, ts[..|ts| - 1], today, k);
      var n :| 0 <= n < |ts| - 1 && !ts[..|ts| - 1][n].isCompleted && DueToday(ts[..|ts| - 1][n], today)
               && init[k] == Lift(g, m, ts[..|ts| - 1][n]);
      assert ts[..|ts| - 1][n] == ts[n];
    } else {
      assert FromTasks(g, m, ts, today)[k] == Lift(g, m, ts[|ts| - 1]);
    }
  }

  lemma {:induction false} FromMilestonesSound(g: Goal, ms: seq<Milestone>, today: Day, k: nat)
    requires k < |FromMilestones(g, ms, today)|
    ensures exists j, n :: 0 <= j < |ms| && 0 <= n < |ms[j].tasks| && !ms[j].isCompleted
                           && !ms[j].tasks[n].isCompleted && DueToday(ms[j].tasks[n], today)
                           && FromMilestones(g, ms, today)[k] == Lift(g, ms[j], ms[j].tasks[n])
    decreases |ms|
  {
    var init := FromMilestones(g, ms[..|ms| - 1], today);
    var last := ms[|ms| - 1];
    if k < |init| {
      FromMilestonesSound(g, ms[..|ms| - 1], today, k);
      var j, n :| 0 <= j < |ms| - 1 && 0 <= n < |ms[..|ms| - 1][j].tasks| && !ms[..|ms| - 1][j].isCompleted
                  && !ms[..|ms| - 1][j].tasks[n].isCompleted && DueToday(ms[..|ms| - 1][j].tasks[n], today)
                  && init[k] == Lift(g, ms[..|ms| - 1][j], ms[..|ms| - 1][j].tasks[n]);
      assert ms[..|ms| - 1][j] == ms[j];
    } else {
      FromTasksSound(g, last, last.tasks, today, k - |init|);
      var n :| 0 <= n < |last.tasks| && !last.tasks[n].isCompleted && DueToday(last.tasks[n], today)
               && FromTasks(g, last, last.tasks, today)[k - |init|] == Lift(g, last, last.tasks[n]);
      assert FromMilestones(g, ms, today)[k] == Lift(g, ms[|ms| - 1], ms[|ms| - 1].tasks[n]);
    }
  }

  /**
   * Every candidate is a task that is not completed and is due today or
   * undated, of a milestone that is not completed, of an active goal, and it
   * carries that goal's and milestone's ids.
   */
  lemma {:induction false} CandidatesSound(gs: seq<Goal>, today: Day, k: nat)
    requires k < |Candidates(gs, today)|
    ensures exists i, j, n :: 0 <= i < |gs| && 0 <= j < |gs[i].milestones| && 0 <= n < |gs[i].milestones[j].tasks|
                              && Collectable(gs[i], gs[i].milestones[j], gs[i].milestones[j].tasks[n], today)
                              && Candidates(gs, today)[k] == Lift(gs[i], gs[i].milestones[j], gs[i].milestones[j].tasks[n])
    decreases |gs|
  {
    var init := Candidates(gs[..|gs| - 1], today);
    var last := gs[|gs| - 1];
    if k < |init| {
      CandidatesSound(gs[..|gs| - 1], today, k);
      var i, j, n :| 0 <= i < |gs| - 1 && 0 <= j < |gs[..|gs| - 1][i].milestones|
                     && 0 <= n < |gs[..|gs| - 1][i].milestones[j].tasks|
                     && Collectable(gs[..|gs| - 1][i], gs[..|gs| - 1][i].milestones[j], gs[..|gs| - 1][i].milestones[j].tasks[n], today)
                     && init[k] == Lift(gs[..|gs| - 1][i], gs[..|gs| - 1][i].milestones[j], gs[..|gs| - 1][i].milestones[j].tasks[n]);
      assert gs[..|gs| - 1][i] == gs[i];
    } else {
      FromMilestonesSound(last, last.milestones, today, k - |init|);
      var j, n :| 0 <= j < |last.milestones| && 0 <= n < |last.milestones[j].tasks| && !last.milestones[j].isCompleted
                  && !last.milestones[j].tasks[n].isCompleted && DueToday(last.milestones[j].tasks[n], today)
                  && FromMilestones(last, last.milestones, today)[k - |init|] == Lift(last, last.milestones[j], last.milestones[j].tasks[n]);
      assert Collectable(gs[|gs| - 1], gs[|gs| - 1].milestones[j], gs[|gs| - 1].milestones[j].tasks[n], today);
    }
  }

  lemma {:induction false} FromTasksComplete(g: Goal, m: Milestone, ts: seq<Task>, today: Day, n: nat)
    requires n < |ts| && !ts[n].isCompleted && DueToday(ts[n], today)
    ensures Lift(g, m, ts[n]) in FromTasks(g, m, ts, today)
    decreases |ts|
  {
    if n < |ts| - 1 {
      FromTasksComplete(g, m, ts[..|ts| - 1], today, n);
      assert ts[..|ts| - 1][n] == ts[n];
    }
  }

  lemma {:induction false} FromMilestonesComplete(g: Goal, ms: seq<Milestone>, today: Day, j: nat, n: nat)
    requires j < |ms| && n < |ms[j].tasks| && !ms[j].isCompleted
    requires !ms[j].tasks[n].isCompleted && DueToday(ms[j].tasks[n], today)
    ensures Lift(g, ms[j], ms[j].tasks[n]) in FromMilestones(g, ms, today)
    decreases |ms|
  {
    if j < |ms| - 1 {
      assert ms[..|ms| - 1][j] == ms[j];
      FromMilestonesComplete(g, ms[..|ms| - 1], today, j, n);
    } else {
      FromTasksComplete(g, ms[j], ms[j].tasks, today, n);
    }
  }

  /** Conversely, every collectable task of every goal is among the candidates. */
  lemma {:induction false} CandidatesComplete(gs: seq<Goal>, today: Day, i: nat, j: nat, n: nat)
    requires i < |gs| && j < |gs[i].milestones| && n < |gs[i].milestones[j].tasks|
    requires Collectable(gs[i], gs[i].milestones[j], gs[i].milestones[j].tasks[n], today)
    ensures Lift(gs[i], gs[i].milestones[j], gs[i].milestones[j].tasks[n]) in Candidates(gs, today)
    decreases |gs|
  {
    if i < |gs| - 1 {
      assert gs[..|gs| - 1][i] == gs[i];
      CandidatesComplete(gs[..|gs| - 1], today, i, j, n);
    } else {
      FromMilestonesComplete(gs[i], gs[i].milestones, today, j, n);
    }
  }

  /** The candidates of the goals `a + b` are those of `a` followed by those of `b`: goal order is kept. */
  lemma {:induction false} CandidatesAppend(a: seq<Goal>, b: seq<Goal>, today: Day)
    ensures Candidates(a + b, today) == Candidates(a, today) + Candidates(b, today)
    decreases |b|
  {
    if |b| == 0 {
      assert a + b == a;
    } else {
      assert (a + b)[..|a + b| - 1] == a + b[..|b| - 1];
      CandidatesAppend(a, b[..|b| - 1], today);
    }
  }

  /** Within a goal, milestone order is kept. */
  lemma {:induction false} FromMilestonesAppend(g: Goal, a: seq<Milestone>, b: seq<Milestone>, today: Day)
    ensures FromMilestones(g, a + b, today) == FromMilestones(g, a, today) + FromMilestones(g, b, today)
    decreases |b|
  {
    if |b| == 0 {
      assert a + b == a;
    } else {
      var init, m := b[..|b| - 1], b[|b| - 1];
      assert b == init + [m];
      assert a + b == (a + init) + [m];
      FromMilestonesAppend(g, a, init, today);
      FromMilestonesSnoc(g, a + init, m, today);
      FromMilestonesSnoc(g, init, m, today);
    }
  }

  /** One more milestone at the end adds its records at the end. */
  lemma FromMilestonesSnoc(g: Goal, s: seq<Milestone>, m: Milestone, today: Day)
    ensures FromMilestones(g, s + [m], today)
            == FromMilestones(g, s, today) + (if m.isCompleted then [] else FromTasks(g, m, m.tasks, today))
  {
    assert (s + [m])[..|s|] == s;
  }

  /** Within a milestone, task order is kept. */
  lemma {:induction false} FromTasksAppend(g: Goal, m: Milestone, a: seq<Task>, b: seq<Task>, today: Day)
    ensures FromTasks(g, m, a + b, today) == FromTasks(g, m, a, today) + FromTasks(g, m, b, today)
    decreases |b|
  {
    if |b| == 0 {
      assert a + b == a;
    } else {
      assert (a + b)[..|a + b| - 1] == a + b[..|b| - 1];
      FromTasksAppend(g, m, a, b[..|b| - 1], today);
    }
  }

  /** A task without an energy level is listed as medium; one with a level keeps it. */
  lemma LiftEnergy(g: Goal, m: Milestone, t: Task)
    ensures t.energyLevel.None? ==> Lift(g, m, t).energy == Medium
    ensures t.energyLevel.Some? ==> Lift(g, m, t).energy == t.energyLevel.value
    ensures Lift(g, m, t).goalId == g.id && Lift(g, m, t).milestoneId == m.id && Lift(g, m, t).id == t.id
  {
  }

  // ---------------------------------------------------------------------------
  // The backfilled task

  /**
   * The index of the goal that `[...goals].filter(isActive)` sorted by
   * `createdAt`, newest first, puts first.
   */
  function LatestActive(gs: seq<Goal>): (r: Option<nat>)
    ensures r.Some? ==> r.value < |gs|
    decreases |gs|
  {
    if |gs| == 0 then None
    else
      var r := LatestActive(gs[..|gs| - 1]);
      var g := gs[|gs| - 1];
      if !g.isActive then r
      else if r.None? || gs[r.value].createdAt < g.createdAt then Some(|gs| - 1)
      else r
  }

  /**
   * The chosen goal is active and no active goal is newer; since the sort is
   * stable, no earlier active goal is as new. There is none exactly when no
   * goal is active.
   */
  lemma {:induction false} LatestActiveSpec(gs: seq<Goal>)
    ensures LatestActive(gs).None? <==> forall i :: 0 <= i < |gs| ==> !gs[i].isActive
    ensures LatestActive(gs).Some? ==>
              var l := LatestActive(gs).value;
              gs[l].isActive
              && (forall i :: 0 <= i < |gs| && gs[i].isActive ==> gs[i].createdAt <= gs[l].createdAt)
              && (forall i :: 0 <= i < l && gs[i].isActive ==> gs[i].createdAt < gs[l].createdAt)
    decreases |gs|
  {
    if |gs| > 0 {
      var init := gs[..|gs| - 1];
      LatestActiveSpec(init);
      assert forall i :: 0 <= i < |init| ==> init[i] == gs[i];
    }
  }

  /** The title of the generic task at energy `e` for a goal titled `title`. */
  function SuggestionTitle(e: Energy, title: string): string {
    match e
    case Low => "Reflect on your progress with \"" + title + "\""
    case Medium => "Work on one step toward \"" + title + "\""
    case High => "Make significant progress on \"" + title + "\""
  }

  /** The description of the generic task at energy `e`. */
  function SuggestionText(e: Energy): string {
    match e
    case Low => "Take a few minutes to think about what's working and what's not"
    case Medium => "Choose an achievable task that moves you forward"
    case High => "Use your high energy to tackle something challenging"
  }

  /** The tags of the generic task at energy `e`. */
  function SuggestionTags(e: Energy): seq<string> {
    match e
    case Low => ["reflection", "low-energy"]
    case Medium => ["action", "medium-energy"]
    case High => ["challenge", "high-energy"]
  }

  /**
   * The generic task for `goal` at the current energy `level` (medium when
   * unset). `id` is the new task's id and `placeholder` the id of the stand-in
   * milestone used when the goal has none.
   */
  function Backfill(goal: Goal, level: Option<Energy>, id: string, placeholder: string): FocusTask {
    var e := level.GetOr(Medium);
    var milestoneId := if |goal.milestones| > 0 then goal.milestones[0].id else placeholder;
    FocusTask(id, SuggestionTitle(e, goal.title), SuggestionText(e), None, false, SuggestionTags(e), e, goal.id, milestoneId)
  }

  /** What the backfill step appends after `count` candidates: nothing or one task for the newest active goal. */
  function Backfilled(goals: seq<Goal>, count: nat, level: Option<Energy>, id: string, placeholder: string): seq<FocusTask> {
    if count < 3 && |goals| > 0 then
      match LatestActive(goals)
      case Some(l) => [Backfill(goals[l], level, id, placeholder)]
      case None => []
    else []
  }

  /** Exactly one task is backfilled when there are fewer than three candidates and some goal is active. */
  lemma BackfillCount(goals: seq<Goal>, count: nat, level: Option<Energy>, id: string, placeholder: string)
    ensures |Backfilled(goals, count, level, id, placeholder)| <= 1
    ensures |Backfilled(goals, count, level, id, placeholder)| == 1
            <==> count < 3 && exists i :: 0 <= i < |goals| && goals[i].isActive
  {
    LatestActiveSpec(goals);
  }

  /**
   * The backfilled task is an open task of the newest active goal and of its
   * first milestone (or the placeholder), with the energy and tags of the
   * current level.
   */
  lemma BackfillShape(goal: Goal, level: Option<Energy>, id: string, placeholder: string)
    ensures var t := Backfill(goal, level, id, placeholder);
            && t.id == id && !t.isCompleted && t.dueDate.None?
            && t.goalId == goal.id
            && t.milestoneId == (if |goal.milestones| > 0 then goal.milestones[0].id else placeholder)
            && t.energy == level.GetOr(Medium)
            && (t.energy == Low ==> t.tags == ["reflection", "low-energy"])
            && (t.energy == Medium ==> t.tags == ["action", "medium-energy"])
            && (t.energy == High ==> t.tags == ["challenge", "high-energy"])
  {
  }

  /** The `todaysTasks` memo: the candidates, then the backfill. */
  method TodaysTasks(goals: seq<Goal>, today: Day, level: Option<Energy>, id: string, placeholder: string)
    returns (tasks: seq<FocusTask>)
    ensures var c := Candidates(goals, today);
            tasks == c + Backfilled(goals, |c|, level, id, placeholder)
  {
    tasks := CollectCandidates(goals, today);
    if |tasks| < 3 && |goals| > 0 {
      var latest := LatestActive(goals);
      if latest.Some? {
        tasks := tasks + [Backfill(goals[latest.value], level, id, placeholder)];
      }
    }
  }

  // ---------------------------------------------------------------------------
  // Prioritising

  /** The comparator passed to `sortedTasks.sort`, on the two tasks' energy levels. */
  function Compare(a: Energy, b: Energy, level: Energy): int {
    if a == level && b != level then -1
    else if a != level && b == level then 1
    else if level == Low && a == Low && b != Low then -1
    else if level == Low && a != Low && b == Low then 1
    else if level == Low && a == Medium && b == High then -1
    else if level == Low && a == High && b == Medium then 1
    else if level == High && a == High && b != High then -1
    else if level == High && a != High && b == High then 1
    else if level == High && a == Medium && b == Low then -1
    else if level == High && a == Low && b == Medium then 1
    else 0
  }

  /**
   * The place the comparator gives an energy level: the current level first;
   * at low energy then medium, then high; at high energy then medium, then
   * low; at medium energy low and high tie.
   */
  function Rank(e: Energy, level: Energy): (r: nat)
    ensures r <= 2
    ensures r == 0 <==> e == level
  {
    if e == level then 0
    else if level == Medium || e == Medium then 1
    else 2
  }

  /** The comparator orders tasks exactly by rank, so it is a consistent total preorder. */
  lemma CompareByRank(a: Energy, b: Energy, level: Energy)
    ensures Compare(a, b, level) < 0 <==> Rank(a, level) < Rank(b, level)
    ensures Compare(a, b, level) == 0 <==> Rank(a, level) == Rank(b, level)
    ensures Compare(a, b, level) > 0 <==> Rank(a, level) > Rank(b, level)
  {
  }

  /** The sort key: a task's rank at the current energy level. */
  function RankKey(level: Energy): FocusTask -> nat {
    (t: FocusTask) => Rank(t.energy, level)
  }

  lemma RankKeyThreeWay(level: Energy)
    ensures ThreeWay(RankKey(level))
  {
  }

  /**
   * The `prioritizedTasks` memo: the collected list itself when no energy
   * level is set, otherwise a copy of it sorted stably by rank.
   */
  method Prioritize(tasks: seq<FocusTask>, level: Option<Energy>) returns (sorted: seq<FocusTask>)
    ensures level.None? ==> sorted == tasks
    ensures level.Some? ==> sorted == ByKey(tasks, RankKey(level.value))
  {
    if level.None? {
      return tasks;
    }
    var copy := new FocusTask[|tasks|](k requires 0 <= k < |tasks| => tasks[k]);
    assert copy[..] == tasks;
    RankKeyThreeWay(level.value);
    SortByKey(copy, RankKey(level.value));
    sorted := copy[..];
  }

  /** The prioritised list holds the same tasks as the collected list, each as often. */
  lemma PrioritizedPermutation(tasks: seq<FocusTask>, level: Energy)
    ensures multiset(ByKey(tasks, RankKey(level))) == multiset(tasks)
  {
    RankKeyThreeWay(level);
    ByKeyPermutation(tasks, RankKey(level));
  }

  /**
   * Tasks of equal rank keep the order in which they were collected, as the
   * engine's sort is stable.
   */
  lemma PrioritizedStable(tasks: seq<FocusTask>, level: Energy, q: nat)
    requires q <= 2
    ensures Ranked(ByKey(tasks, RankKey(level)), RankKey(level), q) == Ranked(tasks, RankKey(level), q)
  {
    ByKeyStable(tasks, RankKey(level), q);
  }

  /**
   * Along the prioritised list ranks never decrease, so the comparator never
   * prefers a later task to an earlier one, and the tasks at the current level
   * come first.
   */
  lemma PrioritizedOrder(tasks: seq<FocusTask>, level: Energy, m: int, n: int)
    requires 0 <= m < n < |ByKey(tasks, RankKey(level))|
    ensures var p := ByKey(tasks, RankKey(level));
            && Rank(p[m].energy, level) <= Rank(p[n].energy, level)
            && Compare(p[m].energy, p[n].energy, level) <= 0
            && (p[n].energy == level ==> p[m].energy == level)
  {
    var p := ByKey(tasks, RankKey(level));
    ByKeySorted(tasks, RankKey(level), m, n);
    CompareByRank(p[m].energy, p[n].energy, level);
  }
}
