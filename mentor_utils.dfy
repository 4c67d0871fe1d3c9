/**
 * The text heuristics of the mentor: goal extraction, the starter milestone
 * plan, and completion/failure feedback with its obstacle phrase.
 */
module MentorUtils {
  import opened Wrappers
  import opened Text
  import opened Patterns
  import opened MentorModel

  /** Lead-ins of the goal pattern, in the order of its alternation. */
  const GoalLeads: seq<string> :=
    ["my goal is", "i want to", "i would like to", "i'd like to", "i aim to",
     "planning to", "trying to", "goal:", "i need to"]

  /** Lead-ins of the deadline pattern. */
  const DeadlineLeads: seq<string> := ["by", "until", "before", "deadline is", "due", "complete by"]

  /** Lead-ins of the motivation pattern. */
  const MotivationLeads: seq<string> :=
    ["because", "so that", "in order to", "as", "motivation is", "reason is", "motivated by"]

  /** The two obstacle patterns, in the order they are tried. */
  const ObstaclePatterns: seq<seq<string>> :=
    [["because", "since", "as", "reason is"],
     ["got in the way", "obstacle was", "problem was", "issue was"]]

  const CompletionIndicators: seq<string> :=
    ["completed", "finished", "done", "accomplished", "achieved", "did it"]

  const FailureIndicators: seq<string> :=
    ["didn't do", "couldn't do", "failed", "missed", "skipped", "forgot"]

  /** What `extractGoalFromMessage` returns on success: a goal without id, creation time or status. */
  datatype GoalDraft = GoalDraft(
    title: string,
    description: string,
    deadline: Deadline,
    keyMotivators: seq<string>,
    milestones: seq<Milestone>)

  // ---------------------------------------------------------------------------
  // extractGoalFromMessage

  /** The deadline that a (trimmed) deadline phrase stands for. */
  function ResolveDeadline(text: string): Deadline {
    var lower := Lower(text);
    if Contains(lower, "week") then InOneWeek
    else if Contains(lower, "month") then InOneMonth
    else if Contains(lower, "tomorrow") then Tomorrow
    else ParsedFrom(text)
  }

  /**
   * The key words are tried in order, wherever they occur in the phrase and
   * in any letter case: "week", then "month", then "tomorrow"; a phrase with
   * none of them is left to date parsing. A found phrase always sets some
   * deadline.
   */
  lemma ResolveDeadlineOrder(text: string)
    ensures var d := ResolveDeadline(text);
      var lower := Lower(text);
      && (Contains(lower, "week") ==> d == InOneWeek)
      && (d == InOneMonth <==> !Contains(lower, "week") && Contains(lower, "month"))
      && (d == Tomorrow <==> !Contains(lower, "week") && !Contains(lower, "month") && Contains(lower, "tomorrow"))
      && (d.ParsedFrom? <==> !Contains(lower, "week") && !Contains(lower, "month") && !Contains(lower, "tomorrow"))
      && (d.ParsedFrom? ==> d.text == text)
      && d != NoDeadline
  {
  }

  /** The deadline of a message, found independently of its goal phrase. */
  function DeadlineOf(message: string): Deadline {
    match Capture(message, DeadlineLeads)
    case None => NoDeadline
    case Some(c) => ResolveDeadline(Trim(c))
  }

  /** A message has a deadline exactly when the deadline pattern matches, which needs a lead-in and white space. */
  lemma DeadlineOfSpec(message: string)
    ensures DeadlineOf(message) == NoDeadline <==> Capture(message, DeadlineLeads).None?
    ensures !Announced(message, DeadlineLeads) ==> DeadlineOf(message) == NoDeadline
  {
    CaptureSpec(message, DeadlineLeads);
  }

  /** The key motivators of a message: at most one, the trimmed motivation phrase. */
  function MotivatorsOf(message: string): seq<string> {
    match Capture(message, MotivationLeads)
    case None => []
    case Some(c) => [Trim(c)]
  }

  /** `extractGoalFromMessage`. */
  function ExtractGoalFromMessage(message: string): Option<GoalDraft> {
    match Capture(message, GoalLeads)
    case None => None
    case Some(c) =>
      var goal := Trim(c);
      if Utf16Length(goal) < 5 then None
      else Some(GoalDraft(goal, goal, DeadlineOf(message), MotivatorsOf(message), []))
  }

  /**
   * A goal is found exactly when the goal pattern matches and its trimmed
   * group is at least five code units long; that group is both title and
   * description, the plan is still empty, and deadline and motivators come
   * from their own patterns run over the whole message.
   */
  lemma ExtractGoalSpec(message: string)
    ensures var r := ExtractGoalFromMessage(message);
      && (r.Some? ==> Announced(message, GoalLeads))
      && (r.Some? <==> Capture(message, GoalLeads).Some? && Utf16Length(Trim(Capture(message, GoalLeads).value)) >= 5)
      && (r.Some? ==>
            && r.value.title == r.value.description == Trim(Capture(message, GoalLeads).value)
            && |r.value.title| >= 3 && r.value.milestones == []
            && r.value.deadline == DeadlineOf(message)
            && r.value.keyMotivators == MotivatorsOf(message))
  {
    CaptureSpec(message, GoalLeads);
  }

  /** At most one motivator, the trimmed group of the motivation pattern. */
  lemma MotivatorsSpec(message: string)
    ensures var r := MotivatorsOf(message);
      && |r| <= 1
      && (r == [] <==> Capture(message, MotivationLeads).None?)
      && (|r| == 1 ==> r[0] == Trim(Capture(message, MotivationLeads).value))
  {
  }

  /** A message with no goal lead-in followed by white space yields no goal. */
  lemma NoGoalLeadNoGoal(message: string)
    requires !Announced(message, GoalLeads)
    ensures ExtractGoalFromMessage(message) == None
  {
    NoLeadNoCapture(message, GoalLeads);
  }

  /** A goal phrase shorter than five code units yields no goal, whatever else the message holds. */
  lemma ShortGoalIgnored(message: string)
    requires Capture(message, GoalLeads).Some?
    requires Utf16Length(Trim(Capture(message, GoalLeads).value)) < 5
    ensures ExtractGoalFromMessage(message) == None
  {
  }

  // ---------------------------------------------------------------------------
  // generateInitialMilestones

  /** The five fresh identifiers that `generateInitialMilestones` draws. */
  datatype PlanIds = PlanIds(first: string, research: string, metrics: string, second: string, step: string)

  function PlanMilestone(goalTitle: string, ids: PlanIds): Milestone {
    Milestone(ids.first, "Plan your approach to " + goalTitle,
      "Create a specific plan with actionable steps",
      None,
      [Task(ids.research, "Research methods and best practices",
         "Find proven approaches for achieving this goal", None, false, ["planning", "research"], None),
       Task(ids.metrics, "Define measurable success criteria",
         "Create clear metrics to track progress", None, false, ["planning", "metrics"], None)],
      false)
  }

  function ActionMilestone(goalTitle: string, ids: PlanIds): Milestone {
    Milestone(ids.second, "Take first action step",
      "Complete the first concrete action toward your goal",
      None,
      [Task(ids.step, "Take the first small step toward " + goalTitle,
         "Start with something achievable to build momentum", None, false, ["action", "momentum"], None)],
      false)
  }

  /** Every milestone of `ms` and every task in it is not completed. */
  predicate NothingCompleted(ms: seq<Milestone>) {
    forall i :: 0 <= i < |ms| ==>
      !ms[i].isCompleted && forall j :: 0 <= j < |ms[i].tasks| ==> !ms[i].tasks[j].isCompleted
  }

  /** `generateInitialMilestones`: a fixed two-stage plan for `goalTitle`. */
  function GenerateInitialMilestones(goalTitle: string, ids: PlanIds): seq<Milestone> {
    [PlanMilestone(goalTitle, ids), ActionMilestone(goalTitle, ids)]
  }

  /**
   * The starter plan has two milestones, of two tasks and one, carrying the
   * five fresh ids; it is open (no milestone and no task is completed),
   * names the goal in the first milestone and in the last task, and tags its
   * tasks as planning/research, planning/metrics and action/momentum.
   */
  lemma InitialPlanShape(goalTitle: string, ids: PlanIds)
    ensures var r := GenerateInitialMilestones(goalTitle, ids);
      && |r| == 2 && |r[0].tasks| == 2 && |r[1].tasks| == 1
      && r[0].id == ids.first && r[0].tasks[0].id == ids.research && r[0].tasks[1].id == ids.metrics
      && r[1].id == ids.second && r[1].tasks[0].id == ids.step
      && NothingCompleted(r)
      && Contains(r[0].title, goalTitle) && Contains(r[1].tasks[0].title, goalTitle)
      && r[0].tasks[0].tags == ["planning", "research"] && r[0].tasks[1].tags == ["planning", "metrics"]
      && r[1].tasks[0].tags == ["action", "momentum"]
  {
    SuffixContained("Plan your approach to ", goalTitle);
    SuffixContained("Take the first small step toward ", goalTitle);
  }

  lemma SuffixContained(prefix: string, w: string)
    ensures Contains(prefix + w, w)
  {
    var s := prefix + w;
    assert s[|prefix|..|prefix| + |w|] == w;
    assert OccursAt(s, w, |prefix|);
    ContainsAt(s, w);
  }

  // ---------------------------------------------------------------------------
  // extractTaskFeedback

  datatype Feedback = Feedback(wasCompleted: bool, obstacles: seq<string>)

  /** `words.some(w => s.includes(w))`. */
  function SomeIncluded(s: string, words: seq<string>): bool {
    IncludedFrom(s, words, 0)
  }

  /** Some word from index `i` on is contained in `s`. */
  function IncludedFrom(s: string, words: seq<string>, i: nat): bool
    decreases |words| - i
  {
    if i >= |words| then false
    else Contains(s, words[i]) || IncludedFrom(s, words, i + 1)
  }

  lemma {:induction false} IncludedFromSpec(s: string, words: seq<string>, i: nat)
    ensures IncludedFrom(s, words, i) <==> exists k :: i <= k < |words| && Contains(s, words[k])
    decreases |words| - i
  {
    if i < |words| {
      IncludedFromSpec(s, words, i + 1);
      if k :| i <= k < |words| && Contains(s, words[k]) {
        if k > i { assert i + 1 <= k; }
      }
    }
  }

  /** The scan over the word list holds exactly when some word of the list occurs. */
  lemma SomeIncludedSpec(s: string, words: seq<string>)
    ensures SomeIncluded(s, words) <==> ContainsAny(s, words)
  {
    IncludedFromSpec(s, words, 0);
  }

  /**
   * The `for ... break` over the obstacle patterns, from pattern `i` on: the
   * capture of the first pattern that matches.
   */
  function FirstCapture(message: string, patterns: seq<seq<string>>, i: nat): Option<string>
    decreases |patterns| - i
  {
    if i >= |patterns| then None
    else
      var here := Capture(message, patterns[i]);
      if here.Some? then here else FirstCapture(message, patterns, i + 1)
  }

  /** Nothing is captured exactly when no pattern matches; otherwise the first pattern that matches wins. */
  lemma {:induction false} FirstCaptureSpec(message: string, patterns: seq<seq<string>>, i: nat)
    ensures var r := FirstCapture(message, patterns, i);
      && (r.None? <==> forall k :: i <= k < |patterns| ==> Capture(message, patterns[k]).None?)
      && (r.Some? ==> exists k :: i <= k < |patterns| && r == Capture(message, patterns[k])
                                  && forall j :: i <= j < k ==> Capture(message, patterns[j]).None?)
    decreases |patterns| - i
  {
    if i < |patterns| && Capture(message, patterns[i]).None? {
      FirstCaptureSpec(message, patterns, i + 1);
      if FirstCapture(message, patterns, i).Some? {
        var k :| i + 1 <= k < |patterns| && FirstCapture(message, patterns, i) == Capture(message, patterns[k])
                 && forall j :: i + 1 <= j < k ==> Capture(message, patterns[j]).None?;
        assert forall j :: i <= j < k ==> Capture(message, patterns[j]).None?;
      }
    }
  }

  /** `extractTaskFeedback`. */
  function ExtractTaskFeedback(message: string): Feedback {
    var lower := Lower(message);
    var wasCompleted := SomeIncluded(lower, CompletionIndicators);
    var wasFailed := SomeIncluded(lower, FailureIndicators);
    var obstacles :=
      if wasFailed then
        match FirstCapture(message, ObstaclePatterns, 0)
        case Some(c) => [Trim(c)]
        case None => []
      else [];
    Feedback(wasCompleted && !wasFailed, obstacles)
  }

  /**
   * A message counts as completed when it names a completion and no
   * failure; failure words win. Only a failed message yields an obstacle:
   * the trimmed group of the first obstacle pattern that matches.
   */
  lemma FeedbackSpec(message: string)
    ensures var r := ExtractTaskFeedback(message);
      && (r.wasCompleted <==>
            ContainsAny(Lower(message), CompletionIndicators) && !ContainsAny(Lower(message), FailureIndicators))
      && |r.obstacles| <= 1
      && (!ContainsAny(Lower(message), FailureIndicators) ==> r.obstacles == [])
      && (ContainsAny(Lower(message), FailureIndicators) ==>
            match FirstCapture(message, ObstaclePatterns, 0)
            case Some(c) => r.obstacles == [Trim(c)]
            case None => r.obstacles == [])
  {
    SomeIncludedSpec(Lower(message), CompletionIndicators);
    SomeIncludedSpec(Lower(message), FailureIndicators);
  }

  /** The "because/since/as/reason is" pattern is tried before the "got in the way/..." one. */
  lemma ObstaclePatternOrder(message: string)
    requires ContainsAny(Lower(message), FailureIndicators)
    ensures Capture(message, ObstaclePatterns[0]).Some? ==>
              ExtractTaskFeedback(message).obstacles == [Trim(Capture(message, ObstaclePatterns[0]).value)]
    ensures Capture(message, ObstaclePatterns[0]).None? && Capture(message, ObstaclePatterns[1]).Some? ==>
              ExtractTaskFeedback(message).obstacles == [Trim(Capture(message, ObstaclePatterns[1]).value)]
    ensures Capture(message, ObstaclePatterns[0]).None? && Capture(message, ObstaclePatterns[1]).None? ==>
              ExtractTaskFeedback(message).obstacles == []
  {
    FeedbackSpec(message);
    assert |ObstaclePatterns| == 2;
  }
}
