/**
 * The mentor session: transcript, typing flag, goal list, mode and user
 * memory, and the operations that change them. Goals and memory are mirrored
 * into local storage after every change; the model keeps the two stored
 * values beside the state and proves that they always equal it.
 */
module MentorContext {
  import opened Wrappers
  import opened Text
  import opened Seqs
  import opened MentorModel
  import opened MentorUtils

  const Greeting: string := "Hi there! I'm your Wise Owl Coach. What's a goal you're working on right now?"

  const Apology: string := "I'm having trouble connecting right now. Could we try again in a moment?"

  /** The id of the greeting a new session opens with. */
  const FirstMessageId: string := "1"

  // The persona instruction sent ahead of every conversation, paragraph by
  // paragraph as its source lays it out; the paragraphs follow each other
  // without separator.

  const PromptIntro: string :=
    "You are Wise Owl Coach, a supportive and insightful mentor with specific behavior modes. "

  const PromptGeneral: string :=
    "GENERAL GUIDELINES: "
    + "- Be warm, empathetic, and encouraging while providing practical advice. "
    + "- Guide the user to discover their own insights rather than just providing answers. "
    + "- Maintain a positive, growth-oriented mindset, and acknowledge efforts and progress. "
    + "- Respond concisely in 2-3 sentences when appropriate. "

  const PromptCoaching: string :=
    "MODES OF OPERATION: "
    + "1. COACHING MODE (default): "
    + "- Ask open questions about goals ('What's a big goal you care about right now?') "
    + "- Clarify vague goals ('How would you define \"be better at fitness\"?') "
    + "- Help break down goals into milestones and daily tasks "
    + "- Follow up on progress and adjust as needed "
    + "- Adjust task recommendations based on user's current energy level "

  const PromptTherapist: string :=
    "2. THERAPIST MODE: "
    + "- Activated when user expresses stress, anxiety, overwhelm, or emotional challenges "
    + "- Focus on emotional support and reflection "
    + "- Ask about feelings and provide validation "
    + "- Offer mindfulness or perspective-taking exercises "

  const PromptBrainstorming: string :=
    "3. BRAINSTORMING MODE: "
    + "- Activated when user requests ideas, solutions, or creative thinking "
    + "- Generate multiple approaches to problems "
    + "- Ask questions that stimulate lateral thinking "
    + "- Provide structured frameworks for decision-making "

  const PromptFailures: string :=
    "HANDLING FAILURES: "
    + "- When tasks are missed, ask reflective questions ('What got in the way?') "
    + "- Suggest new approaches ('Would breaking tasks into smaller steps help?') "
    + "- Adapt to patterns you notice in the user's behavior "

  const PromptEnergy: string :=
    "ENERGY LEVEL AWARENESS: "
    + "- When user has low energy, suggest easier tasks and self-care "
    + "- When user has high energy, recommend more challenging tasks "
    + "- Always acknowledge and adapt to the user's current emotional state "

  const PromptClosing: string :=
    "You're designed to help users achieve their personal and professional goals through thoughtful guidance. "
    + "Adapt your responses based on the user's needs and current context."

  /** `parts.join('')`. */
  function Concat(parts: seq<string>): string
    decreases |parts|
  {
    if |parts| == 0 then "" else parts[0] + Concat(parts[1..])
  }

  function MentorSystemPrompt(): string {
    Concat([PromptIntro, PromptGeneral, PromptCoaching, PromptTherapist, PromptBrainstorming,
            PromptFailures, PromptEnergy, PromptClosing])
  }

  const StressWords: seq<string> :=
    ["stressed", "anxious", "overwhelmed", "depressed", "sad", "worried", "frustrated"]

  const BrainstormWords: seq<string> :=
    ["brainstorm", "ideas for", "help me think", "creative solutions", "different approaches"]

  // ---------------------------------------------------------------------------
  // Loading from storage

  function DefaultMemory(): (m: UserMemory)
    ensures m.completedTasks == 0 && m.missedTasks == 0
    ensures m.commonObstacles == [] && m.strengths == [] && m.challengeAreas == []
    ensures m.currentMood == None && m.currentEnergyLevel == None && m.lastActiveDate == None
  {
    UserMemory(0, 0, [], [], [], None, None, None)
  }

  /** `getStoredGoals`: the stored list, or empty when it is missing or corrupt. */
  function LoadGoals(stored: Stored<seq<Goal>>): (goals: seq<Goal>)
    ensures stored.Json? ==> goals == stored.value
    ensures !stored.Json? ==> goals == []
  {
    match stored
    case Json(gs) => gs
    case _ => []
  }

  /** `getStoredMemory`: the stored record, or the zeroed default when it is missing or corrupt. */
  function LoadMemory(stored: Stored<UserMemory>): (m: UserMemory)
    ensures stored.Json? ==> m == stored.value
    ensures !stored.Json? ==> m == DefaultMemory()
  {
    match stored
    case Json(mem) => mem
    case _ => DefaultMemory()
  }

  // ---------------------------------------------------------------------------
  // Memory updates

  /** The new-day effect: a day other than the last active one clears mood and energy. */
  function NewDay(m: UserMemory, today: string): (r: UserMemory)
    ensures r.lastActiveDate == Some(today)
    ensures m.lastActiveDate == Some(today) ==> r == m
    ensures m.lastActiveDate != Some(today) ==> r.currentMood == None && r.currentEnergyLevel == None
    ensures r.completedTasks == m.completedTasks && r.missedTasks == m.missedTasks
    ensures r.commonObstacles == m.commonObstacles && r.strengths == m.strengths
    ensures r.challengeAreas == m.challengeAreas
  {
    if m.lastActiveDate != Some(today) then
      m.(currentEnergyLevel := None, currentMood := None, lastActiveDate := Some(today))
    else m
  }

  /** Running the new-day reset twice on the same day is running it once. */
  lemma NewDayIdempotent(m: UserMemory, today: string)
    ensures NewDay(NewDay(m, today), today) == NewDay(m, today)
  {
  }

  /** No entry occurs twice. */
  predicate NoDuplicates(s: seq<string>) {
    forall i, j :: 0 <= i < j < |s| ==> s[i] != s[j]
  }

  /** `s.slice(0, n)`. */
  function Take(s: seq<string>, n: nat): (r: seq<string>)
    ensures |r| == if |s| <= n then |s| else n
    ensures r == s[..|r|]
  {
    if |s| <= n then s else s[..n]
  }

  /** The feedback of a message counts as a missed task with a named obstacle. */
  predicate ReportsObstacle(fb: Feedback) {
    !fb.wasCompleted && |fb.obstacles| > 0
  }

  /**
   * The memory half of `processUserMessage`: a missed task with an obstacle
   * counts one more miss and appends the obstacle if it is new, keeping the
   * first five entries.
   */
  function RecordObstacle(m: UserMemory, fb: Feedback): (r: UserMemory)
    ensures r.missedTasks == if ReportsObstacle(fb) then m.missedTasks + 1 else m.missedTasks
    ensures r == m.(missedTasks := r.missedTasks, commonObstacles := r.commonObstacles)
    ensures !ReportsObstacle(fb) ==> r == m
    ensures ReportsObstacle(fb) ==> |r.commonObstacles| <= 5
    ensures NoDuplicates(m.commonObstacles) ==> NoDuplicates(r.commonObstacles)
    ensures |m.commonObstacles| <= 5 ==> m.commonObstacles <= r.commonObstacles
    ensures |m.commonObstacles| >= 5 && ReportsObstacle(fb) ==> r.commonObstacles == m.commonObstacles[..5]
    ensures ReportsObstacle(fb) && |m.commonObstacles| < 5 ==> fb.obstacles[0] in r.commonObstacles
    ensures ReportsObstacle(fb) && |m.commonObstacles| < 5 ==>
              r.commonObstacles == if fb.obstacles[0] in m.commonObstacles then m.commonObstacles
                                   else m.commonObstacles + [fb.obstacles[0]]
  {
    if ReportsObstacle(fb) then
      var o := fb.obstacles[0];
      var grown := if o in m.commonObstacles then m.commonObstacles else m.commonObstacles + [o];
      m.(missedTasks := m.missedTasks + 1, commonObstacles := Take(grown, 5))
    else m
  }

  /** Once five obstacles are stored, further feedback never changes them. */
  lemma {:induction false} ObstaclesFrozenWhenFull(m: UserMemory, fbs: seq<Feedback>)
    requires |m.commonObstacles| == 5
    ensures RecordAll(m, fbs).commonObstacles == m.commonObstacles
    ensures RecordAll(m, fbs).missedTasks == m.missedTasks + |Filter(fbs, ReportsObstacle)|
    decreases |fbs|
  {
    if |fbs| > 0 {
      var m' := RecordObstacle(m, fbs[0]);
      assert m'.commonObstacles == m.commonObstacles;
      ObstaclesFrozenWhenFull(m', fbs[1..]);
    }
  }

  /** The memory after the feedback of several messages in turn. */
  function RecordAll(m: UserMemory, fbs: seq<Feedback>): UserMemory
    decreases |fbs|
  {
    if |fbs| == 0 then m else RecordAll(RecordObstacle(m, fbs[0]), fbs[1..])
  }

  /** However many messages report obstacles, a duplicate-free list stays duplicate-free and at most five long. */
  lemma {:induction false} ObstaclesStayBounded(m: UserMemory, fbs: seq<Feedback>)
    requires NoDuplicates(m.commonObstacles) && |m.commonObstacles| <= 5
    ensures NoDuplicates(RecordAll(m, fbs).commonObstacles)
    ensures |RecordAll(m, fbs).commonObstacles| <= 5
    ensures m.commonObstacles <= RecordAll(m, fbs).commonObstacles
    decreases |fbs|
  {
    if |fbs| > 0 {
      var m' := RecordObstacle(m, fbs[0]);
      ObstaclesStayBounded(m', fbs[1..]);
    }
  }

  // ---------------------------------------------------------------------------
  // detectMode

  /** `detectMode`: stress words give the therapist mode, before brainstorming phrases. */
  function DetectMode(message: string): Mode {
    var lower := Lower(message);
    if SomeIncluded(lower, StressWords) then Therapist
    else if SomeIncluded(lower, BrainstormWords) then Brainstorming
    else Coaching
  }

  /**
   * Each mode has exactly its trigger: any stress word (in any letter case,
   * anywhere) gives the therapist mode, whatever else the message says; a
   * brainstorming phrase without a stress word gives brainstorming; anything
   * else is coaching.
   */
  lemma DetectModeSpec(message: string)
    ensures var mode := DetectMode(message);
      var lower := Lower(message);
      && (mode == Therapist <==> ContainsAny(lower, StressWords))
      && (mode == Brainstorming <==> !ContainsAny(lower, StressWords) && ContainsAny(lower, BrainstormWords))
      && (mode == Coaching <==> !ContainsAny(lower, StressWords) && !ContainsAny(lower, BrainstormWords))
  {
    SomeIncludedSpec(Lower(message), StressWords);
    SomeIncludedSpec(Lower(message), BrainstormWords);
  }

  // ---------------------------------------------------------------------------
  // The goal tree

  /** `updateGoal`: every goal with the id of `g` is replaced by `g`. */
  function ReplaceGoal(goals: seq<Goal>, g: Goal): (r: seq<Goal>)
    ensures |r| == |goals|
    ensures forall i :: 0 <= i < |goals| ==> r[i] == if goals[i].id == g.id then g else goals[i]
    decreases |goals|
  {
    if |goals| == 0 then []
    else [if goals[0].id == g.id then g else goals[0]] + ReplaceGoal(goals[1..], g)
  }

  predicate AllCompleted(ts: seq<Task>) {
    forall i :: 0 <= i < |ts| ==> ts[i].isCompleted
  }

  /** The tasks with id `tid` become completed; nothing else changes. */
  function MarkTasks(ts: seq<Task>, tid: string): (r: seq<Task>)
    ensures |r| == |ts|
    ensures forall i :: 0 <= i < |ts| ==> r[i] == ts[i].(isCompleted := ts[i].isCompleted || ts[i].id == tid)
    decreases |ts|
  {
    if |ts| == 0 then []
    else [if ts[0].id == tid then ts[0].(isCompleted := true) else ts[0]] + MarkTasks(ts[1..], tid)
  }

  /** A milestone whose task `tid` completes, its completion recomputed from its tasks. */
  function CompleteInMilestone(m: Milestone, tid: string): (r: Milestone)
    ensures r.tasks == MarkTasks(m.tasks, tid)
    ensures r.isCompleted <==> forall i :: 0 <= i < |m.tasks| ==> m.tasks[i].isCompleted || m.tasks[i].id == tid
    ensures r == m.(tasks := r.tasks, isCompleted := r.isCompleted)
  {
    var ts := MarkTasks(m.tasks, tid);
    m.(tasks := ts, isCompleted := AllCompleted(ts))
  }

  function CompleteInMilestones(ms: seq<Milestone>, mid: string, tid: string): (r: seq<Milestone>)
    ensures |r| == |ms|
    ensures forall i :: 0 <= i < |ms| ==> r[i] == if ms[i].id == mid then CompleteInMilestone(ms[i], tid) else ms[i]
    decreases |ms|
  {
    if |ms| == 0 then []
    else [if ms[0].id == mid then CompleteInMilestone(ms[0], tid) else ms[0]]
         + CompleteInMilestones(ms[1..], mid, tid)
  }

  /** The goal list of `completeTask(gid, mid, tid)`. */
  function CompleteInGoals(gs: seq<Goal>, gid: string, mid: string, tid: string): (r: seq<Goal>)
    ensures |r| == |gs|
    ensures forall i :: 0 <= i < |gs| ==>
              r[i] == if gs[i].id == gid then gs[i].(milestones := CompleteInMilestones(gs[i].milestones, mid, tid))
                      else gs[i]
    decreases |gs|
  {
    if |gs| == 0 then []
    else [if gs[0].id == gid then gs[0].(milestones := CompleteInMilestones(gs[0].milestones, mid, tid)) else gs[0]]
         + CompleteInGoals(gs[1..], gid, mid, tid)
  }

  /**
   * What `completeTask(gid, mid, tid)` does to one task, addressed by its
   * indexes: it becomes completed if all three ids match, stays completed if
   * it was, and is otherwise untouched; its milestone is completed exactly
   * when all of its tasks are, if that milestone was the target; every other
   * milestone is untouched.
   */
  lemma CompleteTaskAt(gs: seq<Goal>, gid: string, mid: string, tid: string, g: nat, m: nat, t: nat)
    requires g < |gs| && m < |gs[g].milestones| && t < |gs[g].milestones[m].tasks|
    ensures var r := CompleteInGoals(gs, gid, mid, tid);
      var target := gs[g].id == gid && gs[g].milestones[m].id == mid;
      && |r[g].milestones| == |gs[g].milestones|
      && |r[g].milestones[m].tasks| == |gs[g].milestones[m].tasks|
      && r[g].milestones[m].tasks[t].isCompleted ==
           (gs[g].milestones[m].tasks[t].isCompleted || (target && gs[g].milestones[m].tasks[t].id == tid))
      && r[g].milestones[m].tasks[t] == gs[g].milestones[m].tasks[t].(isCompleted := r[g].milestones[m].tasks[t].isCompleted)
      && (target ==> (r[g].milestones[m].isCompleted <==> AllCompleted(r[g].milestones[m].tasks)))
      && (!target ==> r[g].milestones[m] == gs[g].milestones[m])
  {
  }

  lemma {:induction false} MarkTasksIdempotent(ts: seq<Task>, tid: string)
    ensures MarkTasks(MarkTasks(ts, tid), tid) == MarkTasks(ts, tid)
  {
    var once := MarkTasks(ts, tid);
    var twice := MarkTasks(once, tid);
    assert forall i :: 0 <= i < |ts| ==> twice[i] == once[i];
  }

  lemma {:induction false} CompleteInMilestonesIdempotent(ms: seq<Milestone>, mid: string, tid: string)
    ensures CompleteInMilestones(CompleteInMilestones(ms, mid, tid), mid, tid) == CompleteInMilestones(ms, mid, tid)
  {
    var once := CompleteInMilestones(ms, mid, tid);
    var twice := CompleteInMilestones(once, mid, tid);
    forall k | 0 <= k < |ms| ensures twice[k] == once[k] {
      if ms[k].id == mid {
        MarkTasksIdempotent(ms[k].tasks, tid);
      }
    }
  }

  /** Completing the same task twice leaves the goals as completing it once. */
  lemma {:induction false} CompleteTaskIdempotent(gs: seq<Goal>, gid: string, mid: string, tid: string)
    ensures CompleteInGoals(CompleteInGoals(gs, gid, mid, tid), gid, mid, tid) == CompleteInGoals(gs, gid, mid, tid)
  {
    var once := CompleteInGoals(gs, gid, mid, tid);
    var twice := CompleteInGoals(once, gid, mid, tid);
    forall i | 0 <= i < |gs| ensures twice[i] == once[i] {
      if gs[i].id == gid {
        CompleteInMilestonesIdempotent(gs[i].milestones, mid, tid);
      }
    }
  }

  // ---------------------------------------------------------------------------
  // The prompt

  datatype Role = UserRole | ModelRole

  /** One turn of the conversation as the language model receives it. */
  datatype Turn = Turn(role: Role, text: string)

  function ModeName(mode: Mode): string {
    match mode
    case Coaching => "coaching"
    case Therapist => "therapist"
    case Brainstorming => "brainstorming"
  }

  function MoodName(mood: Mood): string {
    match mood
    case Sad => "sad"
    case Neutral => "neutral"
    case Happy => "happy"
    case VeryHappy => "very-happy"
    case Excellent => "excellent"
  }

  function EnergyName(e: Energy): string {
    match e
    case Low => "low"
    case Medium => "medium"
    case High => "high"
  }

  /** The decimal digit for `d`. */
  function Digit(d: nat): char
    requires d < 10
  {
    ('0' as int + d) as char
  }

  predicate IsDigit(c: char) {
    '0' <= c <= '9'
  }

  /** Decimal rendering of a count, as a template literal prints it. */
  function Decimal(n: nat): string
    decreases n
  {
    if n < 10 then [Digit(n)] else Decimal(n / 10) + [Digit(n % 10)]
  }

  /** The number a string of decimal digits denotes, most significant digit first. */
  function DigitsValue(s: string): int
    decreases |s|
  {
    if |s| == 0 then 0 else 10 * DigitsValue(s[..|s| - 1]) + (s[|s| - 1] as int - '0' as int)
  }

  /**
   * A count renders as a non-empty string of decimal digits, without a
   * leading zero (unless it is zero), that reads back as the count.
   */
  lemma {:induction false} DecimalRoundTrip(n: nat)
    ensures |Decimal(n)| >= 1
    ensures forall i :: 0 <= i < |Decimal(n)| ==> IsDigit(Decimal(n)[i])
    ensures Decimal(n)[0] == '0' ==> n == 0
    ensures DigitsValue(Decimal(n)) == n
    decreases n
  {
    if n >= 10 {
      var init := Decimal(n / 10);
      DecimalRoundTrip(n / 10);
      assert Decimal(n)[..|Decimal(n)| - 1] == init;
      assert forall i :: 0 <= i < |init| ==> Decimal(n)[i] == init[i];
    }
  }

  /** `xs.join(sep)`. */
  function Join(xs: seq<string>, sep: string): string
    decreases |xs|
  {
    if |xs| == 0 then "" else if |xs| == 1 then xs[0] else xs[0] + sep + Join(xs[1..], sep)
  }

  /** With a non-empty separator, the join is empty only for no items or one empty item. */
  lemma JoinEmpty(xs: seq<string>, sep: string)
    requires sep != ""
    ensures Join(xs, sep) == "" <==> |xs| == 0 || (|xs| == 1 && xs[0] == "")
  {
    if |xs| >= 2 {
      assert |Join(xs, sep)| >= |sep|;
    }
  }

  /** `s || fallback` on strings: the fallback replaces the empty string only. */
  function OrElse(s: string, fallback: string): string {
    if s == "" then fallback else s
  }

  function Titles(goals: seq<Goal>): (r: seq<string>)
    ensures |r| == |goals|
    ensures forall i :: 0 <= i < |goals| ==> r[i] == goals[i].title
  {
    seq(|goals|, i requires 0 <= i < |goals| => goals[i].title)
  }

  /** The lines of the rendered user context, each printed followed by a line break. */
  function ContextLines(mode: Mode, memory: UserMemory, goals: seq<Goal>): seq<string> {
    ["USER CONTEXT:",
     "Current mode: " + ModeName(mode),
     "Current mood: " + (match memory.currentMood case Some(m) => MoodName(m) case None => "Unknown"),
     "Current energy level: " + (match memory.currentEnergyLevel case Some(e) => EnergyName(e) case None => "Unknown"),
     "Active goals: " + OrElse(Join(Titles(goals), ", "), "None yet"),
     "User memory: Completed " + Decimal(memory.completedTasks) + " tasks, missed "
       + Decimal(memory.missedTasks) + " tasks",
     "Common obstacles: " + OrElse(Join(memory.commonObstacles, ", "), "Unknown"),
     "Strengths: " + OrElse(Join(memory.strengths, ", "), "Unknown"),
     "Challenge areas: " + OrElse(Join(memory.challengeAreas, ", "), "Unknown")]
  }

  /** Each line followed by a line break, one after the other. */
  function Lines(ls: seq<string>): string
    decreases |ls|
  {
    if |ls| == 0 then "" else ls[0] + "\n" + Lines(ls[1..])
  }

  /** Every line occurs, with its line break, in the rendered text. */
  lemma {:induction false} LinesContain(ls: seq<string>, k: nat)
    requires k < |ls|
    ensures Contains(Lines(ls), ls[k] + "\n")
    decreases |ls|
  {
    if k == 0 {
      ContainsPrefix(ls[0] + "\n", Lines(ls[1..]));
    } else {
      LinesContain(ls[1..], k - 1);
      ContainsWithin(Lines(ls[1..]), "", ls[0] + "\n", ls[k] + "\n");
    }
  }

  /** `persona`, a blank line, then the rendered user context. */
  function Render(persona: string, mode: Mode, memory: UserMemory, goals: seq<Goal>): string {
    persona + "\n\n" + Lines(ContextLines(mode, memory, goals))
  }

  /** The text of the context turn: the persona instruction, then the user context. */
  function ContextBlock(mode: Mode, memory: UserMemory, goals: seq<Goal>): string {
    Render(MentorSystemPrompt(), mode, memory, goals)
  }

  /** A line of the rendered context occurs, with its line break, after the persona. */
  lemma LineAfterPersona(persona: string, ls: seq<string>, k: nat)
    requires k < |ls|
    ensures Contains(persona + "\n\n" + Lines(ls), ls[k] + "\n")
  {
    LinesContain(ls, k);
    ContainsWithin(Lines(ls), "", persona + "\n\n", ls[k] + "\n");
  }

  /** The context opens with the persona, a blank line and the `USER CONTEXT:` heading. */
  lemma ContextHeading(persona: string, mode: Mode, memory: UserMemory, goals: seq<Goal>)
    ensures persona + "\n\n" + "USER CONTEXT:" + "\n" <= Render(persona, mode, memory, goals)
  {
    var ls := ContextLines(mode, memory, goals);
    var rest := Lines(ls[1..]);
    assert Lines(ls) == "USER CONTEXT:" + "\n" + rest;
    assert Render(persona, mode, memory, goals) == (persona + "\n\n" + "USER CONTEXT:" + "\n") + rest;
  }

  /** The context names the current mode. */
  lemma ContextModeLine(persona: string, mode: Mode, memory: UserMemory, goals: seq<Goal>)
    ensures Contains(Render(persona, mode, memory, goals), "Current mode: " + ModeName(mode) + "\n")
  {
    LineAfterPersona(persona, ContextLines(mode, memory, goals), 1);
  }

  /** The context reports the completed and missed counts in decimal. */
  lemma ContextCountLine(persona: string, mode: Mode, memory: UserMemory, goals: seq<Goal>)
    ensures Contains(Render(persona, mode, memory, goals),
                     "User memory: Completed " + Decimal(memory.completedTasks) + " tasks, missed "
                     + Decimal(memory.missedTasks) + " tasks" + "\n")
  {
    LineAfterPersona(persona, ContextLines(mode, memory, goals), 5);
  }

  /**
   * The active-goals line lists the goal titles joined by commas, or says
   * `None yet` when there are no goals (or only one, untitled).
   */
  lemma ContextGoalsLine(persona: string, mode: Mode, memory: UserMemory, goals: seq<Goal>)
    ensures goals == [] ==> Contains(Render(persona, mode, memory, goals), "Active goals: " + "None yet" + "\n")
    ensures (exists i :: 0 <= i < |goals| && goals[i].title != "") ==>
              Contains(Render(persona, mode, memory, goals), "Active goals: " + Join(Titles(goals), ", ") + "\n")
  {
    JoinEmpty(Titles(goals), ", ");
    LineAfterPersona(persona, ContextLines(mode, memory, goals), 4);
  }

  /** The transcript as model turns: user messages become `user` turns, the mentor's `model` turns. */
  function TranscriptTurns(msgs: seq<Message>): (r: seq<Turn>)
    ensures |r| == |msgs|
    ensures forall i :: 0 <= i < |msgs| ==> (r[i].role == UserRole <==> msgs[i].isUser) && r[i].text == msgs[i].content
    decreases |msgs|
  {
    if |msgs| == 0 then []
    else [Turn(if msgs[0].isUser then UserRole else ModelRole, msgs[0].content)] + TranscriptTurns(msgs[1..])
  }

  /** What `convertToGeminiMessages` reads: the mode, memory and goals it closes over, and the transcript. */
  datatype Snapshot = Snapshot(mode: Mode, memory: UserMemory, goals: seq<Goal>, transcript: seq<Message>)

  /** The context text first, as a model-role turn, then one turn per message in order. */
  function WithContext(context: string, msgs: seq<Message>): (r: seq<Turn>)
    ensures |r| == |msgs| + 1
    ensures r[0] == Turn(ModelRole, context)
    ensures forall i :: 0 <= i < |msgs| ==>
              (r[i + 1].role == UserRole <==> msgs[i].isUser) && r[i + 1].text == msgs[i].content
  {
    [Turn(ModelRole, context)] + TranscriptTurns(msgs)
  }

  /**
   * `convertToGeminiMessages`: the rendered context as a model-role turn,
   * then the transcript, one turn per message in order.
   */
  function ConvertToGeminiMessages(snap: Snapshot): (r: seq<Turn>)
    ensures |r| == |snap.transcript| + 1
    ensures r[0] == Turn(ModelRole, ContextBlock(snap.mode, snap.memory, snap.goals))
    ensures forall i :: 0 <= i < |snap.transcript| ==>
              (r[i + 1].role == UserRole <==> snap.transcript[i].isUser) && r[i + 1].text == snap.transcript[i].content
  {
    WithContext(ContextBlock(snap.mode, snap.memory, snap.goals), snap.transcript)
  }

  // ---------------------------------------------------------------------------
  // The session

  /** The fresh identifiers one turn of `sendMessage` draws. */
  datatype TurnIds = TurnIds(goal: string, plan: PlanIds, user: string, reply: string)

  /** What the language model call ended with. */
  datatype Reply = Replied(text: string) | Failed

  function ReplyMessage(reply: Reply, id: string, at: Time): (msg: Message)
    ensures !msg.isUser && msg.id == id
    ensures reply.Failed? ==> msg.content == Apology
    ensures reply.Replied? ==> msg.content == reply.text
  {
    match reply
    case Replied(text) => Message(id, text, false, at)
    case Failed => Message(id, Apology, false, at)
  }

  /** `addGoal`: the draft completed with a fresh id, its creation time and the active flag. */
  function NewGoal(d: GoalDraft, id: string, now: Time): (g: Goal)
    ensures g.isActive && g.id == id && g.createdAt == now
    ensures g.title == d.title && g.description == d.description && g.deadline == d.deadline
    ensures g.keyMotivators == d.keyMotivators && g.milestones == d.milestones
  {
    Goal(id, d.title, d.description, d.deadline, d.keyMotivators, d.milestones, now, true)
  }

  /** The goals `processUserMessage` adds for `content`: none, or the extracted goal with its starter plan. */
  function GoalsFrom(content: string, ids: TurnIds, now: Time): seq<Goal> {
    match ExtractGoalFromMessage(content)
    case None => []
    case Some(d) => [NewGoal(d.(milestones := GenerateInitialMilestones(d.title, ids.plan)), ids.goal, now)]
  }

  /**
   * A message adds at most one goal, exactly when a goal is extracted from
   * it: active, with the extracted title, the fresh id, the time of the
   * message and the starter plan for that title.
   */
  lemma GoalsFromSpec(content: string, ids: TurnIds, now: Time)
    ensures var r := GoalsFrom(content, ids, now);
      && |r| <= 1
      && (r == [] <==> ExtractGoalFromMessage(content).None?)
      && (|r| == 1 ==> && r[0].isActive && r[0].id == ids.goal && r[0].createdAt == now
                       && r[0].title == ExtractGoalFromMessage(content).value.title
                       && r[0].milestones == GenerateInitialMilestones(r[0].title, ids.plan))
  {
  }

  class Session {
    var messages: seq<Message>
    var isTyping: bool
    var goals: seq<Goal>
    var mode: Mode
    var memory: UserMemory
    /** Local storage under `wise_owl_goals`. */
    var savedGoals: Stored<seq<Goal>>
    /** Local storage under `wise_owl_memory`. */
    var savedMemory: Stored<UserMemory>

    /** Storage mirrors the goals and the memory. */
    predicate Persisted()
      reads this
    {
      savedGoals == Json(goals) && savedMemory == Json(memory)
    }

    /** A new session over what storage holds. */
    constructor (storedGoals: Stored<seq<Goal>>, storedMemory: Stored<UserMemory>, now: Time)
      ensures Persisted()
      ensures messages == [Message(FirstMessageId, Greeting, false, now)] && !isTyping && mode == Coaching
      ensures goals == LoadGoals(storedGoals) && memory == LoadMemory(storedMemory)
    {
      messages := [Message(FirstMessageId, Greeting, false, now)];
      isTyping := false;
      goals := LoadGoals(storedGoals);
      mode := Coaching;
      memory := LoadMemory(storedMemory);
      savedGoals := Json(LoadGoals(storedGoals));
      savedMemory := Json(LoadMemory(storedMemory));
    }

    /** Writing memory back to storage. */
    method SetMemory(m: UserMemory)
      modifies this
      ensures memory == m && savedMemory == Json(m)
      ensures messages == old(messages) && isTyping == old(isTyping) && goals == old(goals) && mode == old(mode)
      ensures savedGoals == old(savedGoals)
    {
      memory := m;
      savedMemory := Json(m);
    }

    /** Writing goals back to storage. */
    method SetGoals(gs: seq<Goal>)
      modifies this
      ensures goals == gs && savedGoals == Json(gs)
      ensures messages == old(messages) && isTyping == old(isTyping) && memory == old(memory) && mode == old(mode)
      ensures savedMemory == old(savedMemory)
    {
      goals := gs;
      savedGoals := Json(gs);
    }

    /** The mount effect that resets the daily state on a new calendar day. */
    method BeginDay(today: string)
      requires Persisted()
      modifies this
      ensures Persisted()
      ensures memory == NewDay(old(memory), today)
      ensures messages == old(messages) && isTyping == old(isTyping) && goals == old(goals) && mode == old(mode)
    {
      if memory.lastActiveDate != Some(today) {
        SetMemory(memory.(currentEnergyLevel := None, currentMood := None, lastActiveDate := Some(today)));
      }
    }

    /** `addGoal`. */
    method AddGoal(d: GoalDraft, id: string, now: Time)
      requires Persisted()
      modifies this
      ensures Persisted()
      ensures goals == old(goals) + [NewGoal(d, id, now)]
      ensures messages == old(messages) && isTyping == old(isTyping) && memory == old(memory) && mode == old(mode)
    {
      SetGoals(goals + [NewGoal(d, id, now)]);
    }

    /** `updateGoal`. */
    method UpdateGoal(g: Goal)
      requires Persisted()
      modifies this
      ensures Persisted()
      ensures goals == ReplaceGoal(old(goals), g)
      ensures messages == old(messages) && isTyping == old(isTyping) && memory == old(memory) && mode == old(mode)
    {
      SetGoals(ReplaceGoal(goals, g));
    }

    /** `completeTask`: counts one completed task whether or not any id matched. */
    method CompleteTask(gid: string, mid: string, tid: string)
      requires Persisted()
      modifies this
      ensures Persisted()
      ensures goals == CompleteInGoals(old(goals), gid, mid, tid)
      ensures memory == old(memory).(completedTasks := old(memory).completedTasks + 1)
      ensures messages == old(messages) && isTyping == old(isTyping) && mode == old(mode)
    {
      SetGoals(CompleteInGoals(goals, gid, mid, tid));
      SetMemory(memory.(completedTasks := memory.completedTasks + 1));
    }

    /** `setUserMood`. */
    method SetUserMood(mood: Mood, today: string)
      requires Persisted()
      modifies this
      ensures Persisted()
      ensures memory == old(memory).(currentMood := Some(mood), lastActiveDate := Some(today))
      ensures messages == old(messages) && isTyping == old(isTyping) && goals == old(goals) && mode == old(mode)
    {
      SetMemory(memory.(currentMood := Some(mood), lastActiveDate := Some(today)));
    }

    /** `setUserEnergyLevel`. */
    method SetUserEnergyLevel(level: Energy, today: string)
      requires Persisted()
      modifies this
      ensures Persisted()
      ensures memory == old(memory).(currentEnergyLevel := Some(level), lastActiveDate := Some(today))
      ensures messages == old(messages) && isTyping == old(isTyping) && goals == old(goals) && mode == old(mode)
    {
      SetMemory(memory.(currentEnergyLevel := Some(level), lastActiveDate := Some(today)));
    }

    /** `clearMessages`: the transcript goes back to a single greeting. */
    method ClearMessages(id: string, now: Time)
      requires Persisted()
      modifies this
      ensures Persisted()
      ensures messages == [Message(id, Greeting, false, now)]
      ensures isTyping == old(isTyping) && goals == old(goals) && memory == old(memory) && mode == old(mode)
    {
      messages := [Message(id, Greeting, false, now)];
    }

    /** The first half of `processUserMessage`: a goal found in the message is added with its starter plan. */
    method AddDetectedGoal(content: string, ids: TurnIds, now: Time)
      requires Persisted()
      modifies this
      ensures Persisted()
      ensures goals == old(goals) + GoalsFrom(content, ids, now)
      ensures messages == old(messages) && isTyping == old(isTyping) && memory == old(memory) && mode == old(mode)
    {
      var potentialGoal := ExtractGoalFromMessage(content);
      if potentialGoal.Some? {
        if potentialGoal.value.title != "" {
          AddGoal(potentialGoal.value.(milestones := GenerateInitialMilestones(potentialGoal.value.title, ids.plan)),
                  ids.goal, now);
        } else {
          // An extracted title is at least five code units long.
          assert false;
        }
      }
    }

    /** The second half of `processUserMessage`: a missed task with an obstacle is recorded in memory. */
    method RecordFeedback(content: string)
      requires Persisted()
      modifies this
      ensures Persisted()
      ensures memory == RecordObstacle(old(memory), ExtractTaskFeedback(content))
      ensures messages == old(messages) && isTyping == old(isTyping) && goals == old(goals) && mode == old(mode)
    {
      var feedback := ExtractTaskFeedback(content);
      if !feedback.wasCompleted && |feedback.obstacles| > 0 {
        SetMemory(RecordObstacle(memory, feedback));
      }
    }

    /** `processUserMessage`: a detected goal is added, a reported obstacle recorded. */
    method ProcessUserMessage(content: string, ids: TurnIds, now: Time)
      requires Persisted()
      modifies this
      ensures Persisted()
      ensures goals == old(goals) + GoalsFrom(content, ids, now)
      ensures memory == RecordObstacle(old(memory), ExtractTaskFeedback(content))
      ensures messages == old(messages) && isTyping == old(isTyping) && mode == old(mode)
    {
      AddDetectedGoal(content, ids, now);
      RecordFeedback(content);
    }

    /**
     * The part of `sendMessage` after the message is processed: the detected
     * mode is set, the user message shown, the typing indicator raised while
     * the model answers, its answer (or the apology) shown, and the indicator
     * lowered.
     */
    method Exchange(newMode: Mode, userMessage: Message, answer: Message)
      requires Persisted()
      modifies this
      ensures Persisted()
      ensures mode == newMode && messages == old(messages) + [userMessage, answer] && !isTyping
      ensures goals == old(goals) && memory == old(memory)
    {
      mode := newMode;
      messages := messages + [userMessage];
      isTyping := true;
      messages := messages + [answer];
      isTyping := false;
    }

    /**
     * `sendMessage` with the language model's answer given as `reply`. Blank
     * input does nothing. Otherwise the message is processed, the mode
     * re-detected, the user message and exactly one mentor message appended,
     * and the typing flag is clear at the end. What the model is asked is
     * returned: `ConvertToGeminiMessages(request.value)` is the request. It
     * holds the mode, memory and goals as they were before the turn, since
     * the source reads them from the render the call started in, and the
     * transcript with the new user message.
     */
    method SendMessage(content: string, ids: TurnIds, now: Time, replyAt: Time, reply: Reply)
      returns (request: Option<Snapshot>)
      requires Persisted()
      modifies this
      ensures Persisted()
      ensures AllSpace(content) ==>
                && request == None && messages == old(messages) && isTyping == old(isTyping)
                && goals == old(goals) && memory == old(memory) && mode == old(mode)
      ensures !AllSpace(content) ==>
                && goals == old(goals) + GoalsFrom(content, ids, now)
                && memory == RecordObstacle(old(memory), ExtractTaskFeedback(content))
                && mode == DetectMode(content)
                && messages == old(messages) + [Message(ids.user, content, true, now), ReplyMessage(reply, ids.reply, replyAt)]
                && !isTyping
                && request == Some(Snapshot(old(mode), old(memory), old(goals),
                                            old(messages) + [Message(ids.user, content, true, now)]))
    {
      if Trim(content) == "" {
        return None;
      }
      var userMessage := Message(ids.user, content, true, now);
      request := Some(Snapshot(mode, memory, goals, messages + [userMessage]));
      ProcessUserMessage(content, ids, now);
      Exchange(DetectMode(content), userMessage, ReplyMessage(reply, ids.reply, replyAt));
    }
  }

  /**
   * A page reload: a new session mounted over what a persisted session left
   * in storage starts with that session's goals and memory, in coaching
   * mode, with only the greeting shown.
   */
  method Reload(s: Session, now: Time) returns (t: Session)
    requires s.Persisted()
    ensures fresh(t) && t.Persisted()
    ensures t.goals == s.goals && t.memory == s.memory
    ensures t.mode == Coaching && !t.isTyping && t.messages == [Message(FirstMessageId, Greeting, false, now)]
  {
    t := new Session(s.savedGoals, s.savedMemory, now);
  }
}
