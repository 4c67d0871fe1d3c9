/**
 * The records of the mentor: goals with their milestones and tasks, chat
 * messages and the user memory. Dates and times are abstract numbers (a
 * calendar day, a time stamp); identifiers are opaque strings supplied by the
 * caller in place of `uuidv4()`.
 */
module MentorModel {
  import opened Wrappers

  datatype Energy = Low | Medium | High

  datatype Mood = Sad | Neutral | Happy | VeryHappy | Excellent

  datatype Mode = Coaching | Therapist | Brainstorming

  /** A calendar day. */
  type Day = int

  /** A point in time, as `Date.getTime()` gives it. */
  type Time = int

  /**
   * A goal's deadline relative to the moment the goal was created: a week, a
   * month or a day later, or whatever `new Date(text)` makes of `text` (no
   * deadline when that is an invalid date).
   */
  datatype Deadline = NoDeadline | InOneWeek | InOneMonth | Tomorrow | ParsedFrom(text: string)

  datatype Task = Task(
    id: string,
    title: string,
    description: string,
    dueDate: Option<Day>,
    isCompleted: bool,
    tags: seq<string>,
    energyLevel: Option<Energy>)

  datatype Milestone = Milestone(
    id: string,
    title: string,
    description: string,
    deadline: Option<Day>,
    tasks: seq<Task>,
    isCompleted: bool)

  datatype Goal = Goal(
    id: string,
    title: string,
    description: string,
    deadline: Deadline,
    keyMotivators: seq<string>,
    milestones: seq<Milestone>,
    createdAt: Time,
    isActive: bool)

  datatype Message = Message(id: string, content: string, isUser: bool, timestamp: Time)

  datatype UserMemory = UserMemory(
    completedTasks: nat,
    missedTasks: nat,
    commonObstacles: seq<string>,
    strengths: seq<string>,
    challengeAreas: seq<string>,
    currentMood: Option<Mood>,
    currentEnergyLevel: Option<Energy>,
    lastActiveDate: Option<string>)
}
