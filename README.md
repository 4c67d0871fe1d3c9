# FocusFlow mentor core, in Dafny

FocusFlow is a personal-growth web app with an AI mentor, the "Wise Owl
Coach". This project models the parts of it that hold the logic:

- **Goal extraction and feedback** (`MentorUtils`, with `Patterns` and `Text`):
  - `extractGoalFromMessage`, `generateInitialMilestones` and `extractTaskFeedback`;
  - their regular expressions, written out with ECMAScript's backtracking order;
  - the JavaScript string primitives they use: `trim`, ASCII `toLowerCase`, `includes`, and `length` in UTF-16 code units.
- **The mentor session** (`MentorContext`, class `Session`):
  - the state: transcript, typing flag, goal list, mode and user memory, with the two local-storage copies;
  - the new-day reset, goal and task updates, and mood and energy updates;
  - obstacle memory and mode detection;
  - the prompt sent to the language model, and one full `sendMessage` turn.
- **The mentor room's "Today's Focus" card** (`TodaysFocus`, sorted by `StableSort`):
  - collecting the open tasks of active goals that are due today;
  - backfilling one generic task for the newest active goal;
  - prioritising by energy with a stable sort, proved as an in-place insertion sort on an array.
- **The "Today's Focus" page** (`DailyTasks`, class `DailyFocus`): a list of daily tasks mirrored into local storage, with complete, skip, add and clear, and the progress percentage.
- **The journal store** (`JournalStorage`, class `JournalStore`): entries appended, looked up and deleted under one local-storage key.

Shared pieces:
- `Wrappers` holds `Option` and `Stored`, which is what a storage key holds: nothing, unparsable text or a decoded value.
- `Seqs` holds `filter` and its laws.
- `MentorModel` holds the records: goals, milestones, tasks, messages and memory.

Clocks, identifier generation and the language model are inputs:
- `now` and `today` are parameters, and dates are abstract day numbers.
- Each `uuidv4()` result is passed in as an id parameter.
- The model's answer is a `Reply` parameter, either the text or a failure.

Where the code and its comments or the project documentation disagree, the model follows the code:
- `"My goal is to run a marathon."` yields the goal `"to run a marathon"`, because the lead-in `my goal is` matches before `i want to` could and the group starts after the white space (`Patterns.CaptureAfterOpeningLead`). The documentation's example gives `"run a marathon"`.
- The obstacle memory keeps the **first** five distinct obstacles (`slice(0, 5)` after a push), although the comment speaks of the five most recent. Once five are stored, nothing new is recorded (`MentorContext.ObstaclesFrozenWhenFull`).
- The prompt of one `sendMessage` turn is built from the mode, memory and goals as they were before the turn. The callback reads them from the render it was created in, so it sees neither the goal this message adds nor its new mode (`MentorContext.Session.SendMessage`).

## Model

| member | source | states |
|---|---|---|
| Text.Lower | src/utils/mentorUtils.ts:129 | lower-casing keeps the length and maps each character by `LowerChar` (ASCII letters only) |
| Text.Utf16Length | src/utils/mentorUtils.ts:24 | `length` counts code units: between one and two per character |
| Text.ContainsAt | src/utils/mentorUtils.ts:135-136 | `includes(w)` holds exactly when `w` occurs at some index |
| Text.Trim | src/pages/TodaysFocus.tsx:74 | `trim()` is empty exactly when the input is all white space |
| Text.TrimInfix | src/utils/mentorUtils.ts:21 | `trim()` returns an infix surrounded only by white space, neither starting nor ending with white space |
| Text.TrimStartSuffix | src/utils/mentorUtils.ts:21 | the leading part trimmed away is all white space, and what remains starts with a non-space |
| Text.TrimEndPrefix | src/utils/mentorUtils.ts:21 | the trailing part trimmed away is all white space, and what remains ends with a non-space |
| Patterns.SpaceRunIsRun | src/utils/mentorUtils.ts:7-9 | greedy `\s+` first takes the maximal white-space run |
| Patterns.LazyEndSpec | src/utils/mentorUtils.ts:7-9 | lazy `(.+?)` stops at the first `.` or end of input and crosses no line terminator |
| Patterns.BacktrackSpec | src/utils/mentorUtils.ts:7-9 | backtracking `\s+` yields a group starting inside the white-space run, and it is a lazy group |
| Patterns.MatchAtSpec | src/utils/mentorUtils.ts:7-9 | at one position the first alternative that fires wins; there is a match iff some alternative fires |
| Patterns.SearchFromSpec | src/utils/mentorUtils.ts:7-9 | the leftmost position where the pattern fires gives the match; none iff it fires nowhere |
| Patterns.SearchSpec | src/utils/mentorUtils.ts:18 | `match` returns the group of the leftmost position and, there, of the first alternative that fires |
| Patterns.SearchLazy | src/utils/mentorUtils.ts:18 | a match needs a lead-in followed by white space, and its group is a lazy group |
| Patterns.CaptureSpec | src/utils/mentorUtils.ts:18-21 | a captured group is non-empty, has no line break and needs a lead-in plus white space |
| Patterns.NoLeadNoCapture | src/utils/mentorUtils.ts:18-19 | without a lead-in followed by white space there is no match |
| Patterns.LazyEndSingleLine | src/utils/mentorUtils.ts:7-9 | on one line the lazy group ends at the next `.` or the end |
| Patterns.BacktrackSingleLine | src/utils/mentorUtils.ts:7-9 | on one line the group starts after the whole white-space run; a run reaching the end gives its last character or no match |
| Patterns.CaptureAfterOpeningLead | src/utils/mentorUtils.ts:7 | a one-line message opening with the first lead-in captures up to the first `.` |
| MentorUtils.ResolveDeadlineOrder | src/utils/mentorUtils.ts:30-53 | "week" beats "month" beats "tomorrow", in any case and anywhere; otherwise the text is left to date parsing |
| MentorUtils.DeadlineOfSpec | src/utils/mentorUtils.ts:27-31 | the model's deadline is `NoDeadline` exactly when the deadline pattern does not match |
| MentorUtils.ExtractGoalSpec | src/utils/mentorUtils.ts:16-70 | a goal is found iff the goal pattern matches with a trimmed group of at least 5 code units; title = description = that group; plan empty; deadline and motivators from their own patterns |
| MentorUtils.MotivatorsSpec | src/utils/mentorUtils.ts:55-61 | at most one motivator, present iff the motivation pattern matches, and trimmed |
| MentorUtils.NoGoalLeadNoGoal | src/utils/mentorUtils.ts:18-19 | no goal lead-in followed by white space means no goal |
| MentorUtils.ShortGoalIgnored | src/utils/mentorUtils.ts:21-24 | a trimmed goal shorter than 5 code units yields no goal |
| MentorUtils.InitialPlanShape | src/utils/mentorUtils.ts:77-118 | two milestones of two and one tasks carry the five fresh ids; nothing is completed; the goal title appears in the first milestone and the last task; tags as written |
| MentorUtils.IncludedFromSpec | src/utils/mentorUtils.ts:135-136 | the `some` scan from index i holds iff some later word is contained |
| MentorUtils.SomeIncludedSpec | src/utils/mentorUtils.ts:135-136 | `words.some(w => s.includes(w))` iff some word occurs in s |
| MentorUtils.FirstCaptureSpec | src/utils/mentorUtils.ts:145-153 | the loop with `break` returns the capture of the first obstacle pattern that matches, none iff none matches |
| MentorUtils.FeedbackSpec | src/utils/mentorUtils.ts:125-158 | completed iff a completion word occurs and no failure word does; at most one obstacle, and only for a failed message |
| MentorUtils.ObstaclePatternOrder | src/utils/mentorUtils.ts:140-152 | the because/since pattern is tried before the got-in-the-way pattern |
| MentorContext.DefaultMemory | src/context/MentorContext.tsx:138-153 | the default memory has zero counts, empty lists and no mood, energy or date |
| MentorContext.LoadGoals | src/context/MentorContext.tsx:125-133 | stored goals are used as they are; a missing or corrupt value gives [] |
| MentorContext.LoadMemory | src/context/MentorContext.tsx:135-155 | stored memory is used as it is; a missing or corrupt value gives the default |
| MentorContext.Reload | src/context/MentorContext.tsx:125-191 | a session mounted over the storage a persisted session left has that session's goals and memory, in coaching mode, with only the greeting |
| MentorContext.NewDay | src/context/MentorContext.tsx:172-182 | a new calendar day clears mood and energy and records the day; the same day changes nothing; counts and lists are kept |
| MentorContext.NewDayIdempotent | src/context/MentorContext.tsx:172-182 | the reset applied twice on one day equals applying it once |
| MentorContext.Take | src/context/MentorContext.tsx:226 | `slice(0, n)` is the prefix of length min(n, len) |
| MentorContext.RecordObstacle | src/context/MentorContext.tsx:213-229 | a missed task with an obstacle counts one more miss and appends a new obstacle within the first five; the list stays duplicate-free; nothing else changes |
| MentorContext.ObstaclesFrozenWhenFull | src/context/MentorContext.tsx:216-226 | with five obstacles stored, later feedback never changes them but still counts each miss |
| MentorContext.ObstaclesStayBounded | src/context/MentorContext.tsx:216-226 | over any number of messages the obstacle list stays duplicate-free, at most five long, and only grows |
| MentorContext.DetectModeSpec | src/context/MentorContext.tsx:233-262 | therapist iff a stress word occurs; brainstorming iff a brainstorm phrase occurs and no stress word; otherwise coaching |
| MentorContext.ReplaceGoal | src/context/MentorContext.tsx:371-375 | every goal with the updated id is replaced; length and the other goals are kept |
| MentorContext.MarkTasks | src/context/MentorContext.tsx:384-386 | tasks with the id become completed; nothing else changes |
| MentorContext.CompleteInMilestone | src/context/MentorContext.tsx:381-396 | the milestone's tasks are marked and it is completed iff all its tasks now are |
| MentorContext.CompleteInMilestones | src/context/MentorContext.tsx:381-396 | only the milestones with the id change |
| MentorContext.CompleteInGoals | src/context/MentorContext.tsx:377-402 | only the goals with the id change, by completing in their milestones |
| MentorContext.CompleteTaskAt | src/context/MentorContext.tsx:377-402 | an addressed task becomes completed iff all three ids match (or it already was); its milestone's flag is recomputed; every other milestone is untouched |
| MentorContext.MarkTasksIdempotent | src/context/MentorContext.tsx:384-386 | marking twice equals marking once |
| MentorContext.CompleteInMilestonesIdempotent | src/context/MentorContext.tsx:381-396 | completing in the milestones twice equals once |
| MentorContext.CompleteTaskIdempotent | src/context/MentorContext.tsx:377-402 | completing the same task twice leaves the goals as completing it once |
| MentorContext.Titles | src/context/MentorContext.tsx:273 | `activeGoals.map(g => g.title)`, index by index |
| MentorContext.TranscriptTurns | src/context/MentorContext.tsx:284-287 | each message becomes one turn in order: user messages get the user role, others the model role, text = content |
| MentorContext.WithContext | src/context/MentorContext.tsx:279-289 | the request is the context turn (model role) followed by one turn per message |
| MentorContext.DecimalRoundTrip | src/context/MentorContext.tsx:274 | a count is interpolated as a non-empty string of decimal digits, without a leading zero, that reads back as the count |
| MentorContext.JoinEmpty | src/context/MentorContext.tsx:273 | `join(', ')` gives the empty string (so the `|| 'None yet'` fallback applies) exactly when there are no titles or one empty title |
| MentorContext.LinesContain | src/context/MentorContext.tsx:268-277 | every line of the context occurs in the rendered text followed by its line break |
| MentorContext.ContextHeading | src/context/MentorContext.tsx:266-269 | the context starts with the persona instruction, a blank line and `USER CONTEXT:` on its own line |
| MentorContext.ContextModeLine | src/context/MentorContext.tsx:270 | the context holds the line `Current mode: ` and the mode's name |
| MentorContext.ContextCountLine | src/context/MentorContext.tsx:274 | the context holds the completed and missed counts, in decimal, on the memory line |
| MentorContext.ContextGoalsLine | src/context/MentorContext.tsx:273 | with no goals the context says `Active goals: None yet`; with any titled goal it lists the titles joined by `, ` |
| MentorContext.ConvertToGeminiMessages | src/context/MentorContext.tsx:264-290 | the first turn is the rendered context in the model role; then one turn per message in order, user role exactly for user messages, text = content |
| MentorContext.ReplyMessage | src/context/MentorContext.tsx:324-343 | the mentor message carries the answer, or the fixed apology when the call failed |
| MentorContext.NewGoal | src/context/MentorContext.tsx:360-366 | `addGoal` keeps the draft's fields and adds the fresh id, the creation time and the active flag |
| MentorContext.GoalsFromSpec | src/context/MentorContext.tsx:194-208 | a message adds at most one goal, exactly when one is extracted: active, with the fresh id, the message time and the starter plan for its title |
| MentorContext.Session.constructor | src/context/MentorContext.tsx:158-169 | a session opens with the greeting, not typing, in coaching mode, with goals and memory loaded from storage |
| MentorContext.Session.SetMemory | src/context/MentorContext.tsx:189-191 | setting memory writes it to storage; nothing else changes |
| MentorContext.Session.SetGoals | src/context/MentorContext.tsx:185-187 | setting goals writes them to storage; nothing else changes |
| MentorContext.Session.BeginDay | src/context/MentorContext.tsx:172-182 | the mount effect applies `NewDay`, and storage still mirrors the state |
| MentorContext.Session.AddGoal | src/context/MentorContext.tsx:360-369 | appends exactly the new goal; storage mirrors the state |
| MentorContext.Session.UpdateGoal | src/context/MentorContext.tsx:371-375 | goals become `ReplaceGoal` of the old goals; storage mirrors the state |
| MentorContext.Session.CompleteTask | src/context/MentorContext.tsx:377-409 | goals become `CompleteInGoals`, and the completed count rises by one even when no id matched |
| MentorContext.Session.SetUserMood | src/context/MentorContext.tsx:411-417 | records the mood and today's date; nothing else changes |
| MentorContext.Session.SetUserEnergyLevel | src/context/MentorContext.tsx:419-425 | records the energy level and today's date; nothing else changes |
| MentorContext.Session.ClearMessages | src/context/MentorContext.tsx:349-358 | the transcript becomes one fresh greeting; nothing else changes |
| MentorContext.Session.AddDetectedGoal | src/context/MentorContext.tsx:194-208 | the goals gain exactly `GoalsFrom(content)` |
| MentorContext.Session.RecordFeedback | src/context/MentorContext.tsx:210-229 | memory becomes `RecordObstacle` of the message's feedback |
| MentorContext.Session.ProcessUserMessage | src/context/MentorContext.tsx:194-230 | a detected goal is appended and a reported obstacle recorded; storage mirrors both |
| MentorContext.Session.Exchange | src/context/MentorContext.tsx:307-346 | the mode is set; the user message and one mentor message are appended; typing ends false |
| MentorContext.Session.SendMessage | src/context/MentorContext.tsx:292-347 | blank input changes nothing; otherwise the goal and obstacle are processed, the mode re-detected, two messages appended, typing cleared, and the request built from the pre-turn mode, memory and goals plus the new message |
| TodaysFocus.PushTasks | src/components/mentor/TodaysFocus.tsx:58-71 | the inner `forEach` appends exactly `FromTasks` of the milestone |
| TodaysFocus.PushMilestones | src/components/mentor/TodaysFocus.tsx:55-72 | the middle `forEach` appends exactly `FromMilestones` of the goal |
| TodaysFocus.CollectCandidates | src/components/mentor/TodaysFocus.tsx:48-73 | the three nested loops compute `Candidates` |
| TodaysFocus.FromTasksSound | src/components/mentor/TodaysFocus.tsx:58-71 | every pushed record lifts an open task of the milestone that is due today or undated |
| TodaysFocus.FromMilestonesSound | src/components/mentor/TodaysFocus.tsx:55-72 | every record of the goal comes from an open task of an open milestone, due today or undated |
| TodaysFocus.CandidatesSound | src/components/mentor/TodaysFocus.tsx:52-73 | every candidate lifts a collectable task: active goal, open milestone, open task, due today or undated |
| TodaysFocus.FromTasksComplete | src/components/mentor/TodaysFocus.tsx:58-71 | every open task due today or undated is pushed |
| TodaysFocus.FromMilestonesComplete | src/components/mentor/TodaysFocus.tsx:55-72 | every such task of an open milestone is pushed |
| TodaysFocus.CandidatesComplete | src/components/mentor/TodaysFocus.tsx:52-73 | every collectable task appears among the candidates |
| TodaysFocus.CandidatesAppend | src/components/mentor/TodaysFocus.tsx:52-73 | candidates keep goal order: collecting over a + b is collecting over a, then b |
| TodaysFocus.FromMilestonesAppend | src/components/mentor/TodaysFocus.tsx:55-72 | records keep milestone order |
| TodaysFocus.FromTasksAppend | src/components/mentor/TodaysFocus.tsx:58-71 | records keep task order |
| TodaysFocus.LiftEnergy | src/components/mentor/TodaysFocus.tsx:63-69 | a missing energy level becomes medium; a set one is kept; the goal and milestone ids are attached |
| TodaysFocus.LatestActive | src/components/mentor/TodaysFocus.tsx:78-80 | the chosen index lies within the goal list |
| TodaysFocus.LatestActiveSpec | src/components/mentor/TodaysFocus.tsx:78-82 | none iff no goal is active; otherwise an active goal that no active goal is newer than, and newer than every earlier active goal (stable sort) |
| TodaysFocus.BackfillCount | src/components/mentor/TodaysFocus.tsx:76-82 | exactly one task is added iff there are fewer than 3 candidates and some goal is active; never more than one |
| TodaysFocus.BackfillShape | src/components/mentor/TodaysFocus.tsx:83-130 | the added task is open and undated, belongs to the latest goal and its first milestone (or the placeholder), has the current energy (medium if unset) and that level's tags |
| TodaysFocus.TodaysTasks | src/components/mentor/TodaysFocus.tsx:48-135 | the memo is the candidates followed by the backfill |
| TodaysFocus.Rank | src/components/mentor/TodaysFocus.tsx:147-173 | ranks are 0..2, and rank 0 is exactly the current energy level |
| TodaysFocus.CompareByRank | src/components/mentor/TodaysFocus.tsx:147-173 | the comparator's sign is exactly the comparison of ranks, so it is a consistent total preorder |
| TodaysFocus.RankKeyThreeWay | src/components/mentor/TodaysFocus.tsx:147-173 | the rank key takes only the values 0, 1 and 2 |
| TodaysFocus.Prioritize | src/components/mentor/TodaysFocus.tsx:138-176 | no energy level gives the list unchanged; otherwise a copy sorted stably by rank |
| TodaysFocus.PrioritizedPermutation | src/components/mentor/TodaysFocus.tsx:144-147 | the prioritised list is a permutation of the collected one |
| TodaysFocus.PrioritizedOrder | src/components/mentor/TodaysFocus.tsx:147-173 | ranks never decrease along the list; the comparator never prefers a later task; tasks at the current level come first |
| TodaysFocus.PrioritizedStable | src/components/mentor/TodaysFocus.tsx:147 | tasks of equal rank keep their collected order |
| StableSort.RankedHaveKey | src/components/mentor/TodaysFocus.tsx:147 | every element of bucket q has key q |
| StableSort.RankedAppend | src/components/mentor/TodaysFocus.tsx:147 | a bucket of a + b is the bucket of a followed by the bucket of b |
| StableSort.RankedOfRanked | src/components/mentor/TodaysFocus.tsx:147 | bucket q of bucket p is bucket p when p = q and empty otherwise |
| StableSort.SlotUnique | src/components/mentor/TodaysFocus.tsx:147 | the only insertion point with smaller-or-equal keys before and greater keys after is the slot |
| StableSort.InsertAtSlot | src/components/mentor/TodaysFocus.tsx:147 | inserting an element at its slot in the sorted list sorts the extended list |
| StableSort.ShiftIntoPlace | src/components/mentor/TodaysFocus.tsx:147 | one insertion pass leaves the prefix sorted with the new element and the rest of the array untouched |
| StableSort.SortByKey | src/components/mentor/TodaysFocus.tsx:147 | the in-place sort leaves the array equal to `ByKey` of its old contents |
| StableSort.ByKeyPermutation | src/components/mentor/TodaysFocus.tsx:147 | the sorted list is a permutation of the input |
| StableSort.ByKeySorted | src/components/mentor/TodaysFocus.tsx:147 | keys never decrease along the sorted list |
| StableSort.ByKeyStable | src/components/mentor/TodaysFocus.tsx:147 | elements of equal key keep their input order |
| Seqs.Filter | src/pages/TodaysFocus.tsx:54 | `filter` keeps only elements of the input that pass, and keeps every element that passes |
| Seqs.FilterAppend | src/pages/TodaysFocus.tsx:54 | filtering a + b is filtering a, then b (order is kept) |
| Seqs.FilterIdempotent | src/pages/TodaysFocus.tsx:109 | filtering twice by one test equals filtering once |
| Seqs.FilterKeepsAll | src/pages/TodaysFocus.tsx:109 | a filter that rejects nothing returns its input |
| Seqs.FilterDropsAll | src/pages/TodaysFocus.tsx:109 | a filter that rejects everything returns [] |
| Seqs.FilterSplitsMultiset | src/pages/TodaysFocus.tsx:108-109 | the kept and the dropped parts together are the input, as multisets |
| DailyTasks.MarkCompletedSpec | src/pages/TodaysFocus.tsx:39-44 | completing keeps length and order, sets the flag exactly on the tasks with the id, and changes nothing else |
| DailyTasks.MarkCompletedIdempotent | src/pages/TodaysFocus.tsx:39-44 | completing twice equals completing once |
| DailyTasks.SkippedSpec | src/pages/TodaysFocus.tsx:53-54 | skipping removes every task with the id and keeps every other task |
| DailyTasks.SkippedAppend | src/pages/TodaysFocus.tsx:54 | skipping keeps the other tasks in their order |
| DailyTasks.ClearedSpec | src/pages/TodaysFocus.tsx:108-109 | clearing leaves no completed task, keeps every open task, and is idempotent |
| DailyTasks.CountsBounded | src/pages/TodaysFocus.tsx:119-120 | the completed count never exceeds the total |
| DailyTasks.PercentSpec | src/pages/TodaysFocus.tsx:141 | the percentage is 0..100, 0 for no tasks or none done, 100 when all are done, and the nearest integer to 100·c/t with halves rounded up |
| DailyTasks.DailyFocus.constructor | src/pages/TodaysFocus.tsx:11-29 | mounting loads a stored list, or [] when the value is missing or unparsable; the form is empty and hidden; storage mirrors the list |
| DailyTasks.DailyFocus.Complete | src/pages/TodaysFocus.tsx:39-44 | tasks become `MarkCompleted`; the form is untouched; storage mirrors the list |
| DailyTasks.DailyFocus.Skip | src/pages/TodaysFocus.tsx:53-54 | tasks become `Skipped`; the form is untouched; storage mirrors the list |
| DailyTasks.DailyFocus.Edit | src/pages/TodaysFocus.tsx:63-69 | exactly the named form field takes the value |
| DailyTasks.DailyFocus.ToggleForm | src/pages/TodaysFocus.tsx:150-151 | the form's visibility flips; nothing else changes |
| DailyTasks.DailyFocus.AddTask | src/pages/TodaysFocus.tsx:71-106 | a blank title changes nothing; otherwise one open task from the form is appended (an empty goal title becomes absent), and the form is reset and hidden |
| DailyTasks.DailyFocus.ClearCompleted | src/pages/TodaysFocus.tsx:108-109 | tasks become `Cleared`; storage mirrors the list |
| DailyTasks.DailyFocus.Progress | src/pages/TodaysFocus.tsx:119-141 | the figure in the progress circle is at most 100 |
| JournalStorage.FindSpec | src/utils/journalStorage.ts:16-19 | `find` returns none iff no entry has the id; otherwise an entry with the id before which no entry has it |
| JournalStorage.FindAfterAppend | src/utils/journalStorage.ts:5-19 | after a push, lookup finds the earlier entry with that id if there is one, else the pushed one |
| JournalStorage.WithoutSpec | src/utils/journalStorage.ts:21-25 | after a delete no entry has the id; every other entry is kept; deleting again changes nothing |
| JournalStorage.WithoutAppend | src/utils/journalStorage.ts:23 | deleting keeps the order of the remaining entries |
| JournalStorage.JournalStore.constructor | src/utils/journalStorage.ts:3 | the store opens over the given storage contents |
| JournalStorage.JournalStore.Entries | src/utils/journalStorage.ts:11-14 | a missing key reads as the empty list |
| JournalStorage.JournalStore.Save | src/utils/journalStorage.ts:5-9 | only the journal key changes, to the old list plus the entry; an entry with a new id is then found by its id |
| JournalStorage.JournalStore.Delete | src/utils/journalStorage.ts:21-25 | only the journal key changes, to the old list without that id; lookup then finds nothing |

## Left out

- The language model call (`generateMentorResponse`) is not part of this model. Its outcome is the `Reply` parameter of `SendMessage`: answer text or failure. The call's asynchrony is left out, and so is React's batching of state updates. `Exchange` applies the setter calls in their final order.
- MentorContext.Session.Exchange: sets `isTyping` true and then false within one call, so the flag's value while the answer is awaited is not visible in its contract.
- `uuidv4()`, `new Date()` and `isToday` are replaced by parameters. Ids are given strings, times and days are integers, and "today" is one day number. Date arithmetic (`setDate`, `setMonth`) is left out: a deadline is recorded symbolically (`InOneWeek`, `InOneMonth`, `Tomorrow`, `ParsedFrom(text)`).
- MentorUtils.DeadlineOfSpec: when `new Date(text)` gives NaN (for example "I want to rest by someday."), the source leaves the deadline undefined (src/utils/mentorUtils.ts:46-51). The model still records `ParsedFrom(text)`, so it does not promise "no deadline" in that case.
- MentorContext.UserMemory: `preferredTimeOfDay`, `responseToFailure` and `responseToSuccess` (src/context/MentorContext.tsx:50-52) are optional fields that no code in this core sets or reads; they are not modelled.
- MentorUtils.ResolveDeadlineOrder: `new Date(text)` parsing is not modelled. `ParsedFrom(text)` stands for its result, including the case where parsing fails and the deadline stays unset.
- JSON encoding and decoding is left out. Storage holds decoded values (`Stored`), and corrupt text is one case, `Unparsable`. Stored JSON of the wrong shape (e.g. `null`) is not modelled.
- Local storage writes that happen in React effects are represented by a stored copy beside each piece of state. Each method ends with storage equal to the state, which is what the effects do after the render. The page's momentary write of `[]` on mount, before the loaded list arrives, is not modelled.
- JournalStorage.JournalStore.Entries: an empty stored string reads as the empty list in the source. The model has no raw strings, so that case is not represented. A corrupt journal value makes the source throw; that is also not represented.
- `toLowerCase` is ASCII only; non-ASCII case mappings are left out. The regular expressions' `/i` matches against ASCII lead-ins, and for that the ASCII folding is exact.
- DailyTasks.PercentSpec: `Math.round((c / t) * 100)` is modelled as exact half-up rounding of the rational 100·c/t. Floating-point error that could move an exact half is not modelled.
- TodaysFocus.LatestActiveSpec: `createdAt` values are integers. Invalid dates (NaN) and their effect on the sort comparator are left out.
- TodaysFocus.Prioritize: the engine's own sort algorithm is not modelled. The model uses a stable insertion sort, which gives the same result because ECMAScript's `Array.prototype.sort` is stable and the comparator is consistent (`TodaysFocus.CompareByRank`).
- Toast notifications, console logging and all rendering (JSX, layout, presentation-only components) are left out.
- `setUserMood` and `setUserEnergyLevel` read the date from the clock; the model takes `today` as a parameter.
