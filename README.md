# clearmind-flow-focus widgets in Dafny

This project models the state logic of the productivity app's widgets. There is one Dafny module per
component:

- the Pomodoro focus timer (`FocusMode`) and the dashboard's quick-focus card (`FocusQuickStart`);
- the daily prayer tracker with its completion rate, weekly average and streak (`NamajTracker`);
- the goal console with sub-goals and a progress figure (`GoalConsole`);
- the motivation hub with quote replacement, pinning, editing and rotation (`MotivationCards`);
- the completed-task history with search, labels and time formatting (`TaskHistory`);
- the notes page with search, creation and updates (`Notes`);
- the Eisenhower priority matrix (`EisenhowerMatrix`);
- the expense log (`Expenses`).

Three small support modules sit under these. `Wrappers` holds `Option`. `Seqs` holds an
order-keeping `Filter` with its subsequence and counting lemmas. `Text` holds ASCII lower-casing,
substring search, JavaScript whitespace, and decimal printing and parsing.

The model takes the form of the code:

- State that a component updates step by step is a Dafny `class`: the timer's four fields, the
  tracker's prayers, records and streak, and the motivation hub's cards, current card and editor.
  Each method is specified by a pure function of the old state. The streak loop is a `method` with
  loop invariants.
- Components that rebuild a list wholesale with spread, `map` and `filter` are pure functions over
  datatypes. Each one is paired with lemmas, for example:
  - an inverse: deleting what was just added; toggling twice;
  - a round trip: reading formatted text back gives its value;
  - a reference definition: filter results as subsequences with exact element counts.

Identifiers from `Date.now()`, timestamps from `new Date()`, the `Math.random` quote index and
`parseFloat`'s result are parameters. Dates are integers.

The timer code has no guard that keeps it from starting at zero seconds: `toggleTimer` always flips
the flag, and the model does the same. The code has no phase-change notifications, no ambient-sound
controller and no stored session notes, so the model has none either.

## Model

| member | source | states |
|---|---|---|
| FocusMode.PomodoroTimer.constructor | src/components/focus/FocusMode.tsx:9-12 | a fresh timer is stopped in the focus phase with 1500 seconds and 0 cycles, and is in range |
| FocusMode.PomodoroTimer.Tick | src/components/focus/FocusMode.tsx:16-36 | one second: the new state is `Step` of the old. It keeps the range invariant. Running above 1 it lowers `timeLeft` by exactly one. Running at 1 it ends the phase. Stopped, it changes nothing |
| FocusMode.StepBehaviour | src/components/focus/FocusMode.tsx:19-32 | from any in-range state, a second counts down by one, or ends the phase, or (when stopped) leaves the state alone. `cycles` grows by one only when a focus phase turns into a break |
| FocusMode.OperationsKeepRange | src/components/focus/FocusMode.tsx:19-32 | tick, toggle and reset keep `0 < timeLeft <= ` the current phase's length |
| FocusMode.RunToPhaseEnd | src/components/focus/FocusMode.tsx:19-32 | a running phase left alone for its remaining seconds ends stopped in the other phase: a break of 300 with one more cycle, or a focus phase of 1500 with the same count |
| FocusMode.CountDown | src/components/focus/FocusMode.tsx:19-22 | while running, k seconds short of the end, `timeLeft` drops by exactly k and nothing else changes |
| FocusMode.FullCycleScenario | src/components/focus/FocusMode.tsx:19-32 | start and wait 1500 s: a stopped break of 300 s with 1 cycle. Start and wait 300 s more: a stopped focus phase of 1500 s, still 1 cycle |
| FocusMode.DriveFullCycle | src/components/focus/FocusMode.tsx:16-46 | the same scenario driven through the class's `ToggleTimer` and 1800 `Tick` calls in loops |
| FocusMode.PomodoroTimer.ToggleTimer | src/components/focus/FocusMode.tsx:44-46 | only the running flag flips, and the range invariant is kept |
| FocusMode.ToggleTwice | src/components/focus/FocusMode.tsx:44-46 | toggling flips the flag, and toggling twice gives back the state |
| FocusMode.PomodoroTimer.ResetTimer | src/components/focus/FocusMode.tsx:48-52 | stopped, focus phase, 1500 s, with the cycle count unchanged |
| FocusMode.FormatTimeLayout | src/components/focus/FocusMode.tsx:38-42 | below 6000 s the display is five characters: two digits of s div 60, a colon, two digits of s mod 60 |
| FocusMode.FormatTimeRoundTrip | src/components/focus/FocusMode.tsx:38-42 | reading a display back, minutes times 60 plus seconds, gives the seconds it was made from |
| FocusMode.PomodoroTimer.Display | src/components/focus/FocusMode.tsx:38-74 | the rendered time reads back as the seconds left, and for a timer in range it is five characters with the colon in the middle |
| FocusMode.FormatPhaseLengths | src/components/focus/FocusMode.tsx:38-42 | the full focus phase shows "25:00" and the full break "05:00", and both read back |
| FocusQuickStart.QuickTimer.constructor | src/components/dashboard/FocusQuickStart.tsx:8-9 | the card starts stopped at 1500 seconds |
| FocusQuickStart.QuickTimer.ToggleTimer | src/components/dashboard/FocusQuickStart.tsx:17-19 | only `isRunning` flips; `timeLeft` stays 1500 |
| FocusQuickStart.ToggleTwice | src/components/dashboard/FocusQuickStart.tsx:17-19 | two presses restore the card |
| FocusQuickStart.QuickTimer.Display | src/components/dashboard/FocusQuickStart.tsx:9-33 | the circle always reads "25:00", which parses back to 1500 seconds |
| NamajTracker.Toggle | src/components/namaj/NamajTracker.tsx:46 | the named prayer flips and the other four keep their value |
| NamajTracker.ToggleTwice | src/components/namaj/NamajTracker.tsx:46 | toggling a prayer twice restores the status |
| NamajTracker.CompletionRate | src/components/namaj/NamajTracker.tsx:51 | the rate is 20 times the completed count, a multiple of 20 up to 100. It is 100 exactly when all five are done and 0 exactly when none is |
| NamajTracker.ToggleRate | src/components/namaj/NamajTracker.tsx:46-51 | a toggle moves the rate by exactly 20, down when the prayer was done and up otherwise |
| NamajTracker.UpsertToday | src/components/namaj/NamajTracker.tsx:53-58 | after saving there is exactly one record for today. It is last and holds the new status and rate. The records of other days come before it in their original order |
| NamajTracker.UpsertKeepsRates | src/components/namaj/NamajTracker.tsx:51-58 | if every record's rate agrees with its prayers, saving keeps that true |
| NamajTracker.Tracker.constructor | src/components/namaj/NamajTracker.tsx:25-35 | a fresh tracker has all five prayers undone, no records and a streak of 0, and is consistent |
| NamajTracker.Tracker.TogglePrayer | src/components/namaj/NamajTracker.tsx:45-100 | flips the prayer, upserts today's record, and re-runs the streak effect. Rates stay consistent and the stored streak equals `Streak(records)` |
| NamajTracker.Tracker.TodayCompletion | src/components/namaj/NamajTracker.tsx:64-66 | 20 times the number of today's completed prayers, at most 100 |
| NamajTracker.LastSeven | src/components/namaj/NamajTracker.tsx:69 | the last min(7, n) records |
| NamajTracker.WeeklyCompletion | src/components/namaj/NamajTracker.tsx:68-73 | 0 with no records. Otherwise the round-half-up mean r of the last seven rates satisfies 2nr - n <= 2·sum < 2nr + n. It lies in 0..100 when the rates agree with the prayers |
| NamajTracker.SortNewestFirst | src/components/namaj/NamajTracker.tsx:77 | the sort is a permutation of the records, ordered by date, newest first |
| NamajTracker.SortStable | src/components/namaj/NamajTracker.tsx:77 | the sort is stable: the records of any one date come out in their original order |
| NamajTracker.LeadingPerfect | src/components/namaj/NamajTracker.tsx:79-85 | the length of the run of 100% records at the front: all before it are perfect, and the one at it is not |
| NamajTracker.CountStreak | src/components/namaj/NamajTracker.tsx:76-85 | the counting loop with `break` returns that run length |
| NamajTracker.StreakBounds | src/components/namaj/NamajTracker.tsx:75-88 | the streak never exceeds the number of records. It is 0 exactly when the newest record is not perfect |
| NamajTracker.Tracker.CalculateStreak | src/components/namaj/NamajTracker.tsx:75-88 | sets the stored streak to the streak of the records |
| GoalConsole.AddGoal | src/components/goals/GoalConsole.tsx:55-68 | a blank title (JavaScript `trim`) changes nothing. Otherwise one goal is appended with the title as typed, progress 0, no sub-goals and no deadline, and the form goes back to empty and short-term |
| GoalConsole.AddSubGoal | src/components/goals/GoalConsole.tsx:70-85 | a blank title changes nothing. Otherwise the goals with the id get one uncompleted sub-goal at the end, and every other goal is unchanged |
| GoalConsole.ToggleSubGoal | src/components/goals/GoalConsole.tsx:87-103 | as written: the matching sub-goal flips, other goals are untouched, and progress is set to the formula on the sub-goals before the toggle |
| GoalConsole.FlipSub | src/components/goals/GoalConsole.tsx:92-96 | the count and order of sub-goals stay the same, and exactly those with the id change their completed flag |
| GoalConsole.ProgressAsWrittenFacts | src/components/goals/GoalConsole.tsx:97-99 | when the sub-goal exists the progress lies in 0..100. Unchecking a completed one leaves progress at the share of sub-goals done before the toggle |
| GoalConsole.UncheckKeepsFullProgress | src/components/goals/GoalConsole.tsx:97-99 | unchecking the only, completed sub-goal leaves progress 100 with nothing completed |
| GoalConsole.ToggleSubGoalCorrected | src/components/goals/GoalConsole.tsx:87-103 | corrected: other goals are untouched; a matching goal keeps every other field and gets the flipped sub-goals, with progress the rounded share completed after the toggle, 0..100 |
| GoalConsole.CorrectedToggleFacts | src/components/goals/GoalConsole.tsx:87-103 | the corrected toggle keeps every goal's progress in agreement with its sub-goals, and toggling twice restores the goals |
| GoalConsole.DeleteGoal | src/components/goals/GoalConsole.tsx:105-107 | no goal with the id is left, and every other goal is kept exactly as often as it occurred |
| GoalConsole.DeleteGoalOrder | src/components/goals/GoalConsole.tsx:105-107 | the survivors are a subsequence of the goals, in their original order |
| GoalConsole.DeleteUndoesAdd | src/components/goals/GoalConsole.tsx:55-107 | deleting a just-added goal by its id gives what deleting that id gave before |
| MotivationCards.NewQuoteFacts | src/components/motivation/MotivationCards.tsx:50-66 | after a new quote there is exactly one quote card, the last. The non-quote cards keep their order |
| MotivationCards.Hub.GetRandomQuote | src/components/motivation/MotivationCards.tsx:50-66 | the card list is replaced as above, and the new quote card is current |
| MotivationCards.TogglePinned | src/components/motivation/MotivationCards.tsx:68-72 | exactly the cards with the id flip their pin, and nothing else changes |
| MotivationCards.Hub.TogglePin | src/components/motivation/MotivationCards.tsx:68-72 | the card list becomes `TogglePinned` of the old list; the current card, the editing flag and the edit buffer are outside the frame and stay as they were |
| MotivationCards.TogglePinTwice | src/components/motivation/MotivationCards.tsx:68-72 | toggling a pin twice is the identity |
| MotivationCards.Hub.StartEdit | src/components/motivation/MotivationCards.tsx:74-78 | editing on, the buffer holds the card's text, and the card is current |
| MotivationCards.WithContent | src/components/motivation/MotivationCards.tsx:82-84 | the cards with the id get the new text, and the others are unchanged |
| MotivationCards.Hub.SaveEdit | src/components/motivation/MotivationCards.tsx:80-88 | with a current card its entries and the card get the buffer. Without one only editing ends |
| MotivationCards.Hub.CancelEdit | src/components/motivation/MotivationCards.tsx:90-93 | editing off and the buffer cleared; the cards are not touched |
| MotivationCards.Hub.AddPersonalCard | src/components/motivation/MotivationCards.tsx:95-105 | one unpinned personal card is appended, made current and opened for editing |
| MotivationCards.InitialCard | src/components/motivation/MotivationCards.tsx:107-111 | the first pinned card, else the first card, else none |
| MotivationCards.Hub.constructor | src/components/motivation/MotivationCards.tsx:18-111 | mounting shows the pinned default card "2" |
| MotivationCards.IndexOfId | src/components/motivation/MotivationCards.tsx:119 | the first position with the id, or -1 when there is none |
| MotivationCards.NextIndex | src/components/motivation/MotivationCards.tsx:119-120 | a valid index: the position after the current card's, wrapping to 0 at the end or when the card is absent |
| MotivationCards.RotationTarget | src/components/motivation/MotivationCards.tsx:115-121 | a step happens exactly when more than one card is unpinned and the current card is not pinned. The chosen card is an unpinned card of the list at `NextIndex` |
| MotivationCards.Hub.Rotate | src/components/motivation/MotivationCards.tsx:113-127 | one firing of the rotation interval moves to the rotation target, or leaves the current card |
| MotivationCards.Hub.SelectCard | src/components/motivation/MotivationCards.tsx:232 | clicking a card makes it current |
| TaskHistory.FilteredTasksSpec | src/components/tasks/TaskHistory.tsx:47-51 | the filter keeps order. A task is kept, as often as it occurs, exactly when its lower-cased title contains the lower-cased term and the filter is "all" or its category |
| TaskHistory.NoFilterKeepsAll | src/components/tasks/TaskHistory.tsx:48-49 | an empty search with "all" keeps every task |
| TaskHistory.CategoryColor | src/components/tasks/TaskHistory.tsx:53-61 | red, yellow and blue classes for the first three categories; gray for "neither" and any other string |
| TaskHistory.CategoryLabel | src/components/tasks/TaskHistory.tsx:63-71 | the four labels, and any other string unchanged |
| TaskHistory.FormatTimeSpent | src/components/tasks/TaskHistory.tsx:73-78 | missing or 0 is "No time logged". Below 60 it is "{m}m". From 60 on it is "{m div 60}h {m mod 60}m" |
| TaskHistory.FormatTimeSpentRoundTrip | src/components/tasks/TaskHistory.tsx:73-78 | every logged time reads back as the minutes it was made from |
| TaskHistory.TotalTimeAppend | src/components/tasks/TaskHistory.tsx:172 | the total of the time spent adds up over concatenation |
| TaskHistory.FilteredTimeBounded | src/components/tasks/TaskHistory.tsx:172 | the filtered total never exceeds the total over all tasks |
| TaskHistory.TimeSpentSummary | src/components/tasks/TaskHistory.tsx:172 | with no time on the filtered tasks the summary reads "No time logged"; otherwise it reads back as the sum of the filtered tasks' minutes |
| Notes.FilteredNotesSpec | src/components/notes/Notes.tsx:39-43 | the search keeps order. A note is kept, as often as it occurs, exactly when the lower-cased term is in its title, content or a tag |
| Notes.EmptySearchKeepsAll | src/components/notes/Notes.tsx:39-43 | an empty search keeps every note |
| Notes.CreateNewNote | src/components/notes/Notes.tsx:45-56 | a blank "New Note" with no tags goes first, the old notes follow, and it is selected |
| Notes.Merge | src/components/notes/Notes.tsx:60-63 | each field present in the update overrides the note's, and an empty update changes nothing |
| Notes.UpdateNote | src/components/notes/Notes.tsx:58-65 | the notes with the id get the merge and the others are unchanged. The selected note gets the same merge only when its id matches |
| Notes.UpdateKeepsSelectionInStep | src/components/notes/Notes.tsx:58-65 | editing the selected note without changing its id keeps it equal to its list entry |
| Notes.RenameNewNote | src/components/notes/Notes.tsx:45-65 | renaming a fresh note renames only that note, which stays selected |
| EisenhowerMatrix.AddTask | src/components/matrix/EisenhowerMatrix.tsx:30-40 | blank input changes nothing. Otherwise one task is appended with the quadrant and the title as typed, and the input is cleared. Tasks stay in the four quadrants |
| EisenhowerMatrix.TasksForQuadrant | src/components/matrix/EisenhowerMatrix.tsx:42-44 | exactly the tasks of the quadrant |
| EisenhowerMatrix.TasksForQuadrantCount | src/components/matrix/EisenhowerMatrix.tsx:42-44 | each task of the quadrant is kept as often as it occurs in the list, and no other task is |
| EisenhowerMatrix.TasksForQuadrantOrder | src/components/matrix/EisenhowerMatrix.tsx:42-44 | in list order |
| EisenhowerMatrix.QuadrantsPartition | src/components/matrix/EisenhowerMatrix.tsx:23-44 | when every task has one of the four quadrants, the four lists' sizes add up to the number of tasks |
| EisenhowerMatrix.AddTaskQuadrants | src/components/matrix/EisenhowerMatrix.tsx:37-44 | adding to q appends the task to q's list and leaves the other lists as they were |
| Expenses.AddExpense | src/components/expenses/Expenses.tsx:32-44 | without an amount text or a category nothing changes. Otherwise the new expense is first, the old ones follow in order, and the form is cleared. The description may be empty |
| Expenses.DeleteExpense | src/components/expenses/Expenses.tsx:46-48 | no expense with the id is left, and every other expense is kept exactly as often as it occurred |
| Expenses.DeleteExpenseOrder | src/components/expenses/Expenses.tsx:46-48 | the survivors keep their order |
| Expenses.DeleteUndoesAdd | src/components/expenses/Expenses.tsx:32-48 | deleting a just-added expense by its id gives what deleting that id gave before |
| Expenses.CategoryTotals | src/components/expenses/Expenses.tsx:55-60 | no more entries than fixed categories. Each entry carries its category's total, which is positive |
| Expenses.CategoryTotalsShape | src/components/expenses/Expenses.tsx:30-60 | the categories listed are a subsequence of the fixed list, so each appears at most once and in list order. A category is listed exactly when it is in the list and its total is positive |

## Left out

- Browser storage: `localStorage` and `JSON.parse` in the prayer tracker are I/O. Records live in memory.
- Clocks and randomness: `Date.now()` ids, `new Date()` timestamps, date strings and `Math.random` are parameters. Dates are integers, so the date-string parsing inside the streak sort is not modelled.
- Timing: `setInterval`, `clearInterval` and React's effect scheduling are not modelled. The one-second tick and the 30-second rotation are explicit method calls.
- FocusMode.PomodoroTimer.Tick: an interval fires each second while running and the effect settles a zero right away. The model takes both in one call and does not model a render between them.
- The timer's sound toggle, quick notes and ambient buttons only change icons or hold text, so they are not modelled.
- Floating point:
  - Expense amounts are integers supplied as `parseFloat`'s result, and `NaN` is not modelled.
  - The total and today's spending sums are not modelled, nor is `toFixed`.
  - The task history's Avg/day figure is not modelled.
- NamajTracker.CompletionRate: `count / 5 * 100` is modelled as `20 * count`. The two are equal for 0..5 once JavaScript rounds the floats.
- NamajTracker.WeeklyCompletion and GoalConsole progress: `Math.round` of a float quotient is modelled as integer round-half-up, with no float rounding edge cases.
- Case folding: `toLowerCase` is modelled for ASCII letters only.
- GoalConsole.ToggleSubGoal: the component calls it only from an existing sub-goal's checkbox, so it requires the goal to have sub-goals. With none, the code computes `(0 + 1) / 0 * 100`, so progress becomes `Infinity`, and that is not modelled.
- NamajTracker.SortNewestFirst: dates are compared as integers; the `Date` parsing of the date strings is not modelled. The sort is a stable insertion sort, like the stable `Array.prototype.sort` of ES2019 (see `NamajTracker.SortStable`).
- TaskHistory: the clock-relative "This Week" count is not modelled.
- MotivationCards.Hub.TogglePin: `currentCard` is a snapshot in the component, so a pin toggle does not update it. The model keeps that behaviour, and the rotation then reads the snapshot's pin flag.
- JSX markup and the presentational components are not part of this model: navigation, the dashboard cards, analytics, the journal and the layout.

## Findings

| source | as written | input that shows it | evidently intended | confidence | as-written member | corrected member |
|---|---|---|---|---|---|---|
| src/components/goals/GoalConsole.tsx:97-99 | progress is round(100·(k + d)/n), with k the completed count BEFORE the toggle and d = 0 when the toggled sub-goal was completed, else 1; unchecking therefore never lowers progress | a goal with one completed sub-goal; unchecking it leaves progress 100 with 0 of 1 completed | progress is the rounded share of sub-goals completed AFTER the toggle (d should be -1 when unchecking) | not executed | GoalConsole.UncheckKeepsFullProgress (about GoalConsole.ToggleSubGoal) | GoalConsole.ToggleSubGoalCorrected, with GoalConsole.CorrectedToggleFacts |
