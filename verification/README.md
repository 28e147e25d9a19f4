# PTE 30-day preparation app — a verified model of its core

This project models the logic of a single-page study planner for the PTE
Academic exam. The learner gives a target score, daily study hours and a
level. The application then derives a catalogue of eight practice tasks with
daily targets and runs a 30-day plan around it:

- per-task progress counters and a task filter;
- a timed practice session with a placeholder score;
- a full mock test, navigated question by question under a one-hour countdown;
- the mock-test history page;
- a calendar of study sessions;
- a vocabulary trainer;
- progress and dashboard figures;
- a score calculator;
- a study countdown timer;
- rule-based notifications;
- the onboarding wizard.

There is one Dafny module per source component. `Common` holds the shared
arithmetic (`Math.round`, `Math.ceil` and `Math.floor` on exact rationals),
the day-number formula, the three-band score colour and an
order-preserving filter. `Digits` holds decimal rendering and zero-padding.

How the model is built:

- **Components that change state step by step** are classes. This covers the
  app root, the guide to each task, the practice session, the mock-test interface and
  page, the planner, the vocabulary builder, the study timer, the
  notification centre and the onboarding wizard.
  - Each method's `ensures` gives the whole new state.
  - Where a component is timer-driven, that state is a snapshot datatype tied
    to a pure step function. The lemmas are stated about the step function:
    runs of ticks, hand-overs and completion.
- **Pure derivations** are functions with contracts and lemmas. These are the
  catalogue, the filters, the weekly bars, the estimates, the recommendation
  and the notification triggers.
- **Multipliers and ratios are exact.** Multipliers are tenths or
  hundredths, and ratios are `real`. `Math.round(x)` is `floor(x + 1/2)`.
- **Clocks and randomness are parameters.** `Date.now()`, the current day
  and every `Math.random()` draw are passed in, each with its stated range.
  Calendar dates are day indices.

Two behaviours of the code are kept as written:

- Summarize Spoken Text is a listening task, but its daily target scales
  with the target-score multiplier only (`src/App.tsx:152`). The other
  listening task uses both multipliers.
- The mock-test interface reports its total as `overall`, while the history
  page reads `score`. An entry appended from the interface therefore has no
  score. The next improvement figure is not a number
  (`MockTest.ImprovementAfterInterfaceRun`), and the entry's score colour
  falls to the red band.

## Model

| member | source | states |
|---|---|---|
| Common.RoundDiv | src/App.tsx:77 | Math.round of n/d on exact rationals: the result r satisfies r - 1/2 <= n/d < r + 1/2 |
| Common.CeilDiv | src/components/TaskGuide.tsx:257 | Math.ceil of n/d: the least r with n <= d·r |
| Common.FloorDiv | src/components/TaskGuide.tsx:271 | Math.floor of n/d: the greatest r with d·r <= n |
| Common.RoundDivMonotone | src/App.tsx:67-77 | rounding a larger numerator never gives a smaller result |
| Common.RoundReal | src/components/PracticeSession.tsx:115 | Math.round on a real lands within half a unit of its argument |
| Common.RoundDivIsRoundReal | src/components/Dashboard.tsx:200 | rounding an integer quotient agrees with rounding the exact rational it denotes |
| Common.DayNumber | src/components/MockTest.tsx:25 | the day number is the ceiling of elapsed milliseconds over one day |
| Common.ScoreBand | src/components/ScoreCalculator.tsx:18-22 | green iff score >= target, yellow iff target-5 <= score < target, red iff score < target-5 (the same bands in MockTest.tsx:66-70 and ProgressTracker.tsx:55-59) |
| Common.FilterMembership | src/components/TaskGuide.tsx:38 | Array.filter keeps exactly the elements satisfying the predicate |
| Common.FilterAppend | src/components/TaskGuide.tsx:38 | filtering distributes over concatenation, so relative order is preserved |
| Common.FilterAll | src/components/VocabularyBuilder.tsx:163-165 | a filter whose predicate holds everywhere returns the list unchanged ('all' category) |
| Common.FilterFilter | src/components/VocabularyBuilder.tsx:161-175 | two successive filters equal one filter by the conjunction |
| Common.FilterKeepsOrder | src/components/ScoreCalculator.tsx:25-27 | a filter of a list increasing in a key is increasing in that key |
| Common.Count | src/App.tsx:256 | a filtered length is the number of elements satisfying the predicate, at most the list length |
| Digits.NatToStringRoundTrip | src/components/MockTestInterface.tsx:84 | number-to-string renders decimal digits that read back to the number |
| Digits.Pad2Value | src/components/StudyTimer.tsx:35 | padStart(2, '0') keeps the digits' value |
| Digits.Field2RoundTrip | src/components/MockTestInterface.tsx:84 | a field below 100, padded to two digits, reads back to itself |
| App.BaseTenths | src/App.tsx:67 | the target-score multiplier is 1.5 iff target >= 70, else 1 |
| App.HourTenths | src/App.tsx:68 | the hours multiplier is 1.2 iff hours >= 3, 1 iff 2 <= hours < 3, 0.8 iff hours < 2 |
| App.BothTarget | src/App.tsx:77 | the target is the product of count and both multipliers, rounded half up |
| App.BaseTarget | src/App.tsx:114 | the target is the product of count and the base multiplier, rounded half up |
| App.InitializeTasks | src/App.tsx:66-174 | eight tasks, all with zero progress |
| App.CatalogueIdsDistinct | src/App.tsx:70-172 | the eight catalogue ids are pairwise distinct |
| App.CatalogueMultipliers | src/App.tsx:152 | each catalogue entry uses its multipliers; Summarize Spoken Text is a listening task with the base multiplier only |
| App.CatalogueTarget | src/App.tsx:70-172 | the i-th daily target is its base count scaled by both multipliers for the three speaking tasks and Write From Dictation, by the base multiplier otherwise |
| App.CatalogueTargetsPositive | src/App.tsx:66-174 | every daily target is at least 1 for every profile |
| App.TargetsPositive | src/App.tsx:67-68 | the smallest multipliers still give every catalogue count a target of at least 1 |
| App.TargetsMonotone | src/App.tsx:67-68 | both target formulas grow with the target score and the hours |
| App.CatalogueMonotone | src/App.tsx:67-68 | a higher target score or more hours never lowers any daily target |
| App.RepeatSentenceExample | src/App.tsx:77 | with target 70 and 3 hours Repeat Sentence asks for 27 a day |
| App.CompletedCount | src/App.tsx:256 | the sidebar count is at most the number of tasks, and equals it iff every task meets its target |
| App.CompletedCountIsCount | src/App.tsx:256 | the sidebar count is the length of the filter of tasks meeting their target |
| App.AppState.constructor | src/App.tsx:39-49 | the saved profile, if any, is loaded; the dashboard shows iff it is completed |
| App.AppState.CompleteOnboarding | src/App.tsx:51-57 | the stored profile is the given one with completed = true; the list of tasks is the catalogue; the gate opens |
| App.AppState.ResetProgress | src/App.tsx:59-64 | no profile, no tasks, the onboarding view, and the gate applies again |
| TaskGuide.Bump | src/components/TaskGuide.tsx:20 | a click moves the counter by one and floors it at 0; nothing else changes |
| TaskGuide.BumpAll | src/components/TaskGuide.tsx:17-23 | only entries with the id change; the length is preserved |
| TaskGuide.IncrementThenDecrement | src/components/TaskGuide.tsx:16-28 | decrement undoes increment on non-negative counters |
| TaskGuide.DecrementAtZero | src/components/TaskGuide.tsx:20 | decrementing a zero counter leaves it at zero |
| TaskGuide.BumpAllKeepsNonNegative | src/components/TaskGuide.tsx:20 | counters stay non-negative under every update |
| TaskGuide.FilteredTasks | src/components/TaskGuide.tsx:38 | 'all' is the identity; otherwise membership iff the priority or the section equals the filter |
| TaskGuide.FilteredTasksOrder | src/components/TaskGuide.tsx:38 | the filter preserves relative order |
| TaskGuide.MorningDrill | src/components/TaskGuide.tsx:257 | the morning drill is ceil(0.4 · target) |
| TaskGuide.EveningDrill | src/components/TaskGuide.tsx:271 | the evening drill is floor(0.2 · target) |
| TaskGuide.DrillPlanCoversTarget | src/components/TaskGuide.tsx:257-271 | the three drills cover the daily target and overshoot it by at most 2 |
| TaskGuide.Guide.constructor | src/components/TaskGuide.tsx:12-14 | the first task, if any, is selected; the filter is 'all' |
| TaskGuide.Guide.UpdateTaskProgress | src/components/TaskGuide.tsx:16-28 | the list is bumped by id; the selected copy is bumped iff its id matches |
| TaskGuide.Guide.HandlePracticeComplete | src/components/TaskGuide.tsx:30-36 | whatever the score, the selected task gains one and the practice view closes; without a selection nothing changes |
| PracticeSession.RecordingTime | src/components/PracticeSession.tsx:45-58 | response time per task id, default 40, always within 10..1200 |
| PracticeSession.PreparationTime | src/components/PracticeSession.tsx:60-73 | preparation is 0 exactly for the two summaries and the essay, at most 30 |
| PracticeSession.DifficultyHundredths | src/components/PracticeSession.tsx:98-115 | the difficulty multiplier, 1 for unknown ids, within 0.8..1.3 |
| PracticeSession.Quality | src/components/PracticeSession.tsx:111-113 | typed text: length/100 capped at 1.2; otherwise the draw spread over [0.6, 1.4) |
| PracticeSession.CalculateScore | src/components/PracticeSession.tsx:115-116 | the raw score clamped into [30, 90] |
| PracticeSession.LongResponseIgnoresDraw | src/components/PracticeSession.tsx:111-116 | typed responses of 120+ characters score independently of the random draw |
| PracticeSession.Fresh | src/components/PracticeSession.tsx:20-22 | after mount: preparation phase, preparation time on the clock, no response, no score |
| PracticeSession.Finish | src/components/PracticeSession.tsx:81-85 | completion sets the phase and stops recording; the score is CalculateScore of task type, response length and draw, so in [30, 90]; task type, response and clock are kept |
| PracticeSession.Step | src/components/PracticeSession.tsx:24-43 | a tick acts only with time left in preparation/recording: it decrements, hands over to recording with the response time on the clock, or at the last recording second is Finish with the clock at 0 |
| PracticeSession.ZeroPreparationStalls | src/components/PracticeSession.tsx:24-26 | a zero-preparation task never leaves preparation under ticks and offers no early start |
| PracticeSession.RunKeepsSane | src/components/PracticeSession.tsx:24-43 | the clock never goes negative and a set score stays in [30, 90] |
| PracticeSession.PreparationHandsOver | src/components/PracticeSession.tsx:29-32 | after exactly p ticks of preparation the session records with the full response time |
| PracticeSession.Session.constructor | src/components/PracticeSession.tsx:11-22 | the session starts in the Fresh state |
| PracticeSession.Session.Tick | src/components/PracticeSession.tsx:24-43 | the new state is Step of the old |
| PracticeSession.Session.SetResponse | src/components/PracticeSession.tsx:281 | only the response changes |
| PracticeSession.Session.StartRecording | src/components/PracticeSession.tsx:75-79 | recording on, recording phase, response time on the clock |
| PracticeSession.Session.HandleAutoComplete | src/components/PracticeSession.tsx:81-85 | the new state is Finish of the old |
| PracticeSession.Session.StopRecording | src/components/PracticeSession.tsx:87-91 | stopping behaves as automatic completion |
| PracticeSession.Session.ResetSession | src/components/PracticeSession.tsx:122-129 | back to the Fresh state |
| MockTestInterface.TotalIsSeventy | src/components/MockTestInterface.tsx:19-64 | the four sections hold 35, 3, 15 and 17 questions, 70 in all |
| MockTestInterface.CountsMatchSections | src/components/MockTestInterface.tsx:19-64 | the cursor's count table holds exactly the question counts of the section table |
| MockTestInterface.CountsWellFormed | src/components/MockTestInterface.tsx:19-64 | every section has a task and every task a question |
| MockTestInterface.LastOf | src/components/MockTestInterface.tsx:131-133 | the last question of the last task of the last section is a valid cursor |
| MockTestInterface.LastRank | src/components/MockTestInterface.tsx:107-137 | the last question has rank total − 1 |
| MockTestInterface.TaskStartMonotone | src/components/MockTestInterface.tsx:19-64 | question offsets grow with the index of a task |
| MockTestInterface.SectionStartMonotone | src/components/MockTestInterface.tsx:19-64 | question offsets grow with the section index |
| MockTestInterface.RankBound | src/components/MockTestInterface.tsx:19-64 | every valid cursor has a rank below the question total (70 for the real table) |
| MockTestInterface.NextAdvances | src/components/MockTestInterface.tsx:120-131 | next moves a valid cursor to the valid cursor of the following rank |
| MockTestInterface.NextCompletesOnlyAtLast | src/components/MockTestInterface.tsx:131-133 | next completes the test exactly at the last question |
| MockTestInterface.PrevValid | src/components/MockTestInterface.tsx:139-150 | previous keeps the cursor valid and stays put at the first question |
| MockTestInterface.PrevUndoesNext | src/components/MockTestInterface.tsx:107-150 | previous after next returns to the same question |
| MockTestInterface.NextUndoesPrev | src/components/MockTestInterface.tsx:107-150 | next after previous returns to the same question away from the first one |
| MockTestInterface.PrevNextInverse | src/components/MockTestInterface.tsx:107-150 | previous undoes next |
| MockTestInterface.Next | src/components/MockTestInterface.tsx:122-133 | next question, else first of the next task, else first of the next section, else complete (its contract is in NextAdvances and NextCompletesOnlyAtLast) |
| MockTestInterface.Prev | src/components/MockTestInterface.tsx:139-150 | the mirror of next, a no-op at the first question (its contract is in PrevValid and PrevUndoesNext) |
| MockTestInterface.Walk | src/components/MockTestInterface.tsx:107-137 | repeated next keeps the cursor valid |
| MockTestInterface.WalkRank | src/components/MockTestInterface.tsx:107-137 | n next-clicks from rank k reach rank k + n while it stays below 70 |
| MockTestInterface.SeventiethNextCompletes | src/components/MockTestInterface.tsx:107-137 | from the start, the 70th next completes the test and no earlier one does |
| MockTestInterface.WalkSplit | src/components/MockTestInterface.tsx:107-137 | walking m + n steps is walking m then n |
| MockTestInterface.OverallScore | src/components/MockTestInterface.tsx:92 | overall is the mean of the four skills, rounded half up |
| MockTestInterface.OverallBetweenSkills | src/components/MockTestInterface.tsx:88-92 | overall lies between the lowest and the highest skill |
| MockTestInterface.TestResult | src/components/MockTestInterface.tsx:87-105 | each skill is 60 + its draw, in [60, 79]; overall is the rounded mean of the four (OverallScore) and so in [60, 79]; duration = 3600 − time left; completed tasks = responses logged |
| MockTestInterface.SaveResponse | src/components/MockTestInterface.tsx:109-118 | a response is logged with its cursor iff it is not blank after trimming |
| MockTestInterface.FormatTimeFields | src/components/MockTestInterface.tsx:80-85 | H:MM:SS reads back to the seconds, minutes and seconds below 60 |
| MockTestInterface.FormatTime | src/components/MockTestInterface.tsx:80-85 | the H:MM:SS countdown (its contract is in FormatTimeFields) |
| MockTestInterface.Interface.constructor | src/components/MockTestInterface.tsx:10-16 | first question, 3600 s, nothing logged |
| MockTestInterface.Interface.SetResponse | src/components/MockTestInterface.tsx:285 | only the response buffer changes |
| MockTestInterface.Interface.HandleTestComplete | src/components/MockTestInterface.tsx:87-105 | the reported result uses the current clock and the logged responses |
| MockTestInterface.Interface.NextTask | src/components/MockTestInterface.tsx:107-137 | logs the response, advances or completes, and clears the buffer |
| MockTestInterface.Interface.PreviousTask | src/components/MockTestInterface.tsx:139-153 | the cursor moves back, the buffer clears, recording stops |
| MockTestInterface.Interface.ToggleRecording | src/components/MockTestInterface.tsx:259 | the recording flag flips; nothing else changes (the same button at line 329) |
| MockTestInterface.Interface.Tick | src/components/MockTestInterface.tsx:66-78 | the clock decrements; at the last second it reads 0 and the test completes |
| MockTest.AsHistoryEntry | src/components/MockTest.tsx:18-22 | an interface result enters the history with its skills and date but no score |
| MockTest.ScoreImprovement | src/components/MockTest.tsx:72-77 | none with fewer than two results; the difference of the last two scores; not a number when either is missing |
| MockTest.ImprovementAfterInterfaceRun | src/components/MockTest.tsx:72-77 | after an interface run the improvement is not a number |
| MockTest.EntryBand | src/components/MockTest.tsx:66-70 | a missing score shows red; otherwise the three bands |
| MockTest.Available | src/components/MockTest.tsx:27-64 | test 1 is always open; tests 2, 3 and 4 open on days 14, 21 and 26 |
| MockTest.RecommendedIsAvailable | src/components/MockTest.tsx:27-64 | a recommended test is available, and stays available on later days |
| MockTest.Recommended | src/components/MockTest.tsx:35-62 | the recommended window of each test: up to day 3, days 14-17, days 21-24, day 26 on (its contract is in RecommendedIsAvailable) |
| MockTest.Page.constructor | src/components/MockTest.tsx:9-16 | the two seeded results, no interface open |
| MockTest.Page.HandleMockTestComplete | src/components/MockTest.tsx:18-22 | the result is appended, earlier history unchanged, and the interface closes |
| StudyPlanner.MorningSession | src/components/StudyPlanner.tsx:50-59 | 08:00 to 10:00 with 3+ hours, else to 09:30; open, no notes |
| StudyPlanner.EveningSession | src/components/StudyPlanner.tsx:62-71 | 19:00–21:00 with 3+ hours, else 20:00–21:30; open, no notes |
| StudyPlanner.DayPlan | src/components/StudyPlanner.tsx:44-72 | two sessions a day with 2+ hours, else one |
| StudyPlanner.SeededPlanShape | src/components/StudyPlanner.tsx:40-75 | 14 or 7 sessions over the seven days, all open and without notes |
| StudyPlanner.DayPlanMembers | src/components/StudyPlanner.tsx:50-71 | a day's sessions are open, without notes, on that day, with its morning or evening id |
| StudyPlanner.SeededMember | src/components/StudyPlanner.tsx:44-72 | every seeded session is open, without notes, within the seven days, with a morning or evening id of its date |
| StudyPlanner.SeededPlan | src/components/StudyPlanner.tsx:44-72 | the day plans of n days in order (its contract is in SeededPlanShape, SeededMember, SeededPlanSlots and SeededIdsDistinct) |
| StudyPlanner.SeededPlanSlots | src/components/StudyPlanner.tsx:49-72 | each day has its evening session, and its morning session iff hours >= 2 |
| StudyPlanner.MorningAbsentOutside | src/components/StudyPlanner.tsx:49-59 | no morning session is seeded with fewer than 2 hours or outside the seven days |
| StudyPlanner.SeededIdsDistinct | src/components/StudyPlanner.tsx:52-64 | seeded ids are pairwise distinct |
| StudyPlanner.WeeklyPlan | src/components/StudyPlanner.tsx:40-75 | the seven-iteration loop builds exactly the seeded plan |
| StudyPlanner.Updated | src/components/StudyPlanner.tsx:86-89 | sessions with the id are replaced; the length is preserved |
| StudyPlanner.Deleted | src/components/StudyPlanner.tsx:91-93 | exactly the sessions with the id disappear, and the list never grows |
| StudyPlanner.DeleteRemovesOnlyId | src/components/StudyPlanner.tsx:91-93 | others survive and the id is gone |
| StudyPlanner.DeletedKeepsOrder | src/components/StudyPlanner.tsx:91-93 | deleting distributes over concatenation, so survivors keep their order; a list without the id is returned unchanged |
| StudyPlanner.Toggled | src/components/StudyPlanner.tsx:95-99 | completed flips only on the id; the length is preserved |
| StudyPlanner.ToggleTwice | src/components/StudyPlanner.tsx:95-99 | toggling twice restores the list |
| StudyPlanner.LexTotal | src/components/StudyPlanner.tsx:102 | the string order compares any two start times |
| StudyPlanner.LexTransitive | src/components/StudyPlanner.tsx:102 | the string order is transitive |
| StudyPlanner.InsertSorted | src/components/StudyPlanner.tsx:102 | inserting by start time keeps the list sorted |
| StudyPlanner.InsertBounded | src/components/StudyPlanner.tsx:102 | inserting a later session keeps a lower bound on all start times |
| StudyPlanner.InsertPermutes | src/components/StudyPlanner.tsx:102 | insertion adds exactly the one session |
| StudyPlanner.InsertStable | src/components/StudyPlanner.tsx:102 | among sessions with one start time, the inserted session lands in front of the ones already there, which keep their order |
| StudyPlanner.SortByStart | src/components/StudyPlanner.tsx:102 | the sort yields a sorted permutation |
| StudyPlanner.SortByStartStable | src/components/StudyPlanner.tsx:102 | the sort is stable, as Array.prototype.sort is: sessions with equal start times keep their input order |
| StudyPlanner.SessionsForDate | src/components/StudyPlanner.tsx:101-103 | exactly the sessions on the date, sorted by start time, as a permutation of the filtered list |
| StudyPlanner.SessionsForDateStable | src/components/StudyPlanner.tsx:101-103 | sessions of the day with equal start times appear in their stored order |
| StudyPlanner.ToggleTask | src/components/StudyPlanner.tsx:337-344 | a present task is removed, an absent one appended (the order of the rest: ToggleTaskKeepsOrder) |
| StudyPlanner.ToggleTaskKeepsOrder | src/components/StudyPlanner.tsx:337-344 | removing a present task works piecewise, so the other tasks keep their order; a part without the task is unchanged |
| StudyPlanner.ToggleTaskTwice | src/components/StudyPlanner.tsx:337-344 | adding then removing a task restores the list |
| StudyPlanner.Planner.constructor | src/components/StudyPlanner.tsx:25-33 | the saved sessions if any, else the seeded week |
| StudyPlanner.Planner.GenerateWeeklyPlan | src/components/StudyPlanner.tsx:40-75 | the sessions become the seeded week |
| StudyPlanner.Planner.AddSession | src/components/StudyPlanner.tsx:77-84 | the draft is appended with an id made from date, start and stamp |
| StudyPlanner.Planner.UpdateSession | src/components/StudyPlanner.tsx:86-89 | the sessions become Updated |
| StudyPlanner.Planner.DeleteSession | src/components/StudyPlanner.tsx:91-93 | the sessions become Deleted |
| StudyPlanner.Planner.ToggleSessionComplete | src/components/StudyPlanner.tsx:95-99 | the sessions become Toggled |
| Vocabulary.SeedWordsShape | src/components/VocabularyBuilder.tsx:30-146 | ten words, distinct ids, none learned or reviewed |
| Vocabulary.FilteredWords | src/components/VocabularyBuilder.tsx:161-175 | membership iff in the category (or 'all') and kept by the mode |
| Vocabulary.FilteredIsOneFilter | src/components/VocabularyBuilder.tsx:161-175 | the two filters amount to one order-preserving filter |
| Vocabulary.MarkedLearned | src/components/VocabularyBuilder.tsx:190-195 | only the current id becomes learned and stamped |
| Vocabulary.MarkedForReview | src/components/VocabularyBuilder.tsx:204-213 | only the current id gains one review and a stamp; learned unchanged |
| Vocabulary.ResetWords | src/components/VocabularyBuilder.tsx:219-224 | every word unlearned, unreviewed, unstamped |
| Vocabulary.LearnedLeavesLearnQueue | src/components/VocabularyBuilder.tsx:161-195 | a learned word leaves the learn view; other words stay in it |
| Vocabulary.ResetThenLearnAll | src/components/VocabularyBuilder.tsx:218-228 | after reset, learn mode over 'all' returns every word and review returns none |
| Vocabulary.Distinct | src/components/VocabularyBuilder.tsx:239 | Set keeps each value once, with the same members |
| Vocabulary.DistinctExtends | src/components/VocabularyBuilder.tsx:239 | Set iteration is in first-appearance order |
| Vocabulary.CategoriesShape | src/components/VocabularyBuilder.tsx:239 | 'all' followed by each category of the words exactly once |
| Vocabulary.Categories | src/components/VocabularyBuilder.tsx:239 | 'all' and then the distinct categories (its contract is in CategoriesShape) |
| Vocabulary.LearnedCount | src/components/VocabularyBuilder.tsx:241 | learnedCount <= totalWords, equal iff all learned |
| Vocabulary.Builder.constructor | src/components/VocabularyBuilder.tsx:148-154 | the saved words if any, else the seed; learn mode, 'all' |
| Vocabulary.Builder.StartStudySession | src/components/VocabularyBuilder.tsx:177-187 | the pick comes from the view; test mode counts a question only when the view is non-empty |
| Vocabulary.Builder.MarkAsLearned | src/components/VocabularyBuilder.tsx:189-201 | the words become MarkedLearned; test mode scores one; no-op without a current word |
| Vocabulary.Builder.MarkAsNeedReview | src/components/VocabularyBuilder.tsx:203-216 | the words become MarkedForReview; no-op without a current word |
| Vocabulary.Builder.ResetProgress | src/components/VocabularyBuilder.tsx:218-228 | words reset, score and questions zero, no current word |
| ProgressTracker.TotalProgress | src/components/ProgressTracker.tsx:16 | completed over target in percent; 0 with no tasks; no number when the target total is 0 |
| ProgressTracker.SectionProgress | src/components/ProgressTracker.tsx:36-49 | per-section sums and percentage; 0 when the section target is 0 |
| ProgressTracker.AllSectionProgress | src/components/ProgressTracker.tsx:37-48 | the four sections in order |
| ProgressTracker.SectionsPartitionTotals | src/components/ProgressTracker.tsx:36-49 | the section sums add up to the overall sums |
| ProgressTracker.WeeklyCurrent | src/components/ProgressTracker.tsx:19-24 | capped at 85/78/82/88, 0 before the week starts, the cap after it ends |
| ProgressTracker.WeeklyCurrentMonotone | src/components/ProgressTracker.tsx:19-24 | a bar never shrinks as days pass |
| ProgressTracker.LevelBase | src/components/ProgressTracker.tsx:29-30 | base 55/45/35 for advanced/intermediate/other |
| ProgressTracker.EstimatedScore | src/components/ProgressTracker.tsx:28-34 | defined iff progress is a number |
| ProgressTracker.EstimatedScoreBounds | src/components/ProgressTracker.tsx:28-34 | with progress in [0, 100] and day >= 0 the estimate is within base..base+40 |
| ProgressTracker.EstimatedScoreMonotone | src/components/ProgressTracker.tsx:28-34 | more progress or a later day never lowers the estimate |
| Dashboard.RemainingDays | src/components/Dashboard.tsx:14 | max(0, 31 − day), never negative |
| Dashboard.Milestone | src/components/Dashboard.tsx:158-168 | achieved iff day > 7w; current iff day lies in the week |
| Dashboard.PhaseMatchesMilestone | src/components/Dashboard.tsx:25-30 | within 28 days the phase banner shows the week whose milestone is current |
| Dashboard.WeekPhase | src/components/Dashboard.tsx:25-30 | the phase banner by day: up to 7, 14, 21, then polishing (its contract is in PhaseMatchesMilestone) |
| Dashboard.DailySchedule | src/components/Dashboard.tsx:34-43 | a prefix of the five items of length min(5, max(2, 2·hours)) |
| Dashboard.DailyScheduleGrows | src/components/Dashboard.tsx:42 | more hours extend the schedule; the first two items are always there |
| Dashboard.Percent | src/components/Dashboard.tsx:18 | r = k/n · 100 lies in [0, 100], r · n = 100 k, and r = 100 iff k = n |
| Dashboard.PercentOf | src/components/Dashboard.tsx:18 | k of n in percent: in [0, 100], times n is 100 k, 100 iff k = n |
| Dashboard.TodayProgress | src/components/Dashboard.tsx:18 | in [0, 100]; times the number of tasks it is 100 × the completed count |
| Dashboard.TodayProgressFull | src/components/Dashboard.tsx:16-18 | with tasks, today's progress is 100 iff every task meets its target |
| Dashboard.CompletedHighPriorityIsSubset | src/components/Dashboard.tsx:16-17 | completed high-priority tasks are exactly the high-priority tasks meeting target, and no more numerous |
| Dashboard.Streak | src/components/Dashboard.tsx:196 | min(day, 7) |
| Dashboard.DashboardEstimate | src/components/Dashboard.tsx:200 | 45 plus the rounded product, 45 with no tasks |
| Dashboard.DashboardEstimateAgrees | src/components/Dashboard.tsx:200 | the integer form equals 45 + round(todayProgress · 0.25 · day) |
| Dashboard.EstimateArithmetic | src/components/Dashboard.tsx:200 | the percentage times a quarter of the day, times the number of tasks, is 25 · met · day |
| ScoreCalculator.SetSkill | src/components/ScoreCalculator.tsx:65 | a slider changes only its own skill |
| ScoreCalculator.Overall | src/components/ScoreCalculator.tsx:16 | the mean of the four skills, rounded half up |
| ScoreCalculator.OverallWithinSkills | src/components/ScoreCalculator.tsx:16 | overall lies within any common bounds of the skills |
| ScoreCalculator.OverallInSliderRange | src/components/ScoreCalculator.tsx:61-62 | sliders in [10, 90] give an overall in [10, 90] |
| ScoreCalculator.Gap | src/components/ScoreCalculator.tsx:83 | max(0, target − overall): zero iff on target, else the missing points |
| ScoreCalculator.FirstMin | src/components/ScoreCalculator.tsx:26-35 | the head of a stable ascending sort: first among the minima |
| ScoreCalculator.FirstMinLeast | src/components/ScoreCalculator.tsx:27 | the head of the ascending sort is no larger than any weak area |
| ScoreCalculator.FirstMinEarliest | src/components/ScoreCalculator.tsx:27 | the sort is stable: among equal scores the earlier skill comes first |
| ScoreCalculator.WeakAreas | src/components/ScoreCalculator.tsx:25-27 | exactly the skills below target |
| ScoreCalculator.WeakAreasOrdered | src/components/ScoreCalculator.tsx:25-27 | the filter keeps record order |
| ScoreCalculator.WeakestSpec | src/components/ScoreCalculator.tsx:24-42 | "Excellent" iff no skill is below target; else a lowest skill below target, ties to the earlier skill |
| ScoreCalculator.Weakest | src/components/ScoreCalculator.tsx:24-42 | the first recommendation: the head of the sorted weak areas, or none (its contract is in WeakestSpec) |
| StudyTimer.Initial | src/components/StudyTimer.tsx:10-12 | target minutes × 60, stopped, not completed |
| StudyTimer.Step | src/components/StudyTimer.tsx:14-30 | a tick acts only when running with time left; at 1 it stops, completes and fires |
| StudyTimer.RunCompletes | src/components/StudyTimer.tsx:14-30 | a running timer with t seconds completes after t ticks, firing exactly once |
| StudyTimer.StoppedStaysPut | src/components/StudyTimer.tsx:16 | a paused or empty timer never changes or fires |
| StudyTimer.RunNonNegative | src/components/StudyTimer.tsx:19-25 | the countdown never goes below 0 or up |
| StudyTimer.FormatTimeFields | src/components/StudyTimer.tsx:32-36 | MM:SS reads back: minutes · 60 + seconds = s, seconds below 60 |
| StudyTimer.FormatTime | src/components/StudyTimer.tsx:32-36 | the MM:SS clock (its contract is in FormatTimeFields) |
| StudyTimer.Timer.constructor | src/components/StudyTimer.tsx:10-12 | the Initial state |
| StudyTimer.Timer.Tick | src/components/StudyTimer.tsx:14-30 | the new state and the callback are Step of the old state |
| StudyTimer.Timer.ToggleTimer | src/components/StudyTimer.tsx:38-40 | running flips, nothing else; offered only before completion, as the button is disabled then (line 102) |
| StudyTimer.Timer.ResetTimer | src/components/StudyTimer.tsx:42-46 | back to Initial |
| Notifications.NearlyDoneIsRate | src/components/NotificationSystem.tsx:54-58 | the integer test equals 80 <= rate < 100 on the exact rate |
| Notifications.RateAtLeast | src/components/NotificationSystem.tsx:54-58 | the exact rate reaches m percent iff m · total <= 100 · done |
| Notifications.GatherMembers | src/components/NotificationSystem.tsx:32-99 | a notification is raised iff its kind is checked and triggered, and it is then the fresh one of that kind |
| Notifications.GatherDistinct | src/components/NotificationSystem.tsx:32-99 | distinct kinds raise notifications with distinct ids |
| Notifications.PushOrderUnfolds | src/components/NotificationSystem.tsx:32-99 | the raised list is the four checks in the order they push |
| Notifications.NewNotifications | src/components/NotificationSystem.tsx:32-99 | each kind is present iff its condition holds (morning at 8:00, progress rate in [80,100), day mod 7 = 0, day 15/22/27), unread, stamped, distinct ids, at most 4 |
| Notifications.Triggers | src/components/NotificationSystem.tsx:38-85 | each kind's condition (its contract is in GatherMembers and NewNotifications) |
| Notifications.Kept | src/components/NotificationSystem.tsx:102-104 | exactly the earlier entries whose id is not among the new ones (their order: KeptKeepsOrder) |
| Notifications.KeptKeepsOrder | src/components/NotificationSystem.tsx:102-104 | keeping works piecewise, so the kept entries stay in their earlier order; a list with no new id is kept whole |
| Notifications.Merge | src/components/NotificationSystem.tsx:101-106 | the new entries first, then a prefix of the kept earlier entries; length min(10, new + kept); only the first 10 new entries when there are more |
| Notifications.MergeIdsDistinct | src/components/NotificationSystem.tsx:101-106 | the merge never duplicates an id |
| Notifications.FilterKeepsDistinct | src/components/NotificationSystem.tsx:103-105 | filtering a list with distinct ids keeps them distinct |
| Notifications.MarkedRead | src/components/NotificationSystem.tsx:109-113 | read is set only on the id; the length is preserved |
| Notifications.MarkedReadIdempotent | src/components/NotificationSystem.tsx:109-113 | marking twice equals marking once |
| Notifications.Removed | src/components/NotificationSystem.tsx:115-117 | exactly the entries with the id go (the order of the rest: RemovedKeepsOrder) |
| Notifications.RemovedKeepsOrder | src/components/NotificationSystem.tsx:115-117 | removal works piecewise, so the remaining entries keep their order; a list without the id is unchanged |
| Notifications.UnreadCount | src/components/NotificationSystem.tsx:119 | at most the length, 0 iff all read |
| Notifications.MarkedReadUnread | src/components/NotificationSystem.tsx:109-119 | marking read lowers the unread count by the unread entries with the id |
| Notifications.Centre.constructor | src/components/NotificationSystem.tsx:23-24 | no notifications, panel closed |
| Notifications.Centre.GenerateNotifications | src/components/NotificationSystem.tsx:32-107 | the list becomes the merge of the triggered notifications |
| Notifications.Centre.MarkAsRead | src/components/NotificationSystem.tsx:109-113 | the list becomes MarkedRead |
| Notifications.Centre.RemoveNotification | src/components/NotificationSystem.tsx:115-117 | the list becomes Removed |
| Onboarding.PreviousStep | src/components/OnboardingSection.tsx:189 | max(1, step − 1): stays in 1..3, a no-op at step 1 |
| Onboarding.WalkStaysInRange | src/components/OnboardingSection.tsx:189-207 | any click sequence keeps the step in 1..3 |
| Onboarding.Walk | src/components/OnboardingSection.tsx:189-207 | a click sequence on the wizard (its contract is in WalkStaysInRange) |
| Onboarding.Wizard.constructor | src/components/OnboardingSection.tsx:10-15 | step 1 with defaults 65, 2 hours, intermediate |
| Onboarding.Wizard.PreviousClicked | src/components/OnboardingSection.tsx:189 | the step becomes PreviousStep; choices unchanged |
| Onboarding.Wizard.ContinueClicked | src/components/OnboardingSection.tsx:200-202 | below step 3 the step advances by one; choices unchanged |
| Onboarding.Wizard.SelectTargetScore | src/components/OnboardingSection.tsx:107 | only the target score changes |
| Onboarding.Wizard.SelectDailyHours | src/components/OnboardingSection.tsx:140 | only the daily hours change |
| Onboarding.Wizard.SelectLevel | src/components/OnboardingSection.tsx:171 | only the level changes |
| Onboarding.Wizard.HandleComplete | src/components/OnboardingSection.tsx:17-24 | the chosen fields, startDate = now, completed = false |

## Left out

- Rendering: JSX, styling, icons, progress-bar widths and sample prompt texts. This includes the bar of a zero-preparation practice task, which divides by zero.
- QuickReference.tsx is not part of this model. It is static templates and clipboard I/O.
- Task descriptive text: the descriptions, tips and templates of each catalogue task are display text. So are vocabulary definitions and examples, and notification titles and messages.
- Local-storage persistence and JSON parsing. A saved value is an `Option` parameter of the constructors.
- Speech synthesis and simulated audio playback. These are foreign calls.
- Timer scheduling. Intervals and timeouts are explicit `Tick` calls. The delayed callbacks (`onComplete` after a practice score, the next word after a vocabulary mark) are separate calls the caller may make.
- React stale closures. The vocabulary timeout would redraw from the list as it was before the mark. Two members below use the current state where the code reads an older render.
- MockTestInterface.Interface.Tick: on timeout the code calls the completion handler of the first render, whose clock is 3600 and whose response log is empty, so it reports duration 0 and 0 completed tasks. The model reports the current clock and the number of logged responses.
- PracticeSession.Session.Tick: the countdown effect re-runs only when the clock or the phase changes, so the automatic completion at the last recording second scores the response as it stood at the previous tick. The model scores the current response; the two differ only when the text is edited during the last second.
- Wall-clock and date APIs. "Now", the current day, hours and minutes are parameters. Dates are day indices. A profile's start date is a millisecond number rather than an ISO string.
- IEEE floating point. Multipliers and ratios are exact. `PracticeSession.CalculateScore`, `ProgressTracker.EstimatedScore` and `Dashboard.DashboardEstimate` may therefore differ from the floating-point result on inputs where the float product falls just below a .5 boundary.
- String comparison. `localeCompare` is modelled as code-point lexicographic order (`StudyPlanner.LexLeq`). That agrees on "HH:MM" times.
- PracticeSession.Quality: a typed response's length is its number of Unicode characters, while `userResponse.length` counts UTF-16 code units. A response with characters outside the Basic Multilingual Plane (emoji) is longer in the source, so its quality and `PracticeSession.CalculateScore` can be higher there.
- `String.prototype.trim` is modelled as the whitespace test of the ECMAScript standard, section 22.1.3.32, on single characters.
- The mock-test interface's progress bar and section scores state are display only.
- Vocabulary.Builder.StartStudySession: the random pick is an index parameter within the view. The model does not say the pick is uniform.
- MockTestInterface.Interface.NextTask: the method requires that the test has not finished. The parent unmounts the interface once it reports, so no further clicks reach it.
