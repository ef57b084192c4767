# A verified model of the sunsama-clone day planner

The project models the logic of a personal day planner. Users create tasks, plan them onto calendar days, give them `HH:MM` start times and minute estimates, drag them onto a daily timeline, and time their work with a 25-minute Pomodoro timer. It covers:

- **Server task routes.** An in-memory store maps task ids to task records. It handles list, create, toggle, delete, plan and update, each with its not-found answer and its exact field effects.
- **Daily timeline.** This covers reading start times, half-open overlap of scheduled tasks, the conflict flag, the hour span and the block geometry: top offset, height floors and the compact threshold.
- **Three Pomodoro timers.** These are the shared timer store, the timer dialog's own state, and the Today page's session record with the minutes it credits to a task.
- **Day and week bucketing.** This covers today's list and its unscheduled column, the week's day columns and unplanned list, the Monday-start week window and its heading, and week navigation.
- **Small view rules.** These are the daily summary totals and their texts, the week card's duration text and chips, and the task row's plan button. They also include the create and edit forms' payloads, the timeline settings (store and dialog), the current-time line, and the keyboard-shortcut test.

One Dafny module models each source file. Pure computations are functions with lemmas. Components and stores whose state changes step by step are classes whose methods state their whole new state. Shared modules define the task record and request payloads (`TaskTypes`), JavaScript integer division (`JsMath`), text helpers (`Strings`), a generic filter (`Seqs`) and the reading-back of duration texts (`Durations`). `Flows` joins the two sides: a client request on one, the route that carries it out on the other.

Modelling choices:
- **Dates are texts.** A task's calendar day is its date text up to the first `T`. The week's days are day numbers counted from 1970-01-01, and weekday 0 is Sunday.
- **Truthiness.** A JavaScript truthiness test on an optional field is `HasText` for text fields (present and non-empty) and `HasAmount` for numbers (present and non-zero).
- **Start times.** A start time is read as `split(':')` with `Number` on the first two pieces. A text without a colon has no minute piece and reads as `NaN`, so that task overlaps nothing. An empty piece reads as 0, as `Number("")` does. The block layout reads the pieces with `parseInt`, which gives `NaN` for an empty piece, so it requires two non-empty digit groups.
- **Update bodies.** A member of an update body is left out, sent as `null`, or sent with a value. A member left out is assumed to leave the stored value unchanged; that is the database client's convention, and the client is not part of this model.

Behaviour of the code worth knowing before reading the contracts:
- The update route reads only five members of the body and always rewrites the due date (see Findings).
- The timer store's `tick` never looks at the active task or the running flag.
- `ScheduledTask` measures block offsets from a hard-coded 08:00, and the current-time line uses a fixed 08:00–18:00 window; neither follows the timeline settings.
- Under the half-open comparison a 2-minute task from 09:29 overlaps one from 09:30 (`Timeline.BoundaryAtHalfPast`).
- The Today page never starts a timer: nothing calls `handleStartTimer` (see Left out).

## Model

| member | source | states |
|---|---|---|
| Timeline.ReadClock | client/src/components/Timeline.tsx:13-14 | Two digit groups joined by a colon read as that hour and that minute, an empty group as 0; both groups are non-empty iff the layout can read them |
| Timeline.ClockTextRoundTrip | client/src/components/Timeline.tsx:13-14 | Every zero-padded `HH:MM` text reads back as its own hour and minute |
| Timeline.EmptyMinuteReadsAsZero | client/src/components/Timeline.tsx:13-14 | Digits and a colon with nothing after it start at the top of that hour, as `Number("")` is 0 |
| Timeline.EmptyHourReadsAsZero | client/src/components/Timeline.tsx:13-14 | A colon followed by digits starts at that minute after midnight |
| Timeline.OverlapSymmetric | client/src/components/Timeline.tsx:8-23 | Overlap does not depend on argument order, for all tasks |
| Timeline.OverlapIsSharedMinute | client/src/components/Timeline.tsx:13-22 | For positive estimates, two tasks overlap iff some minute lies in both half-open intervals `[start, start+estimate)` |
| Timeline.BackToBackDoNotOverlap | client/src/components/Timeline.tsx:13-22 | A task ending exactly when another starts overlaps it in neither order |
| Timeline.BoundaryAtHalfPast | client/src/components/Timeline.tsx:13-22 | 09:00 for 30 minutes does not overlap 09:30; 09:29 for 2 minutes does |
| Timeline.UnplacedOverlapsNothing | client/src/components/Timeline.tsx:9-11 | A task without a start time, or with a missing or zero estimate, overlaps nothing in either order |
| Timeline.FlagIffConflict | client/src/components/Timeline.tsx:26-28 | A task is flagged iff some listed task with a different id overlaps it; a task is never among its own overlaps |
| Timeline.ConflictIsMutual | client/src/components/Timeline.tsx:26-28 | When one of two listed tasks overlaps the other, each is in the other's overlap list and both are flagged |
| Timeline.OverlayFlagsConflicts | client/src/components/Timeline.tsx:163-192 | The overlay has one placement per start-timed task; a placement is flagged iff another start-timed task overlaps it, and it has no block iff its estimate is missing or 0 |
| Timeline.TaskSpan | client/src/components/Timeline.tsx:37-54 | None iff the start time or the estimate is missing or falsy; otherwise the parsed start, the estimate, and the least hour count covering start minute plus estimate |
| Timeline.TopTracksMinutesSinceEight | client/src/components/Timeline.tsx:65-69 | The top offset is (start minute of day − 480) × 64/60 pixels: negative before 08:00, 0 at 08:00 |
| Timeline.HeightFloors | client/src/components/Timeline.tsx:73-74 | The height is at least the proportional height and at least 28; above 15 minutes at least 40; exactly 28 up to 15 minutes; exactly proportional from 38 minutes |
| Timeline.TinyIffAtMost42 | client/src/components/Timeline.tsx:73-81 | A block is compact (height < 45) iff its estimate is at most 42 minutes |
| Timeline.RowsAreTheWindowHours | client/src/components/Timeline.tsx:162-164 | Row i of the 640-pixel timeline is hour i+8: its drop label starts a task at minute 480+60i, and a block starting at that hour is drawn 64i pixels down |
| Timeline.SlotLabelIsHourStart | client/src/components/Timeline.tsx:129-133 | A row's drop label `HH:00` reads back as the top of that hour, minute `hour*60` of the day |
| Timeline.FormatHourRoundTrip | client/src/components/Timeline.tsx:136-140 | Each hour 0..23 has its own label: reading `h AM`/`h PM` back gives the hour (0 is "12 AM", 12 is "12 PM") |
| TimerStore.Store.constructor | client/src/store/timerStore.ts:24-29 | No task, 1500 seconds, stopped, no completion, 0 minutes, no interval |
| TimerStore.Store.SetActiveTask | client/src/store/timerStore.ts:31-42 | A first or different task gets a fresh stopped session with 0 minutes and the flag cleared; the same task changes nothing |
| TimerStore.Store.StartTimer | client/src/store/timerStore.ts:43-57 | A first or different task starts a fresh running session; the same task only sets running, keeping the countdown and minutes |
| TimerStore.Store.PauseTimer | client/src/store/timerStore.ts:59-61 | Only the running flag changes, to false |
| TimerStore.Store.ResumeTimer | client/src/store/timerStore.ts:63-65 | Only the running flag changes, to true |
| TimerStore.Store.ResetCurrentSession | client/src/store/timerStore.ts:67-72 | Countdown 1500 and stopped; task, minutes and completion flag untouched |
| TimerStore.Store.StopAndClear | client/src/store/timerStore.ts:74-83 | Every field back to its initial value |
| TimerStore.Store.Tick | client/src/store/timerStore.ts:85-98 | The new state is one tick of the old, and the countdown stays within 0..1500 |
| TimerStore.Store.AcknowledgeCompletion | client/src/store/timerStore.ts:100-105 | Clears the flag and restores 1500; running flag, task and minutes untouched |
| TimerStore.Store.SetIntervalId | client/src/store/timerStore.ts:107-109 | Only the interval id changes |
| TimerStore.TickKeepsRange | client/src/store/timerStore.ts:85-98 | A tick keeps the countdown in 0..1500, never raises it, and adds 25 minutes exactly when the countdown was 1 |
| TimerStore.TicksAdd | client/src/store/timerStore.ts:85-98 | a+b ticks are a ticks followed by b ticks |
| TimerStore.Countdown | client/src/store/timerStore.ts:88-89 | Before the countdown reaches 1, n ticks take exactly n seconds off and change nothing else |
| TimerStore.StoppedIsFixed | client/src/store/timerStore.ts:85-98 | At 0 (or below) ticks change nothing, whatever the running flag |
| TimerStore.CompletesOnce | client/src/store/timerStore.ts:85-98 | From any positive countdown, exactly that many ticks complete the session with one 25-minute credit, and further ticks change nothing |
| TimerStore.FullSession | client/src/store/timerStore.ts:85-98 | From 1500, 1500 or more ticks end at 0, stopped and completed, credited 25 minutes exactly once; fewer ticks credit nothing |
| PomodoroTimer.Timer.constructor | client/src/components/PomodoroTimer.tsx:19-27 | The state starts from the props, defaulting to 1500, not running, 0 |
| PomodoroTimer.Timer.Start | client/src/components/PomodoroTimer.tsx:56-61 | Running, countdown and total unchanged, `(timeLeft, true, total)` reported when the callback is given, and the main button reads "Pause" |
| PomodoroTimer.Timer.Pause | client/src/components/PomodoroTimer.tsx:62-69 | Stopped; total grows by 1500 − timeLeft; countdown not reset; the new total is reported; the main button reads "Resume" once the countdown has moved ("Start" otherwise) and Stop shows when its callback is given |
| PomodoroTimer.Timer.Reset | client/src/components/PomodoroTimer.tsx:71-78 | 1500, stopped, 0, and exactly that reported; the main button reads "Start" and Stop is hidden |
| PomodoroTimer.Timer.Tick | client/src/components/PomodoroTimer.tsx:30-42 | While running: above 1 the countdown drops by one; at 1 it goes to 0, stops, and reports completion with ceil((1500 − 1 + total)/60) minutes |
| PomodoroTimer.FormatTimeRoundTrip | client/src/components/PomodoroTimer.tsx:80-84 | For seconds ≥ 0 the text reads back as mins and secs with mins·60 + secs = seconds and secs < 60; five characters below 6000 seconds |
| PomodoroTimer.ProgressBounds | client/src/components/PomodoroTimer.tsx:86 | Within a session the bar lies in 0..100; it is 0 iff untouched and 100 iff done, and it grows as time runs down |
| PomodoroTimer.StopShownOnceStarted | client/src/components/PomodoroTimer.tsx:145 | Stop & Save shows iff the callback is given and progress is above 0, and then the main button says "Resume" |
| Today.IsTodayComparesCalendarDay | client/src/pages/Today.tsx:60-69 | A missing or empty date is never today; a date with a time of day is today iff its calendar-day text equals today's |
| Today.TodayTasksKeepsOrder | client/src/pages/Today.tsx:202 | Today's list of a concatenation is today's list of each part in order |
| Today.ColumnsPartitionToday | client/src/pages/Today.tsx:243-256 | Today's list is exactly the listed tasks planned today; each is in exactly one of the unscheduled column and the timeline; the counts add up; "All tasks scheduled" iff every task has a start time |
| Today.FindTask | client/src/pages/Today.tsx:176 | None iff no task has the id; otherwise the first task with that id |
| Today.CreditAddsToFirstMatch | client/src/pages/Today.tsx:176 | The credit adds to the first listed match's recorded time; a task with none starts from 0 |
| Today.StopCreditsSpentMinutes | client/src/pages/Today.tsx:186-197 | Stopping asks for a credit iff there is a session with spent seconds > 0; the credit is the least whole minutes covering them, at least 1 |
| Today.RunningCountdown | client/src/pages/Today.tsx:35-49 | Before its last second a running session loses exactly one second a tick and nothing else changes |
| Today.SessionCreditsOnItsLastSecond | client/src/pages/Today.tsx:35-49 | A running session asks for a credit on exactly one tick, its last second, with the tick credit ceil((1500 + total)/60); it then ends, and later ticks leave no session |
| Today.EndedStaysEnded | client/src/pages/Today.tsx:36 | Once the session has ended, further ticks leave none |
| Today.FreshSessionCreditsTwentyFive | client/src/pages/Today.tsx:38-43 | A fresh unpaused running session asks for a credit on its 1500th tick only, of exactly 25 minutes |
| Today.DropSetsStartTime | client/src/pages/Today.tsx:133-141 | A drop on an hour row sends only startTime = `HH:00`, the top of that hour; a drop on the unscheduled zone sends only startTime = null |
| Today.Page.constructor | client/src/pages/Today.tsx:14-20 | No session, modal hidden |
| Today.Page.StartTimer | client/src/pages/Today.tsx:147-160 | The same task keeps its session; a different task gets 1500, stopped, 0; the modal shows |
| Today.Page.TimerUpdate | client/src/pages/Today.tsx:162-171 | With a session: countdown, running flag and total replaced, task kept; without a session nothing changes |
| Today.Page.TimerComplete | client/src/pages/Today.tsx:173-180 | Sends the credit request; the session ends and the modal closes |
| Today.Page.CloseTimerModal | client/src/pages/Today.tsx:182-184 | Hides the modal and keeps the session |
| Today.Page.StopTimer | client/src/pages/Today.tsx:186-200 | Sends the stop credit (when there is one); the session always ends and the modal closes |
| Today.Page.Tick | client/src/pages/Today.tsx:32-57 | The new session, the modal flag and the request are those of one interval step: only a running session with time left ticks, and its last second ends it with the tick credit |
| TaskRoutes.ToggleIsInvolution | server/src/routes/tasks.ts:56-59 | Toggling flips only the completion flag, and toggling twice restores the task |
| TaskRoutes.PlanWritesOnlyPlannedDate | server/src/routes/tasks.ts:91-94 | Planning writes the planned date (null when the sent one is falsy) and nothing else; planning twice is planning once |
| TaskRoutes.UpdateIgnoresUnreadFields | server/src/routes/tasks.ts:106-121 | Update never changes the planned date, the recorded time, the completion flag, id, creation stamp or owner |
| TaskRoutes.UpdateRewritesDueDate | server/src/routes/tasks.ts:118 | Update sets the due date to the sent non-empty one and clears it otherwise |
| TaskRoutes.StartTimeOnlyUpdate | server/src/routes/tasks.ts:113-121 | A start-time-only body sets the start time and clears the due date, all else untouched |
| TaskRoutes.UpdateDropsPlannedDateAndActualTime | server/src/routes/tasks.ts:106-121 | A body sending only plannedDate and actualTime stores neither but clears the due date, where the intended update stores both and keeps it |
| TaskRoutes.IntendedUpdateWritesSentFields | server/src/routes/tasks.ts:103-127 | The intended update leaves a task alone for an empty body, writes a sent planned date or recorded time, keeps an unsent due date, and agrees with the route on bodies that send a due date and neither of the other two |
| TaskRoutes.CreateIgnoresPlanning | server/src/routes/tasks.ts:27-38 | A created task has no planned date, start time or recorded time, is not completed, belongs to the fixed user, has a due date iff a non-empty one was sent, and ignores the body's plan fields |
| TaskRoutes.InsertPos | server/src/routes/tasks.ts:15 | The place in a newest-first list after every newer task and before every task that is not newer |
| TaskRoutes.InsertNewest | server/src/routes/tasks.ts:15 | Inserting at that place gives a newest-first list one longer, the old tasks in order around the new one |
| TaskRoutes.InsertMembers | server/src/routes/tasks.ts:13-16 | The newest-first insertion holds exactly the old tasks and the new one |
| TaskRoutes.InsertKeepsDistinct | server/src/routes/tasks.ts:13-16 | Inserting a task with a new id keeps ids distinct and adds just that task |
| TaskRoutes.TaskStore.constructor | server/src/routes/tasks.ts:8-22 | The store starts empty |
| TaskRoutes.TaskStore.List | server/src/routes/tasks.ts:8-22 | Exactly the fixed user's stored tasks, each once, newest first |
| TaskRoutes.TaskStore.Create | server/src/routes/tasks.ts:25-44 | A body without a title: 500 and no change; otherwise the new task stored under its fresh id and answered with 201 |
| TaskRoutes.TaskStore.Toggle | server/src/routes/tasks.ts:47-65 | Unknown id: 404, no change; otherwise that task toggled and answered with 200 |
| TaskRoutes.TaskStore.Delete | server/src/routes/tasks.ts:68-78 | Known id: removed, 204, every other task unchanged; unknown id: 500, no change |
| TaskRoutes.TaskStore.Plan | server/src/routes/tasks.ts:81-100 | Unknown id: 404, no change; otherwise that task planned and answered with 200 (any non-empty date text taken as readable, see Left out) |
| TaskRoutes.TaskStore.Update | server/src/routes/tasks.ts:103-127 | Unknown id: 404; a null title: 500 (required column); otherwise the task updated as written and answered with 200 (any non-empty due date taken as readable, see Left out) |
| Week.DayBucketSpec | client/src/pages/Week.tsx:49-56 | A day's bucket holds exactly the tasks whose planned date's calendar-day text is that day, in list order |
| Week.BucketsAreDisjoint | client/src/pages/Week.tsx:49-56 | Buckets of different day texts share no task |
| Week.UnplannedIffInNoBucket | client/src/pages/Week.tsx:52-58 | A task is unplanned iff it is in no bucket; otherwise it is in the bucket of its calendar day |
| Week.AtMostOneColumn | client/src/pages/Week.tsx:162-163 | With day texts that tell days apart, a task shows in at most one of the seven columns |
| Week.TodayHighlightedOnce | client/src/pages/Week.tsx:44-47 | Some column is highlighted iff the week shown is today's week, and then exactly the one at today's place from Monday |
| Week.Page.constructor | client/src/pages/Week.tsx:9-10 | Today's week, nothing dragged |
| Week.Page.Previous | client/src/pages/Week.tsx:104-113 | The date moves back 7 days, and so does its week's Monday |
| Week.Page.Next | client/src/pages/Week.tsx:120-129 | The date moves on 7 days, and so does its week's Monday |
| Week.Page.GoToday | client/src/pages/Week.tsx:115 | The date becomes today |
| Week.Page.KeyPress | client/src/pages/Week.tsx:13-28 | The default is prevented iff the key is ArrowLeft or ArrowRight outside a text field; ArrowLeft turns to the previous week and ArrowRight to the next (date and Monday move 7 days); any other key changes nothing |
| Week.Page.DragStart | client/src/pages/Week.tsx:60-62 | Records the dragged task |
| Week.Page.Drop | client/src/pages/Week.tsx:68-79 | Nothing without a dragged task; otherwise an update of that task sending only the planned date, and the drag ends |
| DateUtils.Weekday | client/src/utils/dateUtils.ts:6 | A weekday between 0 (Sunday) and 6 |
| DateUtils.MondayOffset | client/src/utils/dateUtils.ts:6-8 | The step back lies in −6..0 and lands on a Monday |
| DateUtils.WeekStartIsMondayBefore | client/src/utils/dateUtils.ts:6-8 | The week starts on a Monday at most six days before the date, so the date lies in its week |
| DateUtils.SameWeekSameDates | client/src/utils/dateUtils.ts:6-14 | Two dates of the same Monday–Sunday week give the same list |
| DateUtils.WeekStartShift | client/src/utils/dateUtils.ts:6-8 | Seven days later or earlier, the week's Monday moves seven days too |
| DateUtils.GetWeekDates | client/src/utils/dateUtils.ts:1-15 | Seven consecutive days from the Monday of the date's week, holding the date |
| DateUtils.WeekRangeRoundTrip | client/src/utils/dateUtils.ts:17-29 | The heading shows only the first and the seventh date: it reads back as their months and days |
| DateUtils.SameMonthHeading | client/src/utils/dateUtils.ts:24-25 | "Mon a-b" reads back as one month with days a and b |
| DateUtils.TwoMonthsHeading | client/src/utils/dateUtils.ts:28 | "Mon a - Mon2 b" reads back as two months with their days |
| DailyTimeSummary.SumSplits | client/src/components/DailyTimeSummary.tsx:8-14 | Splitting the tasks by a predicate and its negation splits the estimate sum |
| DailyTimeSummary.SumNonNegative | client/src/components/DailyTimeSummary.tsx:8 | Without negative estimates the sum is not negative |
| DailyTimeSummary.ScheduledPlusUnscheduled | client/src/components/DailyTimeSummary.tsx:10-14 | Scheduled plus unscheduled minutes is the total, and the two lists partition the tasks |
| DailyTimeSummary.EstimateCounts | client/src/components/DailyTimeSummary.tsx:25-26 | The remainder count is exactly the tasks with a missing or zero estimate |
| DailyTimeSummary.SplitIsHoursAndMinutes | client/src/components/DailyTimeSummary.tsx:16-23 | For minutes ≥ 0, h·60 + m = minutes with 0 ≤ m < 60 |
| DailyTimeSummary.FormatTimeRoundTrip | client/src/components/DailyTimeSummary.tsx:28-32 | "Hh Mm", "Hh" and "Mm" each read back as hrs·60 + mins |
| DailyTimeSummary.DisplaysAgree | client/src/components/DailyTimeSummary.tsx:43-59 | The total line's guard and the part lines' guard agree for every integer |
| DailyTimeSummary.DisplayRoundTrip | client/src/components/DailyTimeSummary.tsx:43-59 | Each shown line reads back as its minutes, 0 as "0m" |
| DailyTimeSummary.SummaryIsConsistent | client/src/components/DailyTimeSummary.tsx:8-67 | The scheduled and unscheduled lines read back to minutes adding up to the total line; the two counts add up to the task count |
| WeekTaskCard.CardTextRoundTrip | client/src/components/WeekTaskCard.tsx:13 | The text of a non-negative hours/minutes split reads back as hours·60 + minutes |
| WeekTaskCard.FormatTimeRoundTrip | client/src/components/WeekTaskCard.tsx:10-14 | The duration text of a non-negative estimate reads back as the estimate |
| WeekTaskCard.HoursShownFromAnHour | client/src/components/WeekTaskCard.tsx:13 | Hours appear iff the estimate is at least 60; 120 minutes read "2h 0m" |
| WeekTaskCard.AgreesWithSummary | client/src/components/WeekTaskCard.tsx:10-14 | The card's text and the summary's text of the same minutes read back equal |
| WeekTaskCard.ChipsShowTheTask | client/src/components/WeekTaskCard.tsx:39-46 | The start time is shown verbatim iff non-empty; the estimate chip iff the estimate is non-zero, and it reads back as a positive estimate |
| TaskItem.PastMeansAnotherDay | client/src/components/TaskItem.tsx:12 | "Planned for past" iff planned for a day that is not today (future days included) |
| TaskItem.PlanButtonIffNotPlannedToday | client/src/components/TaskItem.tsx:48 | The button shows iff the callback is given and the task is not planned today; never for a task planned today |
| TaskItem.PlanButtonLabels | client/src/components/TaskItem.tsx:53 | A shown button says "Reschedule for Today" for a planned task and "Plan for Today" for an unplanned one |
| CurrentTimeIndicator.PositionIsShareOfWindow | client/src/components/CurrentTimeIndicator.tsx:25-28 | The position is the minutes since 08:00 over 600, in percent |
| CurrentTimeIndicator.ShownLineInWindow | client/src/components/CurrentTimeIndicator.tsx:19-28 | A shown line (minutes 0..59) lies in [0, 100) |
| CurrentTimeIndicator.LevelWithTimelineBlocks | client/src/components/CurrentTimeIndicator.tsx:25-28 | The percentage equals a block's top offset at the same time over the 640-pixel timeline |
| KeyboardShortcut.QuietInTextFields | client/src/hooks/useKeyboardShortcut.ts:14-21 | Nothing fires in an input, a text area or editable content |
| KeyboardShortcut.KeyIgnoresCase | client/src/hooks/useKeyboardShortcut.ts:23 | Lower-casing the shortcut key or the event key does not change whether it fires |
| KeyboardShortcut.ShiftedLetterMatches | client/src/hooks/useKeyboardShortcut.ts:23 | "K" matches a "k" shortcut and "k" a "K" one |
| KeyboardShortcut.ModifiersMatchOptions | client/src/hooks/useKeyboardShortcut.ts:24-31 | When it fires, Ctrl-or-Meta is held iff the ctrl option is on, and Shift and Alt iff theirs are; Meta stands in for Ctrl; without options no modifier may be held |
| SettingsStore.Settings.constructor | client/src/store/settingsStore.ts:14-15 | Start hour 8, end hour 18 |
| SettingsStore.Settings.SetStartHour | client/src/store/settingsStore.ts:16 | Any start hour is stored; the end hour is untouched |
| SettingsStore.Settings.SetEndHour | client/src/store/settingsStore.ts:17 | Any end hour is stored; the start hour is untouched |
| SettingsModal.OptionRanges | client/src/components/SettingsModal.tsx:13-14 | Start options are exactly 6..12 and end options exactly 15..22, in order |
| SettingsModal.SelectableSpans | client/src/components/SettingsModal.tsx:13-14 | Any selectable pair has start < end and a span of 3..16 hours |
| SettingsModal.HourLabelAgreesWithTimeline | client/src/components/SettingsModal.tsx:33 | From hour 1 on the dialog's label is the timeline's; at 0 they differ ("0 AM" against "12 AM") |
| SettingsModal.OptionLabelsReadBack | client/src/components/SettingsModal.tsx:31-35 | Each offered hour's label reads back as that hour |
| SettingsModal.SummaryOfSelectableSettings | client/src/components/SettingsModal.tsx:62-72 | For selectable settings the line shows 3..16 hours between two different labels |
| SettingsModal.SelectingAnOptionSetsIt | client/src/components/SettingsModal.tsx:28 | Choosing an option calls the matching setter with that hour (start list and end list alike) |
| CreateTaskForm.PayloadSpec | client/src/components/CreateTaskForm.tsx:18-25 | Nothing is sent iff the title is all white space; a sent payload has the trimmed non-empty title, a trimmed description or none, the due date unless empty, the estimate unless missing or 0, no plan or start time |
| CreateTaskForm.UnicodeBlankTitleIsRefused | client/src/components/CreateTaskForm.tsx:18 | A title of no-break, line-separator and ideographic spaces is blank, so nothing is sent |
| CreateTaskForm.EnabledIffSomethingToSend | client/src/components/CreateTaskForm.tsx:98 | While not loading the button is enabled iff a submit would send; while loading it is disabled |
| CreateTaskForm.EstimateValidIffMultipleOfFive | client/src/components/CreateTaskForm.tsx:90-91 | `min="5" step="5"` lets a shown estimate through iff it is a positive multiple of 5: 0, 3 and 7 are refused, an empty input passes |
| CreateTaskForm.FiredSubmitSends | client/src/components/CreateTaskForm.tsx:15-25 | Whenever the browser fires `submit` (enabled button, `required` title, valid estimate), `handleSubmit` has a payload to send |
| CreateTaskForm.Form.constructor | client/src/components/CreateTaskForm.tsx:10-13 | All fields empty, no estimate |
| CreateTaskForm.Form.SetTitle | client/src/components/CreateTaskForm.tsx:47 | Writes the title only |
| CreateTaskForm.Form.SetDescription | client/src/components/CreateTaskForm.tsx:61 | Writes the description only |
| CreateTaskForm.Form.SetDueDate | client/src/components/CreateTaskForm.tsx:76 | Writes the due date only |
| CreateTaskForm.Form.SetTimeEstimate | client/src/components/CreateTaskForm.tsx:88 | Writes the estimate only |
| CreateTaskForm.Form.Submit | client/src/components/CreateTaskForm.tsx:15-32 | Sends iff the submit fires (enabled button, non-empty title, shown estimate empty or 5, 10, ...), then the payload of the old fields and all four cleared; otherwise nothing sent and the fields stay |
| CreateTaskModal.Modal.constructor | client/src/components/CreateTaskModal.tsx:11-15 | The given open flag, empty fields |
| CreateTaskModal.Modal.SetTitle | client/src/components/CreateTaskModal.tsx:51 | Writes the title only |
| CreateTaskModal.Modal.SetDescription | client/src/components/CreateTaskModal.tsx:66 | Writes the description only |
| CreateTaskModal.Modal.SetDueDate | client/src/components/CreateTaskModal.tsx:81 | Writes the due date only |
| CreateTaskModal.Modal.SetTimeEstimate | client/src/components/CreateTaskModal.tsx:94 | Writes the estimate only |
| CreateTaskModal.ZeroEstimateBlocksOnlyTheForm | client/src/components/CreateTaskModal.tsx:93-97 | An estimate of 0 shows empty in the dialog (`timeEstimate \|\| ''`) and passes, but blocks the task-list form; 7 blocks both |
| CreateTaskModal.Modal.Submit | client/src/components/CreateTaskModal.tsx:17-35 | In the rendered dialog: sends iff the submit fires on the shown `timeEstimate \|\| ''`, then the same payload as the form, fields cleared and the dialog closed; otherwise nothing changes |
| CreateTaskModal.Modal.Cancel | client/src/components/CreateTaskModal.tsx:103-105 | Closes and keeps what was typed |
| EditTaskModal.InitialFields | client/src/components/EditTaskModal.tsx:14-17 | Title; description or ""; calendar-day text of the due date or ""; estimate unless missing or 0 |
| EditTaskModal.SavePayloadSpec | client/src/components/EditTaskModal.tsx:21-26 | The title sent as typed; empty description or due date and a missing or zero estimate left out; no null; never a planned date, recorded time or start time |
| EditTaskModal.TitleIsNotTrimmed | client/src/components/EditTaskModal.tsx:21-22 | " Plan week " is saved padded, where the create form sends "Plan week" |
| EditTaskModal.Dialog.constructor | client/src/components/EditTaskModal.tsx:13-17 | The fields start from the task |
| EditTaskModal.Dialog.SetTitle | client/src/components/EditTaskModal.tsx:48 | Writes the title only |
| EditTaskModal.Dialog.SetDescription | client/src/components/EditTaskModal.tsx:62 | Writes the description only |
| EditTaskModal.Dialog.SetDueDate | client/src/components/EditTaskModal.tsx:77 | Writes the due date only |
| EditTaskModal.Dialog.SetTimeEstimate | client/src/components/EditTaskModal.tsx:90 | Writes the estimate only |
| EditTaskModal.Dialog.Submit | client/src/components/EditTaskModal.tsx:19-28 | Sends the save request of the current fields and closes iff the submit fires (enabled button, non-empty title, shown estimate empty or 5, 10, ...); otherwise stays open; fields are never cleared |
| EditTaskModal.Dialog.Cancel | client/src/components/EditTaskModal.tsx:100-102 | Closes and keeps the fields |
| Flows.RemovedTaskLeavesToday | client/src/pages/Today.tsx:107-109 | Once removed from today a task is on no day's list, in the week's unplanned list, and offered "Plan for Today" |
| Flows.PlanningForTodayHidesButton | client/src/components/TaskItem.tsx:48 | A task planned for today is on today's list and today's week column, and has no plan button |
| Flows.WeekDropKeepsPlannedDate | client/src/pages/Week.tsx:68-79 | As written, a week drop leaves the planned date and clears the due date; the intended update files the task under the dropped day and keeps the due date |
| Flows.TimerCreditIsLost | client/src/pages/Today.tsx:173-180 | As written, a timer credit leaves the recorded time unchanged; the intended update adds it |
| Flows.DragPlacesTask | client/src/pages/Today.tsx:133-145 | An hour-row drop starts the task at the top of that hour (clearing the due date as written); an unscheduled-zone drop puts it in the unscheduled column |
| Flows.ToggleFromWeekCard | client/src/components/WeekTaskCard.tsx:28 | The week card's toggle, carried through the toggle route, answers 200 and flips exactly that task's completion flag; every other field and task is unchanged |
| Flows.CreatedFromForm | client/src/components/CreateTaskForm.tsx:20-25 | A task created from the form has the trimmed title, a description iff one was typed, a due date iff one was given, is unplanned and is offered "Plan for Today" |
| Flows.UntouchedEditSave | client/src/components/EditTaskModal.tsx:14-26 | Saving an untouched edit dialog changes only the due date, reduced to its calendar-day text (cleared when it has none) |
| Strings.TrimSpec | client/src/components/CreateTaskForm.tsx:18-22 | `trim` gives the text between its leading and trailing JavaScript white space and line terminators (Unicode space separators, no-break space and byte order mark included), with none at its ends, empty iff the text is all such characters |
| Strings.TrimIdempotent | client/src/components/CreateTaskForm.tsx:21 | Trimming twice is trimming once |
| Strings.DatePartOfStoredDate | client/src/pages/Week.tsx:53 | A day text stored as a date and answered as its ISO text (`T` and a time appended) has that day text as its calendar-date part, as the day text itself does |
| Strings.NatTextRoundTrip | client/src/components/DailyTimeSummary.tsx:29-31 | The decimal text of a number reads back as it |
| JsMath.CeilIsLeastCover | client/src/components/Timeline.tsx:46 | `Math.ceil(a/b)` is the least count of b covering a |
| JsMath.SplitNonNegative | client/src/components/DailyTimeSummary.tsx:16-17 | For a ≥ 0: floor(a/b)·b + a%b = a with 0 ≤ a%b < b |

## Left out

- I/O and plumbing are not modelled. This covers HTTP, the API client (client/src/api/client.ts, client/src/api/tasks.ts), React Query caching and refetching, routing, authentication, and confirmation dialogs. Handlers return the request they would send, and routes act on the in-memory map.
- Clocks and timers become parameters: today's date text, day numbers and the hour and minute of the current time are passed in. `setInterval` is modelled as one `Tick` call per second, and the interval-clearing effects are left out.
- Today.Page.Tick: the page's effect (client/src/pages/Today.tsx:32-57) has no cleanup and re-runs whenever `timeLeft` changes, so each run starts another interval and overwrites `timerIntervalRef`; the live intervals pile up and the countdown speeds up. The model's one step per second does not capture this.
- Today.Page.StartTimer: the Today page as written never reaches it. `handleStartTimer` is passed only to `Timeline` (client/src/pages/Today.tsx:266-269), which takes only `tasks` (client/src/components/Timeline.tsx:160) and never calls it. So no session starts, the timer dialog never shows, and no timer credit is sent. The page's timer members model the handlers as written, as if they were reached.
- Local time against UTC is left out. `new Date(text)`, `toISOString` and `toDateString` are taken to agree on the calendar day, which is the date text up to its first `T`. Daylight-saving shifts are not modelled.
- DateUtils.FormatWeekRange: `toLocaleDateString` is not modelled; the caller supplies each date's short month name and day of the month.
- Positions, heights and percentages are exact rationals, not floating point.
- The database's own behaviour is assumed, not modelled: a left-out member keeps its value, a required column refuses null, deleting a missing row throws. So are its generated ids and `createdAt`/`updatedAt` stamps; `updatedAt` is not modelled at all, and ids and `createdAt` are parameters.
- Timeline.TaskSpan requires a well-formed start time (two non-empty digit groups); `parseInt` on other texts is not modelled.
- Timeline.ParseClock and Timeline.TasksOverlap read a piece as a number only when it is empty or all decimal digits. `Number` also reads surrounding white space (`" 9"`), decimals (`"9.5"`), signs, exponents, hexadecimal (`"0x0A"`) and `"Infinity"`; the model reads these as NaN, so such a task overlaps nothing here.
- Strings.ToLower lower-cases ASCII letters only, so KeyboardShortcut.KeyIgnoresCase holds for ASCII keys; JavaScript `toLowerCase` also maps other letters (`"É"` to `"é"`), which the model keeps as they are.
- TaskStore.Create, TaskStore.Plan, TaskStore.Update: a non-empty date text that `new Date` cannot read (`"next week"`) gives an Invalid Date, which the database refuses; the route then answers 500 and changes nothing (server/src/routes/tasks.ts:41-43, 97-99, 124-126). The model stores any non-empty date text and answers 201 or 200. It also stores the text as sent, where the database keeps a DateTime and answers its ISO text (`"2024-05-06"` comes back as `"2024-05-06T00:00:00.000Z"`); `Strings.DatePartOfStoredDate` shows both have the same calendar-date part.
- The estimate inputs' `parseInt` is not modelled; the setters take the parsed number or None. The browser's validation is judged on that number, not on the typed text (`"1e1"` is 10 to the browser but 1 after `parseInt`), and its error bubble is not modelled. On the task-list form, resetting the estimate to `undefined` leaves the input showing the number last submitted; the model treats it as empty, which passes as that number did.
- SettingsModal.OnStartSelect and SettingsModal.OnEndSelect require a digit text, because the option values are always decimal texts; `Number` on other texts is not modelled.
- Local-storage persistence of the settings is left out.
- Rendering is left out: CSS classes, drag previews, the task lists' markup and the floating timer button's text.
- client/src/pages/Tasks.tsx and the other context files are not part of this model. Their handlers only pass ids on to the same requests.
- PomodoroTimer.Timer.Tick models one interval step. The stale `totalTimeSpent` that the interval closure captures is not modelled; the current field is used.
- The Today timer modal keeps both its own copy of the session and the page's. Their interleaving through `onUpdate` is modelled only call by call, through `Today.Page.TimerUpdate`.

## Findings

| source | as written | input that shows it | evidently intended | confidence | as-written member | corrected member |
|---|---|---|---|---|---|---|
| server/src/routes/tasks.ts:106-121 | PATCH `/:id` reads only title, description, dueDate, timeEstimate and startTime, and writes `dueDate: dueDate ? new Date(dueDate) : null` | A body of only `{plannedDate: "2024-05-06", actualTime: 30}` on a task due 2024-05-10 stores neither value and clears the due date. The week drop sends such a body, and the timeline drag's start-time-only body clears the due date too | Write every member the client sends, and keep a due date that is not sent | not executed | TaskRoutes.UpdateDropsPlannedDateAndActualTime | TaskRoutes.IntendedUpdateWritesSentFields |
