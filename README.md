# SupportHER in Dafny

SupportHER is an iPad app that helps someone support a partner or friend through
the menstrual cycle. This project models the app's logic and proves properties of it.

- The centre is the **cycle engine**, `CycleCalendarViewModel`. It keeps:
  - the recorded period start and end;
  - twelve projected future periods, 28 days apart;
  - the cached phase.

  It answers queries about a date:
  - which phase the date is in;
  - whether it is in a period;
  - how close it is to the next period or how far past the last one;
  - the month grid the calendar shows.
- Around the engine sit several smaller parts:
  - the seven-day **support quest**: a set of completed days, a start timestamp and a reflection text;
  - the quest day's completion button;
  - the **care-plan checklist**, built from saved preferences;
  - the **readiness checklist**, seven fixed rows;
  - the dashboard's **pain, mood and card** classifications;
  - the info screen's **slideshow and accordions**;
  - the **hex colour** parser.

## How the model is built

- **Dates** are whole day numbers:
  - "same day" is equality;
  - the number of days between two dates is their difference;
  - "today", "now" and the clock reading a quest mark records are parameters.
  - Only `isWithin24HoursAfterPeriodStart` needs a time of day. It gets an hour of day (0..23) for the start and for now.
- **Weekdays**: the weekday of a day is `(day + weekdayOffset) % 7 + 1`. The calendar's first weekday is a parameter.
- **Months**: `monthOf: int -> int` stands for the calendar's month of a day number. The month grid gets its month as `[monthStart, monthEnd)`.
- **Swift `%`**: it truncates toward zero, so it is written out (`CycleCalendar.SwiftRemainder`).
  - `getPhaseFor`'s offset `((d % 28) + 28) % 28` is proved to equal the floored remainder, so it always lies in `[0, 28)`.
- **Persistence through `UserDefaults`**: the class `Defaults.UserDefaults` stands for the store. It holds:
  - a map from keys to stored dates;
  - the decoded care-plan preferences.

  The cycle calendar, the care plan and the readiness checklist read and write it directly. Their methods take it as a parameter and name the fields they write in `modifies`.
  - The care plan and the readiness checklist share the `"lastResetDate"` entry, as the app does.
- **Persistence through `@AppStorage`**: the quest keeps its two stored values as ordinary fields of `QuestModel.QuestManager`, `completedDaysData` and `questStartTimestamp`, because `@AppStorage` binds them to properties of the manager.
  - The constructor takes the values found in storage as the parameters `storedData` and `storedTimestamp`.
  - `MarkDayCompleted`, `UndoDayCompletion` and `ResetQuest` take no store; they write those two fields.
  - JSON encoding is not modelled. `Array(completedDays)` is a method that yields the set's elements without repeats, in some order. Decoding is `Set(decoded)`.
- **View models as classes**: each view model is a class whose fields are its published properties. Its methods state the new state in terms of the old.
  - The quest state has pure transition functions, `Mark`, `Undo` and `Reset`. The manager's methods are proved to follow them, and the properties are lemmas about those functions.
- **Pure code**: the pain, mood and card logic and the hex colour parsing are functions.

### Behaviour worth knowing

- **`isWithinDaysBeforePeriod`** (`CycleCalendarView.swift:240`) adds cycles while `nextPeriod <= today`. So the next period it finds lies strictly after today. On the start day itself it reports the next cycle, 28 days away.
- **`isFuturePeriodDate`** (`CycleCalendarView.swift:166`) builds the closed range `start...end` without the validity check that `isDateInPeriod` makes. Swift traps on an inverted range there, so the model gives it that precondition.

## Model

| member | source | states |
|---|---|---|
| `Defaults.DateFor` | SupportHER.swiftpm/CycleCalendarView.swift:55-62 | a stored date is returned exactly when its key is present, and it is the stored value |
| `CycleCalendar.SwiftRemainder` | SupportHER.swiftpm/CycleCalendarView.swift:77 | Swift's truncating `%`: the result has the dividend's sign and is within one modulus of the floored remainder |
| `CycleCalendar.NormalizedDay` | SupportHER.swiftpm/CycleCalendarView.swift:74-77 | the offset into the cycle lies in [0, 28) for every signed day count, including dates before the start, and equals the floored `d mod 28` |
| `CycleCalendar.PhaseOfNormalizedDay` | SupportHER.swiftpm/CycleCalendarView.swift:79-91 | the segment tests agree with the reference partition (days 0-12 follicular, 13 ovulatory, 14-27 luteal) on [0, 28); the final `nil` comes only from offsets of 28 or more |
| `CycleCalendar.RangeContains` | SupportHER.swiftpm/CycleCalendarView.swift:120-126 | the same-day tests plus the containment test mean: start <= date <= end, both ends included; an inverted range contains nothing |
| `CycleCalendar.AnyRangeContains` | SupportHER.swiftpm/CycleCalendarView.swift:131-140 | the early-return scan is true iff some future range contains the date |
| `CycleCalendar.AnyRangeStartsOn` | SupportHER.swiftpm/CycleCalendarView.swift:146 | true iff some future range starts on the date |
| `CycleCalendar.AnyRangeStartedWithin` | SupportHER.swiftpm/CycleCalendarView.swift:269-274 | true iff some future range started 0 <= d < days before today |
| `CycleCalendar.AnyClosedRangeContains` | SupportHER.swiftpm/CycleCalendarView.swift:165-170 | on well-formed ranges the unchecked closed-range scan agrees with the checked one |
| `CycleCalendar.Weekday` | SupportHER.swiftpm/CycleCalendarView.swift:207 | the weekday is in 1..7 and is one more than the day number plus the calendar offset, modulo 7 |
| `CycleCalendar.IntendedGridFacts` | SupportHER.swiftpm/CycleCalendarView.swift:199-230 | corrected grid (`IntendedDatesInMonth`): whole weeks from the first weekday on or before the 1st to the week end on or after the month's last day; consecutive days; month flags exact; every row holds a day of the month |
| `CycleCalendar.WrittenGridFacts` | SupportHER.swiftpm/CycleCalendarView.swift:202-219 | the grid as written (`DatesInMonthAsWritten`): whole weeks from the first weekday on or before the 1st, ending 0-6 days after `monthInterval.end`, the 1st of the next month; consecutive days; month flags exact |
| `CycleCalendar.WrittenGridExtraWeek` | SupportHER.swiftpm/CycleCalendarView.swift:204-217 | the written grid equals the intended one unless the next month starts on the first weekday; then it has one extra week, none of whose days is in the month |
| `CycleCalendar.GridEnds` | SupportHER.swiftpm/CycleCalendarView.swift:214-217 | the end date computed from the next month's 1st equals the one from the month's last day, unless that 1st falls on the first weekday; then it is a whole week later |
| `CycleCalendar.WrittenGridExample` | SupportHER.swiftpm/CycleCalendarView.swift:214-217 | a 28-day month starting on the first weekday (February 2026 with Sunday-first weeks): 28 cells intended, 35 shown |
| `CycleCalendar.GridFirstDay` | SupportHER.swiftpm/CycleCalendarView.swift:207-212 | the grid's start falls on the first weekday, at most 6 days before the 1st |
| `CycleCalendar.GridLastDay` | SupportHER.swiftpm/CycleCalendarView.swift:214-217 | the grid's end is 0-6 days after the given day, and the day after it is the first weekday |
| `CycleCalendar.SameWeekdayWholeWeeks` | SupportHER.swiftpm/CycleCalendarView.swift:207-217 | two days on the same weekday are a whole number of weeks apart, so the grid has whole rows |
| `CycleCalendar.GridShape` | SupportHER.swiftpm/CycleCalendarView.swift:207-217 | the start date falls on the first weekday within 6 days before the 1st; the end date lies within 6 days after; together they span whole weeks |
| `CycleCalendar.CycleCalendarViewModel.constructor` | SupportHER.swiftpm/CycleCalendarView.swift:50-65 | loads both stored dates; the future periods are the projection when both dates are stored and empty otherwise; caches today's phase, or follicular when there is none |
| `CycleCalendar.CycleCalendarViewModel.PeriodLength` | SupportHER.swiftpm/CycleCalendarView.swift:110-114 | 5 when either date is missing; otherwise start + length = end |
| `CycleCalendar.CycleCalendarViewModel.IsDateInPeriod` | SupportHER.swiftpm/CycleCalendarView.swift:116-143 | true iff the recorded range (both dates present) or some future range contains the date, both ends included; inverted ranges are skipped |
| `CycleCalendar.CycleCalendarViewModel.IsFuturePeriodStart` | SupportHER.swiftpm/CycleCalendarView.swift:145-147 | true iff some future range starts on the date, valid or not |
| `CycleCalendar.CycleCalendarViewModel.IsFuturePeriodDate` | SupportHER.swiftpm/CycleCalendarView.swift:164-171 | with well-formed ranges, true iff some future range contains the date |
| `CycleCalendar.CycleCalendarViewModel.GetPhaseFor` | SupportHER.swiftpm/CycleCalendarView.swift:67-92 | menstruating whenever the date is in a period; otherwise no phase without a start; otherwise the reference phase of the floored offset, so the final `nil` is never reached |
| `CycleCalendar.CycleCalendarViewModel.UpdateCurrentPhase` | SupportHER.swiftpm/CycleCalendarView.swift:94-98 | the cached phase becomes today's phase; it stays as it was when there is none |
| `CycleCalendar.CycleCalendarViewModel.CalculateFuturePeriodDates` | SupportHER.swiftpm/CycleCalendarView.swift:149-162 | without a start the ranges are left untouched; otherwise they are exactly the twelve projected ranges |
| `CycleCalendar.CycleCalendarViewModel.IsCurrentlyMenstruating` | SupportHER.swiftpm/CycleCalendarView.swift:195-197 | true iff today is in a period |
| `CycleCalendar.CycleCalendarViewModel.GetCurrentPhaseDisplay` | SupportHER.swiftpm/CycleCalendarView.swift:173-182 | "Select period dates" without a start; "MENSTRUATING" whenever today is in a period, whatever the cache says; otherwise the cached phase |
| `CycleCalendar.CycleCalendarViewModel.GetCurrentPhaseColor` | SupportHER.swiftpm/CycleCalendarView.swift:184-193 | black without a start; red whenever today is in a period; otherwise the cached phase's colour |
| `CycleCalendar.CycleCalendarViewModel.SetCycleStartDate` | SupportHER.swiftpm/CycleCalendarView.swift:28-34 | the start is assigned; the store is written only for a non-nil date |
| `CycleCalendar.CycleCalendarViewModel.SetPeriodEndDate` | SupportHER.swiftpm/CycleCalendarView.swift:35-41 | the end is assigned; the store is written only for a non-nil date |
| `CycleCalendar.CycleCalendarViewModel.PickStartDate` | SupportHER.swiftpm/CycleCalendarView.swift:437-469 | picking a start sets the end to start + 5 and stores both; the `onChange` handlers then reproject with period length 5 and set the cached phase to the phase of today |
| `CycleCalendar.CycleCalendarViewModel.PickEndDate` | SupportHER.swiftpm/CycleCalendarView.swift:433-435 | picking an end stores it and reprojects, with period length end - start |
| `CycleCalendar.CycleCalendarViewModel.DatesInMonth` | SupportHER.swiftpm/CycleCalendarView.swift:199-230 | the loop yields the written grid: whole weeks, the first cell on the first weekday at most 6 days before the 1st, the last cell 0-6 days after the next month's 1st, consecutive days, flags exact |
| `CycleCalendar.CycleCalendarViewModel.IsWithinDaysBeforePeriod` | SupportHER.swiftpm/CycleCalendarView.swift:232-248 | false without a start; otherwise the forward walk lands on the first cycle start after today, and the answer is endDays <= days until it <= startDays |
| `CycleCalendar.CycleCalendarViewModel.IsWithin24HoursAfterPeriodStart` | SupportHER.swiftpm/CycleCalendarView.swift:250-259 | false without a start; true only on the start day at or after the start hour, or the next day at or before it |
| `CycleCalendar.CycleCalendarViewModel.IsWithinDaysAfterPeriodStart` | SupportHER.swiftpm/CycleCalendarView.swift:261-277 | false without a start; otherwise true iff the recorded start or some future start lies 0 <= d < days before today |
| `CycleCalendar.PhaseSegmentsPartitionCycle` | SupportHER.swiftpm/CycleCalendarView.swift:79-89 | each phase holds exactly its segment, and the lengths 13 + 1 + 14 add up to the 28-day cycle |
| `CycleCalendar.FarPastDateHasPhase` | SupportHER.swiftpm/CycleCalendarView.swift:74-84 | a date 500 days before the start still gets a phase: follicular, offset 4 |
| `CycleCalendar.PhaseRepeatsEveryCycle` | SupportHER.swiftpm/CycleCalendarView.swift:74-91 | outside periods, the phase repeats every 28 days, before and after the start |
| `CycleCalendar.ProjectedRangesShape` | SupportHER.swiftpm/CycleCalendarView.swift:155-158 | twelve ranges; range i starts at start + 28(i+1) and ends periodLength - 1 later; strictly increasing starts |
| `CycleCalendar.ShortPeriodNeverMatches` | SupportHER.swiftpm/CycleCalendarView.swift:133 | with a period length below 1, no projected range ever contains a date |
| `CycleCalendar.FutureStartIgnoresValidity` | SupportHER.swiftpm/CycleCalendarView.swift:145-147 | with an inverted projection, a future start counts as a period start although no period contains it |
| `CycleCalendar.FuturePeriodDateAgreesWithPeriod` | SupportHER.swiftpm/CycleCalendarView.swift:164-171 | on well-formed ranges, with no complete recorded range, `isFuturePeriodDate` equals `isDateInPeriod` |
| `CycleCalendar.DefaultEndDateQuirk` | SupportHER.swiftpm/CycleCalendarView.swift:437-441 | the default end start + 5 makes a recorded period of 6 days but projected periods of 5 |
| `CycleCalendar.NextPeriodStartUnique` | SupportHER.swiftpm/CycleCalendarView.swift:239-242 | the loop's exit state, a whole number of cycles on and the first such point after today, is the next period start |
| `CycleCalendar.NextPeriodStartFacts` | SupportHER.swiftpm/CycleCalendarView.swift:239-245 | the next period start is after today, congruent to the start modulo 28, and at most 28 days away once the start has passed |
| `CycleCalendar.ProjectedStartsRecur` | SupportHER.swiftpm/CycleCalendarView.swift:261-277 | over the projection, the future-start test fires iff today is 0 <= d < days after start + 28k for some k in 1..12 |
| `CycleCalendar.DisplayMatchesRefreshedPhase` | SupportHER.swiftpm/CycleCalendarView.swift:173-182 | once the cache holds today's phase, the display shows that phase |
| `CycleCalendar.RestoreAfterPicking` | SupportHER.swiftpm/CycleCalendarView.swift:28-65 | picking dates and restarting from the store gives back the same dates and the same projection |
| `QuestModel.Days` | SupportHER.swiftpm/Sources/QuestModel.swift:31-88 | seven days with ids 1..7 in order, none completed |
| `QuestModel.StartDate` | SupportHER.swiftpm/Sources/QuestModel.swift:26-28 | no start date iff the timestamp is <= 0 |
| `QuestModel.Reflection` | SupportHER.swiftpm/Sources/QuestModel.swift:96-111 | the fixed text for each band 0, 1-2, 3-4, 5-6, 7; empty iff the count is above 7 |
| `QuestModel.Decode` | SupportHER.swiftpm/Sources/QuestModel.swift:155 | the set of a decoded array holds exactly its elements |
| `QuestModel.Loaded` | SupportHER.swiftpm/Sources/QuestModel.swift:153-157 | nothing decodable loads the empty set; otherwise the array's elements |
| `QuestModel.Encode` | SupportHER.swiftpm/Sources/QuestModel.swift:148 | the array holds each element of the set once, so decoding it gives the set back |
| `QuestModel.QuestManager.constructor` | SupportHER.swiftpm/Sources/QuestModel.swift:119-121 | the loaded set is what the stored array decodes to; the stored array stays in step with it |
| `QuestModel.QuestManager.PersistCompletedDays` | SupportHER.swiftpm/Sources/QuestModel.swift:147-151 | after the `didSet` the stored array decodes to the current set |
| `QuestModel.QuestManager.MarkDayCompleted` | SupportHER.swiftpm/Sources/QuestModel.swift:125-130 | the state follows `Mark`: the clock is started only while it reads 0, then the id is inserted and persisted |
| `QuestModel.QuestManager.UndoDayCompletion` | SupportHER.swiftpm/Sources/QuestModel.swift:132-134 | the state follows `Undo`: only the id is removed, and the result is persisted |
| `QuestModel.QuestManager.ResetQuest` | SupportHER.swiftpm/Sources/QuestModel.swift:140-143 | the state follows `Reset`: no days, timestamp 0, persisted |
| `QuestModel.QuestManager.IsDayCompleted` | SupportHER.swiftpm/Sources/QuestModel.swift:136-138 | true iff the id is in the completed set |
| `QuestModel.QuestManager.QuestStartDate` | SupportHER.swiftpm/Sources/QuestModel.swift:26-28 | nil iff the stored timestamp is <= 0, and otherwise the date at that timestamp |
| `QuestModel.QuestManager.SupportScore` | SupportHER.swiftpm/Sources/QuestModel.swift:92-94 | the score is the number of completed days |
| `QuestModel.QuestManager.SupportReflection` | SupportHER.swiftpm/Sources/QuestModel.swift:96-111 | the fixed text for each score band 0, 1-2, 3-4, 5-6 and 7, and an empty text exactly when the score is above 7 |
| `QuestModel.QuestManager.IsQuestComplete` | SupportHER.swiftpm/Sources/QuestModel.swift:113-115 | complete iff the score is 7 |
| `QuestModel.MarkCompletes` | SupportHER.swiftpm/Sources/QuestModel.swift:125-130 | after a mark the day is completed and every other day keeps its status |
| `QuestModel.MarkIdempotent` | SupportHER.swiftpm/Sources/QuestModel.swift:125-130 | marking twice is marking once, provided the first mark started the clock |
| `QuestModel.StartTimestampSetOnce` | SupportHER.swiftpm/Sources/QuestModel.swift:126-128 | a mark sets the timestamp only while it reads 0, and keeps it otherwise |
| `QuestModel.UndoRemovesOnlyThatDay` | SupportHER.swiftpm/Sources/QuestModel.swift:132-134 | undo removes exactly that id and keeps the timestamp |
| `QuestModel.ResetClearsQuest` | SupportHER.swiftpm/Sources/QuestModel.swift:140-143 | after a reset: score 0, no start date, the not-started reflection |
| `QuestModel.MarkAddsFreshDay` | SupportHER.swiftpm/Sources/QuestModel.swift:125-130 | marking a day not yet completed raises the score by exactly one |
| `QuestModel.SevenMarksCompleteQuest` | SupportHER.swiftpm/Sources/QuestModel.swift:113-115 | marking days 1..7 from an empty quest gives a score of 7, the complete quest |
| `QuestModel.ReflectionBeyondSeven` | SupportHER.swiftpm/Sources/QuestModel.swift:96-111 | mark accepts any id, so marking a new id on a completed quest pushes the score past 7 and the reflection becomes empty |
| `QuestModel.PersistThenLoad` | SupportHER.swiftpm/Sources/QuestModel.swift:147-157 | persisting and loading gives back the same set, whatever the array's order |
| `QuestDayDetail.Press` | SupportHER.swiftpm/Sources/QuestDayDetailView.swift:119-127 | a press flips the day's membership and no other day's; only a completion on an unstarted quest starts the clock |
| `QuestDayDetail.IsCompleted` | SupportHER.swiftpm/Sources/QuestDayDetailView.swift:8-10 | always the manager's answer for this day |
| `QuestDayDetail.PressCompletionButton` | SupportHER.swiftpm/Sources/QuestDayDetailView.swift:119-127 | a completed day is undone and an uncompleted one is marked, through the manager, which stays persisted |
| `QuestDayDetail.PressFlipsCompletion` | SupportHER.swiftpm/Sources/QuestDayDetailView.swift:122-126 | a press flips whether the day is completed |
| `QuestDayDetail.PressTouchesOnlyThatDay` | SupportHER.swiftpm/Sources/QuestDayDetailView.swift:122-126 | a press leaves every other day as it was |
| `QuestDayDetail.DoublePressRestoresDays` | SupportHER.swiftpm/Sources/QuestDayDetailView.swift:120-127 | two presses give back the set of completed days |
| `QuestDayDetail.PressKeepsStartedClock` | SupportHER.swiftpm/Sources/QuestDayDetailView.swift:123 | no press clears a started clock, and un-completing never touches it |
| `CarePlan.Prefix` | SupportHER.swiftpm/Sources/CarePlanModel.swift:81-86 | `prefix(3)`: the first min(n, count) elements |
| `CarePlan.Toggled` | SupportHER.swiftpm/Sources/CarePlanModel.swift:116-119 | below the count only item i's flag flips, with its text kept; at or above the count nothing changes |
| `CarePlan.CarePlanViewModel.constructor` | SupportHER.swiftpm/Sources/CarePlanModel.swift:44-57 | loads the stored preferences; the checklist is the one generated from them; the monthly reset leaves it as generated and writes the reset date only when needed |
| `CarePlan.CarePlanViewModel.GenerateChecklistItems` | SupportHER.swiftpm/Sources/CarePlanModel.swift:69-91 | the loops build exactly the checklist of the loaded preferences |
| `CarePlan.CarePlanViewModel.SavePreferences` | SupportHER.swiftpm/Sources/CarePlanModel.swift:59-65 | the preferences are replaced and stored, and the list is regenerated with every item unchecked |
| `CarePlan.CarePlanViewModel.ResetIfNeeded` | SupportHER.swiftpm/Sources/CarePlanModel.swift:95-106 | resets iff no reset date is stored or its month differs from now's, and is otherwise a no-op; afterwards no reset is needed this month |
| `CarePlan.CarePlanViewModel.ResetChecklist` | SupportHER.swiftpm/Sources/CarePlanModel.swift:108-112 | every flag is cleared, the texts, order and count are kept, and now is stored as the reset date |
| `CarePlan.CarePlanViewModel.ToggleItem` | SupportHER.swiftpm/Sources/CarePlanModel.swift:116-119 | the list becomes `Toggled(old, index)` |
| `CarePlan.EntriesShape` | SupportHER.swiftpm/Sources/CarePlanModel.swift:81-88 | a filtered list has no more entries than texts, and none is checked |
| `CarePlan.EntriesComeFromTexts` | SupportHER.swiftpm/Sources/CarePlanModel.swift:81-88 | every entry is a labelled non-empty text of the list |
| `CarePlan.EntriesKeepNonEmpty` | SupportHER.swiftpm/Sources/CarePlanModel.swift:81-88 | every non-empty text appears, labelled and unchecked |
| `CarePlan.EntriesKeepOrder` | SupportHER.swiftpm/Sources/CarePlanModel.swift:81-88 | filtering distributes over concatenation, so the original order is kept |
| `CarePlan.NoPreferencesNoChecklist` | SupportHER.swiftpm/Sources/CarePlanModel.swift:70-73 | with no preferences the checklist is empty |
| `CarePlan.ChecklistShape` | SupportHER.swiftpm/Sources/CarePlanModel.swift:75-90 | the first item is "Remember: " + the comfort text; at most 7 items; none checked |
| `CarePlan.ChecklistUnchecked` | SupportHER.swiftpm/Sources/CarePlanModel.swift:69-91 | every generated item is unchecked |
| `CarePlan.HelpsAreFirstThreeNonEmpty` | SupportHER.swiftpm/Sources/CarePlanModel.swift:81-83 | the helps shown are exactly the non-empty ones among the first three |
| `CarePlan.RedFlagsAreFirstThreeNonEmpty` | SupportHER.swiftpm/Sources/CarePlanModel.swift:86-88 | the red-flag entries are exactly the non-empty flags among the first three, each with the "Watch for" label: every entry is one of them, and each of them appears |
| `CarePlan.AvoidsIgnored` | SupportHER.swiftpm/Sources/CarePlanModel.swift:69-91 | the things to avoid never affect the checklist |
| `CarePlan.ToggleTwiceIsIdentity` | SupportHER.swiftpm/Sources/CarePlanModel.swift:116-119 | toggling the same index twice gives back the list |
| `Readiness.DefaultItems` | SupportHER.swiftpm/ReadinessCheckView.swift:4-12 | seven rows, all unchecked |
| `Readiness.ReadinessViewModel.constructor` | SupportHER.swiftpm/ReadinessCheckView.swift:4-16 | the rows are the seven defaults, reset or not, and the reset date is written only when a reset is due |
| `Readiness.ReadinessViewModel.ResetIfNeeded` | SupportHER.swiftpm/ReadinessCheckView.swift:18-29 | resets iff no date is stored or its month differs from now's, and otherwise changes nothing; afterwards no reset is needed this month |
| `Readiness.ReadinessViewModel.ResetChecklist` | SupportHER.swiftpm/ReadinessCheckView.swift:31-34 | every flag is cleared, names, icons, order and count are kept, and now is stored under the shared key |
| `Readiness.ReadinessViewModel.ToggleRow` | SupportHER.swiftpm/ReadinessCheckView.swift:80-83 | only the tapped row's flag flips |
| `Readiness.ClearingUncheckedIsIdentity` | SupportHER.swiftpm/ReadinessCheckView.swift:31-32 | clearing rows that are all unchecked changes nothing |
| `Readiness.ClearingIsIdempotent` | SupportHER.swiftpm/ReadinessCheckView.swift:31-32 | clearing twice is clearing once |
| `Readiness.SharedResetDate` | SupportHER.swiftpm/ReadinessCheckView.swift:18-34 | a reset date in now's month, written by either checklist, stops both from resetting |
| `Readiness.SharedMonthlyReset` | SupportHER.swiftpm/ReadinessCheckView.swift:18-34 | after the care plan's screen has run its monthly check, the readiness screen opened later in the same month keeps its rows, and the store holds at most one new reset date, the care plan's |
| `Dashboard.PainLevel` | SupportHER.swiftpm/ContentView.swift:192-215 | in tenths: 0 iff no start; 9 iff 0-1 days since the start; 7 iff the start is 1-3 days ahead; 4 iff 2-5 days since; 1 on every other day |
| `Dashboard.PainLevelText` | SupportHER.swiftpm/ContentView.swift:217-240 | "No Data" iff no start; "Severe Pain" iff 0-1 days since; "Mild Pain" iff 1-3 days ahead; "Normal Pain" on every other day |
| `Dashboard.PainLevelColor` | SupportHER.swiftpm/ContentView.swift:242-254 | green for 0-0.2, yellow for 0.3-0.4, orange for 0.5-0.7, red for anything else |
| `Dashboard.ModerateAndLowPainBands` | SupportHER.swiftpm/ContentView.swift:210-214 | 0.4 iff 2-5 days since the start, 0.1 iff outside -3..5, and the "Normal Pain" label covers exactly those two levels |
| `Dashboard.MoodFor` | SupportHER.swiftpm/ContentView.swift:104-150 | the select-dates prompt is shown iff no start is recorded |
| `Dashboard.CardFor` | SupportHER.swiftpm/ContentView.swift:70-80 | no card without a start; the to-do list iff the cached phase is menstruating; otherwise the readiness check |
| `Dashboard.TextAgreesWithLevel` | SupportHER.swiftpm/ContentView.swift:192-240 | the pain label is determined by the pain level |
| `Dashboard.PainLevelValues` | SupportHER.swiftpm/ContentView.swift:192-215 | the level is one of 0, 0.1, 0.4, 0.7, 0.9, and it is 0 iff no start is recorded |
| `Dashboard.SeverePainIsMaximal` | SupportHER.swiftpm/ContentView.swift:200-207 | 0.9 is the highest level, reached iff 0-1 days have passed since the start; 0.7 iff the start is 1-3 days ahead |
| `Dashboard.ColourOfEachLevel` | SupportHER.swiftpm/ContentView.swift:242-254 | 0.9 is red, 0.7 orange, 0.4 yellow, 0.1 and 0 green |
| `Dashboard.ColourIsMonotone` | SupportHER.swiftpm/ContentView.swift:244-253 | a higher non-negative level never has a milder colour |
| `Dashboard.MoodDeterminesPhase` | SupportHER.swiftpm/ContentView.swift:110-150 | each phase has its own mood: follicular happy, luteal cranky, menstruating painful, ovulatory playful |
| `Dashboard.ThingsToDoWhenPainful` | SupportHER.swiftpm/ContentView.swift:70-80 | the to-do card shows exactly when the mood card shows the painful mood |
| `Info.ToggleExpanded` | SupportHER.swiftpm/Sources/info.swift:151 | tapping the open item closes it; any other tap opens the tapped item |
| `Info.NextIndex` | SupportHER.swiftpm/Sources/info.swift:245 | never past the last card; one step forward otherwise |
| `Info.PreviousIndex` | SupportHER.swiftpm/Sources/info.swift:251 | never below 0; one step back otherwise |
| `Info.View2.constructor` | SupportHER.swiftpm/Sources/info.swift:92-93 | starts on the first card with both accordions closed |
| `Info.View2.CanGoBack` | SupportHER.swiftpm/Sources/info.swift:110-111 | the previous button is enabled iff this is not the first card |
| `Info.View2.CanGoForward` | SupportHER.swiftpm/Sources/info.swift:121-122 | the next button is enabled iff this is not the last card |
| `Info.View2.NextCard` | SupportHER.swiftpm/Sources/info.swift:243-247 | keeps 0 <= currentIndex < 9 and moves by the clamp |
| `Info.View2.PreviousCard` | SupportHER.swiftpm/Sources/info.swift:249-253 | keeps 0 <= currentIndex < 9 and moves by the clamp |
| `Info.View2.TapMyth` | SupportHER.swiftpm/Sources/info.swift:151 | the open myth follows the toggle |
| `Info.View2.TapFaq` | SupportHER.swiftpm/Sources/info.swift:188 | the open question follows the toggle |
| `Info.View2.IsMythExpanded` | SupportHER.swiftpm/Sources/info.swift:148 | an item is expanded iff it is the open one |
| `Info.ClampedAtTheEnds` | SupportHER.swiftpm/Sources/info.swift:243-253 | next on the last card and previous on the first are no-ops |
| `Info.NextThenPrevious` | SupportHER.swiftpm/Sources/info.swift:243-253 | forward and back again returns to the card, except from the last one |
| `Info.PreviousThenNext` | SupportHER.swiftpm/Sources/info.swift:243-253 | back and forward again returns to the card, except from the first one |
| `Info.TapTwiceCollapses` | SupportHER.swiftpm/Sources/info.swift:151 | two taps on one item from the collapsed state leave it collapsed |
| `Info.TapOtherSwitches` | SupportHER.swiftpm/Sources/info.swift:151 | tapping another item opens it in place of the open one |
| `Info.View2.IsFaqExpanded` | SupportHER.swiftpm/Sources/info.swift:185 | a question is expanded iff it is the open one |
| `Info.TapExpandsOnlyTapped` | SupportHER.swiftpm/Sources/info.swift:151 | after a tap the expanded item, if any, is the tapped one, and it is expanded iff it was not open before |
| `Info.AtMostOneOpen` | SupportHER.swiftpm/Sources/info.swift:148-185 | in a screen state, two myths shown expanded are the same myth, and two questions shown expanded are the same question |
| `HexColor.TrimStart` | SupportHER.swiftpm/MyApp.swift:5 | drops exactly the leading whitespace and newlines |
| `HexColor.TrimEnd` | SupportHER.swiftpm/MyApp.swift:5 | drops exactly the trailing whitespace and newlines |
| `HexColor.Trim` | SupportHER.swiftpm/MyApp.swift:5 | the result is a slice with only whitespace around it, and it starts and ends with a non-space |
| `HexColor.Sanitize` | SupportHER.swiftpm/MyApp.swift:5-6 | the trimmed text with its first character dropped iff that character is '#'; what remains ends in a non-space |
| `HexColor.Red` | SupportHER.swiftpm/MyApp.swift:11 | bits 16-23 of the scanned value |
| `HexColor.Green` | SupportHER.swiftpm/MyApp.swift:12 | bits 8-15 of the scanned value |
| `HexColor.Blue` | SupportHER.swiftpm/MyApp.swift:13 | bits 0-7 of the scanned value |
| `HexColor.ColorFromHex` | SupportHER.swiftpm/MyApp.swift:4-16 | the three channel bytes put back together are the low 24 bits of what the scanner read from the sanitized text |
| `HexColor.DropHash` | SupportHER.swiftpm/MyApp.swift:6 | exactly one leading '#' is dropped when present |
| `HexColor.ScannedValue` | SupportHER.swiftpm/MyApp.swift:8-9 | `rgb` stays 0 when the scanner reads nothing |
| `HexColor.UnreadableIsBlack` | SupportHER.swiftpm/MyApp.swift:8-13 | unreadable input gives all three channels 0 |
| `HexColor.TrimStartSkips` | SupportHER.swiftpm/MyApp.swift:5 | leading whitespace before a non-space is removed, and only it |
| `HexColor.TrimEndSkips` | SupportHER.swiftpm/MyApp.swift:5 | trailing whitespace after a non-space is removed, and only it |
| `HexColor.TrimStripsSurroundingWhitespace` | SupportHER.swiftpm/MyApp.swift:5 | trimming gives back the text between the surrounding whitespace |
| `HexColor.SanitizeDropsSpacesAndOneHash` | SupportHER.swiftpm/MyApp.swift:5-6 | the scanner sees that text without its first '#', and a second '#' stays |
| `HexColor.ChannelsRecompose` | SupportHER.swiftpm/MyApp.swift:11-13 | red is bits 16-23, green bits 8-15, blue bits 0-7: together they rebuild the low 24 bits |
| `HexColor.HighBitsIgnored` | SupportHER.swiftpm/MyApp.swift:11 | bits above 23, such as a leading alpha byte, change no channel |
| `HexColor.TrimIsIdempotent` | SupportHER.swiftpm/MyApp.swift:5 | trimming a trimmed text changes nothing |

## Left out

- SwiftUI layout is not modelled; it is presentation only. This covers `body`, animations, sheets, navigation, `LegendItem`, the `DispatchQueue.asyncAfter` delay before end-date selection, and the images and colours of the completion button.
- `Calendar` and `Date` are not modelled, because the model uses day numbers. This covers time zones, daylight saving, locales and the time of day. A month is an abstract `monthOf` function, the grid month is given as `[monthStart, monthEnd)`, and the first weekday is a parameter.
- IsWithinDaysBeforePeriod: compares whole days. When the recorded start is later in the day than now, on the same calendar day, the source stays on that day (0 days until) while the model moves one cycle on.
- IsWithin24HoursAfterPeriodStart: counts whole hours of day only. The minutes that `dateComponents([.hour])` truncates are not modelled.
- IsDateInPeriod: its validity test compares days. The source compares instants, so a start and end on the same day with the end earlier in the day count as inverted there.
- CycleCalendar.CycleCalendarViewModel.PickStartDate: runs the two `onChange` handlers in a fixed order, reprojection and then the phase refresh, and runs them on every pick. SwiftUI's own firing order is not modelled, nor that it skips a handler when the value did not change.
- CycleCalendar.CycleCalendarViewModel.PickEndDate: reprojects once. The source reprojects in the binding and again in the `periodEndDate` handler, which gives the same ranges.
- `periodRangeText` date formatting is not modelled; it is display text.
- The SwiftUI `Color` values are not modelled; `CyclePhase` colours are enum tags.
- JSON encoding and decoding are not modelled. A stored value is either its decoded form or absent, and encoding never fails.
- The quest timestamp is a Double in the source and an integer in the model.
- Floating point is not modelled. Pain levels are integer tenths, the colour bands are compared in hundredths, and the division of each colour byte by 255 is left out: the model stops at the bytes.
- `Scanner.scanHexInt64` is the parameter `scan`, because Foundation's scanner is outside this model. The `UINavigationBarAppearance` setup in `MyApp.init` is UIKit configuration.
- The static texts are not modelled: the info screen's cards, myths, FAQs and doctor-visit list, and the quest's titles, actions and facts. `QuestDay` keeps only `id` and `isCompleted`.
- `ComfortType.icon` is not modelled; it is display only.
- The slider and polygon geometry (`PainLevelSlider`, `RegularPolygon`) and `SupportScoreView.swift` are not part of this model. The score view's only logic is a call to `resetQuest`, which is modelled.
- CarePlan.CarePlanViewModel.ToggleItem: requires a non-negative index. The source only guards `index < count`, so a negative index would trap.
- CycleCalendar.CycleCalendarViewModel.IsFuturePeriodDate: requires every future range to be well formed, because building `start...end` traps on an inverted range.

## Findings

| source | as written | input that shows it | evidently intended | confidence | as-written member | corrected member |
|---|---|---|---|---|---|---|
| SupportHER.swiftpm/CycleCalendarView.swift:204-217 | the grid's end is computed from `monthInterval.end`, which is the first instant of the next month, so the grid always runs through the next month's 1st; when that 1st falls on the first weekday, it adds a whole extra row of next-month days | February 2026 in a calendar with Sunday-first weeks (1 Feb is a Sunday, 1 Mar is a Sunday): 35 cells instead of 28 | the grid ends with the week holding the month's last day, so every row shows a day of the month | proved for the model, not executed | `CycleCalendar.DatesInMonthAsWritten` (lemmas `CycleCalendar.WrittenGridFacts`, `CycleCalendar.WrittenGridExtraWeek`, `CycleCalendar.WrittenGridExample`) | `CycleCalendar.IntendedDatesInMonth` (lemma `CycleCalendar.IntendedGridFacts`) |
