# Financial Journey In University — a verified model of the game logic

This project models, in Dafny, the game rules behind "Financial Journey In University", a Unity
student-life simulation. The engine glue (UI panels, fades, audio, scene loading, physics) is
left out. The game logic is modelled:

- the game clock and the components it ticks every 15-minute phase;
- the weekly timetable, attendance records and the automatic attendance tracker;
- dialogue options and the tutor schedule;
- exams, grading and the game's endings;
- money, bills, stocks and the stock market;
- trading with stores and stock booths;
- inventory slot clicks and the toolbar;
- the character's health and happiness and skill levels;
- achievements and scene names.

Each C# component whose fields change in place is a Dafny `class` with those fields. Most methods
state their new state through `ensures`, usually by naming a pure function of the old state; the
exceptions are listed under "## Left out". The
game's rules are then proved as lemmas about those functions: conservation of items in clicks,
once‑per‑day latches, save/load round trips, bounds and orderings. Value records (`Class`,
`AttendanceRecord`, `EndingData`, slot contents) are datatypes.

Engine singletons such as `DayTime.Instance` and `GameManager.instance`, and lookups such as
`FindFirstObjectByType`, become explicit parameters or fields. `PlayerPrefs` is a
`map<string, PrefValue>` held by a `PlayerPrefs` object (module `Prefs`). Unity reads an absent
key, or a key holding another type, as the default.

C# `float` is modelled as exact `real`. The conversions that appear in the game are functions in
`Common`:

- `(int)` casts are `Trunc`;
- `Mathf.RoundToInt` is `RoundHalfEven`;
- `Mathf.CeilToInt` is `Ceil`.

Random choices are arbitrary parameters or `:|` choices. Frame time is an explicit `deltaTime`
parameter.

Files and modules: `common.dfy` (Common: Option, weekdays, rounding, int/string conversion, split),
`prefs.dfy` (Prefs), `clock.dfy` (Clock: `DayTime` and `TimeAgent`, which refer to each other),
`npc.dfy`, `class_info.dfy`, `attendance.dfy`, `timetable.dfy`, `tracker.dfy`, `dialogue.dfy`,
`actions.dfy`, `tutor.dfy`, `quiz_utility.dfy`, `quiz.dfy`, `ending.dfy`, `currency.dfy`,
`bills.dfy`, `items.dfy` (items, stocks, slots and containers), `drag_drop.dfy`, `item_panel.dfy`,
`toolbar.dfy`, `trading.dfy`, `stock_market.dfy`, `stock_trading.dfy`, `character.dfy`,
`character_level.dfy`, `achievements.dfy`, `scene_names.dfy`.

## Model

| member | source | states |
|---|---|---|
| Clock.NextDayKeepsPhase | Assets/Script/DayTime.cs:195-198 | `CalculatePhase` = floor(time/900) + 96·days is unchanged by a rollover that subtracts 86400 s and adds a day |
| Clock.RolloverFramePhase | Assets/Script/DayTime.cs:154-172 | a frame that rolls past midnight leaves the phase index where the un-rolled time had it, so no phases are replayed twice |
| Clock.NextWeekdayWraps | Assets/Script/DayTime.cs:214-229 | the next weekday is index+1 mod 7, and Sunday follows exactly Saturday |
| Clock.RepeatCounts | Assets/Script/DayTime.cs:183-192 | the catch-up trace calls each agent exactly n times per occurrence in the list (an agent subscribed twice is ticked twice) |
| Clock.RepeatOrder | Assets/Script/DayTime.cs:183-192 | round j of the catch-up trace lists the agents in subscription order |
| Clock.TimeStringShowsClock | Assets/Script/DayTime.cs:138-150 | `GetTimeString` of a non-negative time is the two-digit whole hours, ':', two-digit whole minutes of the hour |
| Clock.TimeStringExample | Assets/Script/DayTime.cs:284-289 | 3661 s reads "01:01" |
| Clock.HourRemainder | Assets/Script/DayTime.cs:146-150 | the float remainder of a non-negative time by 3600 lies in [0, 3600) |
| Clock.TimeAgent.Init | Assets/Script/TimeAgent.cs:15-18 | the agent is appended to the clock's list, with no duplicate check, and nothing else of the clock changes |
| Clock.TimeAgent.OnDestroy | Assets/Script/TimeAgent.cs:25-28 | one occurrence of the agent is removed from the clock's list; the clock is otherwise unchanged |
| Clock.TimeAgent.AddHandler | Assets/Script/TimeAgent.cs:8 | `onTimeTick += h` appends the handler |
| Clock.DayTime.constructor | Assets/Script/DayTime.cs:29-79 | the inspector defaults: 08:00, scale 60, Sunday, day 0, no agents, phase memory -1 |
| Clock.DayTime.Subscribe | Assets/Script/DayTime.cs:128-131 | appends the agent |
| Clock.DayTime.Unsubsribe | Assets/Script/DayTime.cs:133-136 | removes the first occurrence of the agent |
| Clock.DayTime.TimeAgents | Assets/Script/DayTime.cs:174-193 | the first call only records the phase; later calls tick every agent, in order, once per phase crossed, so the handlers run as the agents' attached handlers repeated once per phase; `oldPhase` ends at the current phase |
| Clock.DayTime.TickAgents | Assets/Script/DayTime.cs:187-190 | one pass invokes every agent once in list order, and the handlers run are each agent's handlers in attachment order, agent after agent |
| Clock.DayTime.NextDay | Assets/Script/DayTime.cs:214-229 | time drops by 86400, days grows by exactly 1, the weekday advances with Saturday wrapping to Sunday |
| Clock.DayTime.Update | Assets/Script/DayTime.cs:154-172 | time advances by deltaTime·timeScale; at most one rollover, only when strictly past 86400; then the agents and their handlers catch up as in `TimeAgents` |
| Clock.DayTime.SkipTime | Assets/Script/DayTime.cs:261-267 | time grows by seconds + 60·minute + 3600·hours, unscaled, nothing else changes and no agent runs |
| Clock.DayTime.SkipToMorning | Assets/Script/DayTime.cs:269-281 | time becomes the morning time if not yet passed, else 86400 + morning time |
| Clock.DayTime.SetTimeScale | Assets/Script/DayTime.cs:303-306 | the scale is stored unchecked |
| Clock.DayTime.PauseTime | Assets/Script/DayTime.cs:309-312 | the scale becomes 0 |
| Clock.DayTime.ResumeTime | Assets/Script/DayTime.cs:315-318 | the scale becomes the argument, 100 by default |
| Npc.Increase | Assets/Script/NPCCharacter.cs:21-28 | the first talk of a day adds v and sets the latch; with the latch set nothing changes |
| Npc.Reset | Assets/Script/NPCCharacter.cs:30-37 | a tick on a new day clears the latch and records the day; a tick on the recorded day changes nothing |
| Npc.IncreaseOncePerDay | Assets/Script/NPCCharacter.cs:21-28 | a second talk on the same day changes nothing |
| Npc.ResetIdempotent | Assets/Script/NPCCharacter.cs:30-37 | repeated ticks within one day reset at most once |
| Npc.FirstTickResets | Assets/Script/NPCCharacter.cs:13-37 | the initial day number -1 makes the first tick on any day clear the latch |
| Npc.NewDayAllowsTalk | Assets/Script/NPCCharacter.cs:21-37 | after a new day's reset one more talk raises the relationship by v |
| Npc.NPCCharacter.Start | Assets/Script/NPCCharacter.cs:15-19 | the agent subscribes to the clock and `ResetTalkState` is attached to its tick |
| Npc.NPCCharacter.IncreaseRelationship | Assets/Script/NPCCharacter.cs:21-28 | the state becomes `Increase` of the old state |
| Npc.NPCCharacter.ResetTalkState | Assets/Script/NPCCharacter.cs:30-37 | the state becomes `Reset` of the old state at the clock's day |
| ClassInfo.NewClass | Assets/Class.cs:15-23 | the constructor stores every field, teacher and room defaulting to "" |
| ClassInfo.ActiveImpliesToday | Assets/Class.cs:25-33 | a class active now is a class of today |
| ClassInfo.ActiveAtBothEnds | Assets/Class.cs:25-28 | the active window includes both the start and the end hour |
| ClassInfo.HourMinuteShape | Assets/Class.cs:35-43 | for an hour in [0,100) the label is two hour digits, ':', and two minute digits of a minute below 60 |
| ClassInfo.TimeStringExample | Assets/Class.cs:35-43 | 8.5 to 10 reads "08:30 - 10:00" |
| Attendance.FirstClassFor | Assets/AttendanceRecord.cs:44-56 | the result is the first weekly class with that name on that weekday; None exactly when there is none |
| Attendance.RecordHoursNonNegative | Assets/AttendanceRecord.cs:44-56 | a record is worth at least 0 hours when no class ends before it starts |
| Attendance.AttendedAtMostTotal | Assets/AttendanceRecord.cs:36-90 | attended hours lie between 0 and the recorded hours |
| Attendance.AttendedAtMostTotalWithTimetable | Assets/AttendanceRecord.cs:36-90 | the same with the timetable possibly missing (both tallies 0 then) |
| Attendance.PercentageBounds | Assets/AttendanceRecord.cs:92-103 | the percentage lies in [0, 100] and is 100 when every recorded hour was attended |
| Attendance.OtherClassesIgnored | Assets/AttendanceRecord.cs:36-90 | a record of another class changes neither tally |
| Attendance.GetDayNumber | Assets/AttendanceRecord.cs:156-169 | Monday..Saturday are 1..6 and Sunday is 7 |
| Attendance.GetDayNumberInjective | Assets/AttendanceRecord.cs:156-169 | two weekdays with the same number are the same day |
| Attendance.OccurredStaysOccurred | Assets/AttendanceRecord.cs:135-153 | a class that has occurred stays occurred later in the same day |
| Attendance.SundayClosesWeek | Assets/AttendanceRecord.cs:135-169 | a Sunday class has occurred exactly on Sunday at or after its end |
| Attendance.OccurredCountBound | Assets/AttendanceRecord.cs:107-132 | the occurred count never exceeds the number of weekly classes |
| Attendance.RecordsForMembers | Assets/AttendanceRecord.cs:172-181 | a record is selected exactly when it is a record of that class |
| Attendance.RecordsForCount | Assets/AttendanceRecord.cs:172-181 | every matching record is kept as often as it occurs |
| Attendance.AttendanceData.constructor | Assets/AttendanceRecord.cs:27 | the record list starts empty |
| Attendance.AttendanceData.AddRecord | Assets/AttendanceRecord.cs:29-33 | the record is appended |
| Attendance.AttendanceData.ClearAllRecords | Assets/AttendanceRecord.cs:184-188 | the record list becomes empty |
| Attendance.AttendanceData.ClassHoursFor | Assets/AttendanceRecord.cs:44-56 | the inner loop yields the rounded length of the first matching weekly class, or 0 |
| Attendance.AttendanceData.GetAttendanceCount | Assets/AttendanceRecord.cs:36-62 | the result is the tally of attended hours of the class (0 without a timetable) |
| Attendance.AttendanceData.GetTotalClassCount | Assets/AttendanceRecord.cs:64-90 | the result is the tally of all recorded hours of the class (0 without a timetable) |
| Attendance.AttendanceData.GetAttendancePercentage | Assets/AttendanceRecord.cs:92-103 | for any timetable the result is attended/total·100, and 0 without recorded hours; it lies within [0, 100] whenever no class of the timetable ends before it starts |
| Attendance.AttendanceData.GetClassesOccurredCount | Assets/AttendanceRecord.cs:107-132 | 0 without a clock or timetable, else the number of classes of that name already over this week |
| Attendance.AttendanceData.GetRecordsForClass | Assets/AttendanceRecord.cs:172-181 | the result is exactly the records of that class, in order |
| Timetable.FirstActive | Assets/TimetableManager.cs:609-623 | the first class in list order active now; None exactly when none is |
| Timetable.FirstAttendable | Assets/TimetableManager.cs:813-840 | the first class of today whose first half contains the hour; None exactly when there is none |
| Timetable.AttendableIsActive | Assets/TimetableManager.cs:813-840 | a class in its attendance window is also active |
| Timetable.ClassesOnMembers | Assets/TimetableManager.cs:625-640 | a class is among the day's classes exactly when it is in the timetable on that weekday |
| Timetable.InsertByStartSorted | Assets/TimetableManager.cs:638 | inserting into a list sorted by start time keeps it sorted |
| Timetable.SortByStart | Assets/TimetableManager.cs:638 | the result is sorted by start time and a permutation of the input |
| Timetable.JumpLandsOnEnd | Assets/TimetableManager.cs:765-775 | jumping forward by end minus the current hour lands the clock exactly on the class end |
| Timetable.GroupByDay | Assets/TimetableManager.cs:418-436 | a weekday is a key exactly when it has classes, and maps to those classes in list order |
| Timetable.TimetableManager.constructor | Assets/TimetableManager.cs:24-34 | no classes, the shared attendance data, an update interval of 1 second |
| Timetable.TimetableManager.SetUpdateInterval | Assets/TimetableManager.cs:172-182 | the interval becomes max(1, interval) |
| Timetable.TimetableManager.RecordAttendance | Assets/TimetableManager.cs:592-607 | without a clock nothing is recorded; else one record stamped with weekday, day number and hour is appended |
| Timetable.TimetableManager.GetCurrentClass | Assets/TimetableManager.cs:609-623 | None without a clock, else the first class active now |
| Timetable.TimetableManager.GetTodaysClasses | Assets/TimetableManager.cs:625-640 | empty without a clock, else exactly today's classes sorted by start time |
| Timetable.TimetableManager.AddClass | Assets/TimetableManager.cs:647-651 | the class is appended |
| Timetable.TimetableManager.RemoveClass | Assets/TimetableManager.cs:653-657 | the first equal class is removed |
| Timetable.TimetableManager.GetCurrentAttendableClass | Assets/TimetableManager.cs:813-840 | the result is the first attendable class |
| Timetable.TimetableManager.TimetableColumns | Assets/TimetableManager.cs:418-453 | one column per weekday Monday..Friday, each that day's classes sorted by start time |
| Timetable.TimetableManager.AttendanceSlotNames | Assets/TimetableManager.cs:455-477 | one slot per distinct class name, no name twice |
| AttendanceTracking.KeyDayOfClassKey | Assets/AutomaticAttendanceTracker.cs:94-97 | every key reads back the day number it was made for, whatever '_' the class name holds |
| AttendanceTracking.ClassKeyNotStaleToday | Assets/AutomaticAttendanceTracker.cs:166-191 | a key made for today or later is never stale |
| AttendanceTracking.AsWrittenAgreesWithoutUnderscore | Assets/AutomaticAttendanceTracker.cs:166-191 | for a class name without '_' the third-field parse reads the right day number |
| AttendanceTracking.AsWrittenDropsTodaysKey | Assets/AutomaticAttendanceTracker.cs:166-191 | as written, today's key of class "Lab_Part_1" on day 5 reads as stale |
| AttendanceTracking.SplitThirdField | Assets/AutomaticAttendanceTracker.cs:173-176 | splitting on '_' yields the third field when the first three fields hold no '_' |
| AttendanceTracking.LastAbsent | Assets/AutomaticAttendanceTracker.cs:127-159 | the index of the latest absent record of this class occurrence; None exactly when there is none |
| AttendanceTracking.ToPresent | Assets/AutomaticAttendanceTracker.cs:127-159 | only that latest absent record changes, to attended at the current hour; none means no change |
| AttendanceTracking.SweepAppendsAbsent | Assets/AutomaticAttendanceTracker.cs:43-92 | the automatic check only appends records, every one of them absent |
| AttendanceTracking.SweepKeepsKeys | Assets/AutomaticAttendanceTracker.cs:43-92 | the check never forgets a tracked key |
| AttendanceTracking.SweepTracksStarted | Assets/AutomaticAttendanceTracker.cs:43-92 | afterwards every class of today that has started is tracked |
| AttendanceTracking.SweepOfTrackedIsNoop | Assets/AutomaticAttendanceTracker.cs:43-92 | a check in which every started class is tracked changes nothing |
| AttendanceTracking.CleanupKeepsToday | Assets/AutomaticAttendanceTracker.cs:166-191 | the cleanup keeps every key of the current day |
| AttendanceTracking.CheckTwiceRecordsOnce | Assets/AutomaticAttendanceTracker.cs:43-92 | a second check on the same day at the same hour adds no record: absent is recorded once per occurrence |
| AttendanceTracking.AsWrittenCheckForgets | Assets/AutomaticAttendanceTracker.cs:43-92 | as written, a started class whose key parses as stale gets a new absent record and its key is dropped again |
| AttendanceTracking.AsWrittenRecordsAbsentTwice | Assets/AutomaticAttendanceTracker.cs:43-92 | as written, two checks of "Lab_Part_1" at the same hour leave two absent records |
| AttendanceTracking.ManualMarkAttends | Assets/AutomaticAttendanceTracker.cs:193-268 | inside the window of an unattended class the class ends up attended (unless its records were cleared) |
| AttendanceTracking.ManualMarkWithoutRecord | Assets/AutomaticAttendanceTracker.cs:193-268 | a tracked occurrence whose records were cleared is left unchanged |
| AttendanceTracking.ManualMarkNoop | Assets/AutomaticAttendanceTracker.cs:193-268 | outside the window or already attended, marking changes nothing |
| AttendanceTracking.AutomaticAttendanceTracker.constructor | Assets/AutomaticAttendanceTracker.cs:9-12 | both dictionaries start empty and the window is 15 minutes |
| AttendanceTracking.AutomaticAttendanceTracker.SetAttendanceWindow | Assets/AutomaticAttendanceTracker.cs:324-327 | the window is stored |
| AttendanceTracking.AutomaticAttendanceTracker.HasAttendedClass | Assets/AutomaticAttendanceTracker.cs:107-125 | true exactly when an attended record of this occurrence exists |
| AttendanceTracking.AutomaticAttendanceTracker.UpdateAttendanceToPresent | Assets/AutomaticAttendanceTracker.cs:127-159 | the records become `ToPresent` of the old records |
| AttendanceTracking.AutomaticAttendanceTracker.CleanupOldEntries | Assets/AutomaticAttendanceTracker.cs:166-191 | exactly the stale keys are removed from both dictionaries, reading the day from the last '_' field |
| AttendanceTracking.AutomaticAttendanceTracker.CheckClasses | Assets/AutomaticAttendanceTracker.cs:51-88 | the state becomes the sweep of the weekly classes at the clock's day and hour |
| AttendanceTracking.AutomaticAttendanceTracker.CheckClass | Assets/AutomaticAttendanceTracker.cs:53-86 | one class of the sweep: a class of today that has started and is not yet checked is marked checked with its start time and recorded absent; anything else leaves the state as it was |
| AttendanceTracking.AutomaticAttendanceTracker.CheckAndUpdateAttendance | Assets/AutomaticAttendanceTracker.cs:43-92 | the state becomes the sweep followed by the corrected cleanup `Cleanup`, which reads the day number from the last `_` field of each key (see "## Findings") |
| AttendanceTracking.AutomaticAttendanceTracker.MarkAttendanceManually | Assets/AutomaticAttendanceTracker.cs:193-268 | nothing without a clock, else the state becomes `ManualMark` of the old state |
| AttendanceTracking.AutomaticAttendanceTracker.CanAttendClass | Assets/AutomaticAttendanceTracker.cs:271-315 | false without a clock, else inside the first class's window and not yet attended |
| AttendanceTracking.RecordAttendanceWithEffects | Assets/TimetableManager.cs:717-797 | the time scale is restored, the clock jumps to the class end when that is ahead, and the attendance is recorded directly or through the tracker |
| OptionDialogue.SessionClass | Assets/OptionDialogueSystem.cs:180-235 | the first class of today that started at most an hour ago; None exactly when none did |
| OptionDialogue.NonClassOptionSelectable | Assets/OptionDialogueSystem.cs:127-178 | an option that does not mention classes can always be picked |
| OptionDialogue.RequirementsNeverBlock | Assets/OptionDialogueSystem.cs:127-155 | requirements never change whether an option can be picked, since every requirement passes |
| OptionDialogue.ClassOptionNeedsSession | Assets/OptionDialogueSystem.cs:157-178 | a class-related option can be picked exactly while a class is in session |
| OptionDialogue.ClassRelatedExamples | Assets/OptionDialogueSystem.cs:163-169 | the keyword test ignores case and matches inside words: "CLASSROOM" is class-related, "Rest" is not |
| OptionDialogue.IsClassInSession | Assets/OptionDialogueSystem.cs:180-208 | true exactly when clock and timetable exist and some class is in its session window |
| OptionDialogue.GetCurrentClassName | Assets/OptionDialogueSystem.cs:211-235 | "" outside a session, else the name of the first class in session |
| OptionDialogue.FindSessionClass | Assets/OptionDialogueSystem.cs:180-235 | the shared scan finds a class exactly when one is in session, and returns its name |
| OptionDialogue.CurrentNameEmptyIffNoSession | Assets/OptionDialogueSystem.cs:211-235 | with named classes the name is "" exactly when no class is in session |
| OptionDialogue.CheckClassTimeRequirement | Assets/OptionDialogueSystem.cs:157-178 | true exactly for non-class options or while a class is in session |
| OptionDialogue.CanSelectOption | Assets/OptionDialogueSystem.cs:127-147 | the verdict is `Selectable` with the current session |
| OptionDialogue.OnOptionSelected | Assets/OptionDialogueSystem.cs:249-268 | out-of-range picks do nothing; otherwise the action set's listeners for the option run and the dialogue concludes exactly when the option closes it |
| OptionDialogue.KeySelections | Assets/OptionDialogueSystem.cs:283-304 | picks are increasing, below 9, interactable and with their key down; only the last pick may close the dialogue |
| OptionDialogue.NoKeysNoSelection | Assets/OptionDialogueSystem.cs:288-297 | without number keys nothing is picked |
| OptionDialogue.NumberKeySelection | Assets/OptionDialogueSystem.cs:288-297 | the button scan picks exactly `KeySelections` |
| DialogueActions.Resized | Assets/DialogueActionHandler.cs:78-89 | the list gets length n, keeps its first entries and is padded with fresh events |
| DialogueActions.ResizedIdempotent | Assets/DialogueActionHandler.cs:78-89 | resizing twice to a count is resizing once |
| DialogueActions.ResizedToSameCount | Assets/DialogueActionHandler.cs:78-89 | resizing to the current count changes nothing |
| DialogueActions.LastIndexOf | Assets/DialogueActionHandler.cs:19-29 | the last position of the id; None exactly when it is absent |
| DialogueActions.LastIndexOfSnoc | Assets/DialogueActionHandler.cs:19-29 | extending the scanned prefix by one entry moves the last position to it when it matches |
| DialogueActions.DialogueActionSet.constructor | Assets/DialogueActionHandler.cs:71-75 | empty id and description, no actions |
| DialogueActions.DialogueActionSet.ResizeActionList | Assets/DialogueActionHandler.cs:78-89 | the actions become `Resized` of the old ones |
| DialogueActions.IdsOf | Assets/DialogueActionHandler.cs:19-29 | the ids of the sets, position by position |
| DialogueActions.DialogueActionHandler.constructor | Assets/DialogueActionHandler.cs:8-11 | the sets are stored and the lookup starts empty |
| DialogueActions.DialogueActionHandler.BuildActionLookup | Assets/DialogueActionHandler.cs:19-29 | every non-empty id of a set is a key, and no other; it maps to the last set with that id |
| DialogueActions.DialogueActionHandler.ExecuteOptionAction | Assets/DialogueActionHandler.cs:31-48 | an unknown id or index runs nothing; otherwise the option's listeners run |
| DialogueActions.DialogueActionHandler.GetActionSet | Assets/DialogueActionHandler.cs:51-55 | the set of the id, or null when it is unknown |
| Tutor.DefaultSchedule | Assets/TutorController.cs:152-163 | with the defaults the tutor is scheduled exactly on day 45 (`days == 44`) from 08:00 up to 10:00 |
| Tutor.EndHourExcluded | Assets/TutorController.cs:152-163 | the end hour itself is outside the schedule |
| Tutor.Checked | Assets/TutorController.cs:86-100 | with an object the flag ends equal to the schedule; nothing changes without an object or when the flag already agrees |
| Tutor.CheckIdempotent | Assets/TutorController.cs:86-100 | a second check at an unchanged time changes nothing |
| Tutor.TutorController.constructor | Assets/TutorController.cs:9-15 | day 45, 8 to 10, no clock, no object, inactive |
| Tutor.TutorController.ActivateTutor | Assets/TutorController.cs:102-110 | with an object it becomes visible and active, else nothing changes |
| Tutor.TutorController.DeactivateTutor | Assets/TutorController.cs:112-120 | with an object it becomes hidden and inactive, else nothing changes |
| Tutor.TutorController.CheckTutorSchedule | Assets/TutorController.cs:86-100 | the state becomes `Checked` of the old state at the schedule |
| Tutor.TutorController.CheckAndSetInitialTutorState | Assets/TutorController.cs:56-70 | with clock and object both visibility and flag match the schedule, else nothing changes |
| QuizUtility.GetLetterGrade | Assets/QuizUtility.cs:26-33 | "A" exactly from 90, "B" exactly in [80,90), "C" in [70,80), "D" in [60,70), "F" exactly below 60 |
| QuizUtility.LetterGradeMonotone | Assets/QuizUtility.cs:26-33 | a higher percentage never yields a worse letter |
| QuizUtility.RatioInUnit | Assets/QuizUtility.cs:35-41 | a score within its positive maximum gives a ratio in [0, 1] |
| QuizUtility.FinalGradeBounds | Assets/QuizUtility.cs:35-41 | scores within their maxima give a final grade in [0, 100] |
| QuizUtility.FullMarksGiveA | Assets/QuizUtility.cs:26-41 | full marks on both exams give exactly 100, an "A" |
| QuizUtility.FinalWeighsMore | Assets/QuizUtility.cs:35-41 | the 70% final weighs more than the 30% midterm: losing d points there costs more |
| Quiz.Filtered | Assets/QuizManager.cs:294-300 | exactly the questions of the exam type are kept, and no more than there were |
| Quiz.SumScoresNonNegative | Assets/QuizManager.cs:302-311 | with non-negative points the maximum score is non-negative |
| Quiz.ExamMaximaPartition | Assets/QuizManager.cs:294-311 | the midterm and final maxima add up to the whole bank's points, and their question counts to its size |
| Quiz.Toggle | Assets/QuizManager.cs:337-348 | an unpicked answer is appended; a picked one has one occurrence removed |
| Quiz.NoDuplicatesCount | Assets/QuizManager.cs:337-348 | a list without duplicates holds each value at most once |
| Quiz.ToggleMembership | Assets/QuizManager.cs:337-348 | toggling flips the membership of that answer and keeps every other |
| Quiz.ToggleTwice | Assets/QuizManager.cs:337-348 | picking an unpicked answer twice restores the picks exactly |
| Quiz.Except | Assets/QuizManager.cs:598-612 | exactly the entries of the first list absent from the second |
| Quiz.SetOf | Assets/QuizManager.cs:598-612 | exactly the values of the list |
| Quiz.ExceptBothEmpty | Assets/QuizManager.cs:598-612 | both differences are empty exactly when the two lists hold the same values |
| Quiz.CompareAnswers | Assets/QuizManager.cs:593-612 | true exactly when something is picked and the picked values are the correct values |
| Quiz.CompareAnswersExamples | Assets/QuizManager.cs:593-612 | order and repetition do not matter; no pick is never right; a missing answer is wrong |
| Quiz.GetExamResults | Assets/QuizManager.cs:670-695 | scores only for completed exams, the grade and its letter only when both are completed |
| Quiz.CompletionRecorded | Assets/QuizManager.cs:424-473 | completing stores the score and sets the flag of that exam, leaving the other exam's flag |
| Quiz.FinalAfterMidtermGivesGrade | Assets/QuizManager.cs:424-490 | finishing the final after the midterm stores the weighted grade, which the results report with its letter |
| Quiz.MidtermAloneNoGrade | Assets/QuizManager.cs:424-490 | completing the midterm alone stores only its score and flag, and no grade |
| Quiz.ResetClearsResults | Assets/QuizManager.cs:651-695 | after the reset nothing is completed and every result is 0 or "" |
| Quiz.ExamGating | Assets/QuizManager.cs:107-164 | the final cannot start on fresh prefs; no exam starts again once completed; after the midterm the final may start |
| Quiz.SomeIndexUnused | Assets/QuizManager.cs:580-591 | while fewer questions are finished than exist, some index is unused |
| Quiz.QuizManager.constructor | Assets/QuizManager.cs:67-102 | the bank is loaded, the midterm's questions are selected and summed, no exam is running |
| Quiz.QuizManager.FilterQuestionsByExamType | Assets/QuizManager.cs:294-300 | an empty bank keeps the old selection, otherwise the exam's questions are selected |
| Quiz.QuizManager.CalculateMaxScore | Assets/QuizManager.cs:302-311 | the maximum is the selected questions' points added up |
| Quiz.QuizManager.AddUpScores | Assets/QuizManager.cs:302-311 | the loop adds each question's points in turn and ends with their sum |
| Quiz.QuizManager.UpdateAnswers | Assets/QuizManager.cs:321-349 | ignored outside an exam; a single-answer question keeps only the new answer; a multi-answer one toggles it |
| Quiz.QuizManager.EraseAnswers | Assets/QuizManager.cs:351-361 | the picks become empty |
| Quiz.QuizManager.GetRandomQuestionIndex | Assets/QuizManager.cs:580-591 | an unfinished index while questions remain, else 0 |
| Quiz.QuizManager.Display | Assets/QuizManager.cs:363-385 | during an exam the picks are cleared and an unfinished question is shown while one remains |
| Quiz.QuizManager.StartExam | Assets/QuizManager.cs:258-292 | a running exam is left alone (no field changes); otherwise `FreshRun`: a zero score, nothing finished or picked, the exam's questions selected and summed, and a valid current question |
| Quiz.QuizManager.StartMidtermExam | Assets/QuizManager.cs:107-131 | refused, with every field unchanged, once the midterm is completed; otherwise the midterm becomes the exam type and, unless an exam is running (then nothing else changes), starts as a `FreshRun` |
| Quiz.QuizManager.StartFinalExam | Assets/QuizManager.cs:133-164 | refused, with every field unchanged, before the midterm is completed and once the final is; otherwise the final becomes the exam type and, unless an exam is running (then nothing else changes), starts as a `FreshRun` |
| Quiz.QuizManager.CompleteExam | Assets/QuizManager.cs:424-473 | the prefs become `CompletedPrefs` of the old prefs |
| Quiz.QuizManager.CalculateAndSaveFinalGrade | Assets/QuizManager.cs:475-490 | with non-zero maxima the weighted grade of the stored scores is saved, otherwise nothing |
| Quiz.QuizManager.Accept | Assets/QuizManager.cs:387-422 | the question is finished, its points are added when the picks are correct, and the exam completes once all are finished |
| Quiz.QuizManager.ResetAllExams | Assets/QuizManager.cs:651-666 | every exam key is deleted |
| Endings.GradeToNumeric | Assets/EndingManager.cs:293-304 | every grade scores between 0 and 4 |
| Endings.GradeValues | Assets/EndingManager.cs:293-304 | A..D score 4..1 in either case; F, other letters and "" score 0 |
| Endings.GradeRankFollowsPercentage | Assets/EndingManager.cs:284-304 | a higher percentage's letter is at least the lower one's, and the two grade scales agree |
| Endings.DeadlineRule | Assets/EndingManager.cs:176-206 | the rule the deadline check applies, stated through the completion flags of `Prefs`: missed exactly when the exam is not completed and its day and hour are reached; `DefaultDeadlines` gives the concrete days |
| Endings.DeadlineStaysMissed | Assets/EndingManager.cs:176-206 | a missed deadline stays missed at every later day and hour while the exam stays undone, so the fast-food ending cannot be escaped by waiting |
| Endings.DefaultDeadlines | Assets/EndingConditions.cs:42-55 | with the defaults a completed midterm is never missed, an undone one is missed from 10:00 on day 45, the final from day 91 |
| Endings.NinetyDayEndingDefaults | Assets/EndingManager.cs:208-245 | one of three endings: successful on money, earnings and an A; officer on earnings and at least C; else fast food |
| Endings.LowEarningsFastFood | Assets/EndingConditions.cs:42-55 | below 20000 earned every 90-day run ends in fast food |
| Endings.FinalLetterFromExams | Assets/EndingManager.cs:247-282 | without the midterm the grade is F; after both exams it is the letter the quiz results report |
| Endings.FallbackReadsNoIntScores | Assets/EndingManager.cs:264-276 | the fallback reads the int scores as floats and so weighs two zeros |
| Endings.HappinessLossEnding | Assets/Script/Character.cs:87-95 | as written a healthy character losing all happiness stays alive; corrected it dies and gets the mental-illness ending |
| Endings.EndingLookupDomain | Assets/EndingManager.cs:41-48 | the lookup knows exactly the types in the list |
| Endings.EndingLookupFirst | Assets/EndingManager.cs:41-48 | a type maps to its first entry |
| Endings.FirstEntryWins | Assets/EndingManager.cs:41-48 | with a duplicated type the first entry wins |
| Endings.EndingManager.constructor | Assets/EndingManager.cs:21-35 | day 1 of 90, no ending triggered, the default thresholds |
| Endings.EndingManager.Awake | Assets/EndingManager.cs:38-63 | the dictionary is the lookup of the list |
| Endings.EndingManager.TriggerEnding | Assets/EndingManager.cs:306-322 | the first call latches and records its type; a known type starts its sequence (`PlayedFor`); later calls change nothing |
| Endings.EndingManager.GetFinalGrade | Assets/EndingManager.cs:247-282 | the letter of the stored or fallback grade; the prefs become `GradeStored` of the old prefs: the fallback is stored only when both exams are done and no total is saved |
| Endings.GradeStoredKeepsLetter | Assets/EndingManager.cs:247-282 | storing the fallback grade does not change the letter reported, and a second call stores nothing more |
| Endings.EndingManager.Check90DayEndings | Assets/EndingManager.cs:208-245 | the prefs become `GradeStored` of the old prefs; unless an ending was already triggered, the 90-day ending for the money, earnings and final letter is requested and its sequence started (`PlayedFor`) |
| Endings.EndingManager.IncrementDay | Assets/EndingManager.cs:88-98 | the day goes up by one; from `maxDays` on, unless an ending was triggered, the 90-day ending is requested and started and the prefs become `GradeStored`; otherwise nothing else changes |
| Endings.EndingManager.CheckForEndings | Assets/EndingManager.cs:105-126 | the request is `CheckedEnding`: a dead character gets a death ending, health first; a living one gets the street ending when bill checks are on and a bill has lapsed; the requested ending's sequence is started, and without a request nothing changes |
| Endings.EndingManager.CheckExpiredBillsCondition | Assets/EndingManager.cs:128-152 | the street ending is requested and started exactly when a bill has lapsed, otherwise nothing changes |
| Endings.EndingManager.CheckExaminationDeadlines | Assets/EndingManager.cs:154-174 | a missed deadline requests and starts the fast-food ending, otherwise nothing changes |
| Endings.EndingManager.Update | Assets/EndingManager.cs:74-86 | once an ending is triggered nothing changes; otherwise the frame requests `FrameRequest` of `CheckedEnding` (none without a character) and `DeadlineMissed`, starts that ending, or changes nothing when there is none |
| Endings.FrameRequestPriority | Assets/EndingManager.cs:74-126 | in a frame a death outranks everything and a lapsed bill outranks a missed deadline; a living character without lapsed bills gets fast food exactly when a deadline is missed |
| Money.Currency.constructor | Assets/Script/Currency.cs:8 | the serialized amount is stored |
| Money.Currency.Start | Assets/Script/Currency.cs:11-15 | the amount becomes 1000 |
| Money.Currency.Add | Assets/Script/Currency.cs:22-26 | the gain is added without any clamp |
| Money.Currency.Decrease | Assets/Script/Currency.cs:33-41 | the price is subtracted and the amount clamped at 0; an affordable price is subtracted exactly |
| Money.Currency.SetAmount | Assets/Script/Currency.cs:50-58 | the amount becomes max(new amount, 0) |
| Bills.ExpireLabelMatchesExpiry | Assets/Bill.cs:92-115 | the label reads "EXPIRED" exactly when the bill is expired, and "PAID" exactly when it is paid |
| Bills.Bill.constructor | Assets/Bill.cs:18-27 | "New Bill", 100, no icon, 30 days, created on day 0, unpaid |
| Bills.Bill.Start | Assets/Bill.cs:35-53 | with a clock the creation day becomes the current day, else it is kept |
| Bills.Bill.IsExpired | Assets/Bill.cs:148-155 | never without a clock and never for a paid bill; with a clock, true exactly when the bill's label would read "EXPIRED" |
| Bills.Bill.Initialize | Assets/Bill.cs:61-75 | the new data is stored, unpaid, created today when there is a clock |
| Bills.Bill.MarkAsPaid | Assets/Bill.cs:157-161 | the bill is paid and so never expired on any clock |
| Bills.Bill.LoadFromData | Assets/Bill.cs:173-197 | every saved field is restored, so the saved data reads back; the icon is kept |
| Bills.Bill.OnPayButtonClicked | Assets/Bill.cs:138-146 | a paid or expired bill ignores the button; otherwise the bill is paid exactly when the money suffices, and the money drops by its amount |
| Bills.CleanedMembers | Assets/BillPanel.cs:191-213 | the cleanup keeps exactly the bills that are not overdue, and never adds one |
| Bills.CleanupStep | Assets/BillPanel.cs:191-213 | one step of the backward sweep drops bill i exactly when it is overdue |
| Bills.LapsedCountPositive | Assets/BillPanel.cs:288-312 | the expired count is positive exactly when some bill is expired |
| Bills.CountsBounded | Assets/BillPanel.cs:249-312 | unpaid and expired bills are disjoint and together no more than all bills |
| Bills.CriticalIsLapsed | Assets/BillPanel.cs:329-348 | with a clock and a non-negative grace period a critical bill is an expired one |
| Bills.CriticalWithoutClock | Assets/BillPanel.cs:329-348 | without a clock no bill is expired, yet a bill whose expiry day is before day -7 counts as critical |
| Bills.BillPanel.constructor | Assets/BillPanel.cs:21-22 | no active bills, the given currency |
| Bills.BillPanel.ProcessPayment | Assets/BillPanel.cs:90-125 | only an unpaid, unexpired, affordable bill is paid, and then the balance drops by its amount |
| Bills.BillPanel.AddBill | Assets/BillPanel.cs:159-177 | with a prefab one new, initialized bill is appended, otherwise nothing changes |
| Bills.BillPanel.CleanupExpiredBills | Assets/BillPanel.cs:191-213 | the bills become `Cleaned` of the old bills |
| Bills.BillPanel.GetUnpaidBillCount | Assets/BillPanel.cs:249-260 | the number of unpaid, unexpired bills |
| Bills.BillPanel.GetTotalUnpaidAmount | Assets/BillPanel.cs:262-273 | the sum of their amounts |
| Bills.BillPanel.HasExpiredBills | Assets/BillPanel.cs:288-298 | true exactly when some bill is expired, i.e. the expired count is positive |
| Bills.BillPanel.GetExpiredBillCount | Assets/BillPanel.cs:301-312 | the number of expired bills |
| Bills.BillPanel.GetTotalExpiredAmount | Assets/BillPanel.cs:315-326 | the sum of their amounts |
| Bills.BillPanel.HasCriticalExpiredBills | Assets/BillPanel.cs:329-348 | true exactly when some unpaid bill is more than the grace period past its expiry day |
| Bills.BillPanel.ClearAllBills | Assets/BillPanel.cs:374-385 | no bills remain |
| Items.Item.constructor | Assets/Script/Data/Item.cs:17-29 | an ordinary item: the given name, stackability, saleability and price, type `Item` (here `General`) |
| Items.Item.Stock | Assets/Stock.cs:9-18 | a stock asset with the inspector defaults: base price, volatility 0.05, active, empty history bounded by 30 |
| Items.Item.OnEnable | Assets/Stock.cs:22-31 | the type becomes `Stock` (here `Share`); both prices start at the base price only when the current price is unset |
| Items.Item.UpdatePrice | Assets/Stock.cs:33-46 | the old price becomes the previous one, and the history takes the new price within its bound |
| Items.PushBounded | Assets/Stock.cs:38-42 | the new price is last, a history within its bound stays within it, and the result is a suffix of history + [price] |
| Items.HistoryHoldsLatest | Assets/Stock.cs:33-46 | starting within the bound, after any series of prices the history is exactly the latest `maxHistoryLength` prices |
| Items.DailyChangeSign | Assets/Stock.cs:48-57 | for a positive previous price, "up today" and a positive change agree, and no change means 0 percent |
| Items.Item.GetDailyChangePercent | Assets/Stock.cs:48-52 | 0 without a previous price; with a positive one, positive exactly when the price rose and 0 exactly when it is unchanged |
| Items.Item.IsUpToday | Assets/Stock.cs:54-57 | with a positive previous price, up today exactly when the daily change is positive |
| Items.AddChangesTotals | Assets/Script/Trading.cs:64 | the `ItemContainer.Add` the purchases call adds exactly `count` of the item when it finds a place, and no other item's total changes |
| DragDrop.ClickConserves | Assets/Script/ItemDragAndDropController.cs:51-68 | a click moves items between hand and slot and creates or destroys none; an empty hand takes the slot whole |
| DragDrop.ClickTwiceRestores | Assets/Script/ItemDragAndDropController.cs:51-68 | two clicks on a slot while holding something give back the hand and the slot |
| DragDrop.ItemDragAndDropController.constructor | Assets/Script/ItemDragAndDropController.cs:17-23 | the hand starts as a new, empty slot with the icon hidden |
| DragDrop.ItemDragAndDropController.OnClick | Assets/Script/ItemDragAndDropController.cs:51-68 | hand and slot become `Clicked` of the old hand and slot, and the icon shows exactly while something is held |
| DragDrop.ItemDragAndDropController.UpdateIcon | Assets/Script/ItemDragAndDropController.cs:79-91 | the icon shows exactly while something is held, and then the count label follows its rule |
| DragDrop.ItemDragAndDropController.UpdateCountDisplay | Assets/Script/ItemDragAndDropController.cs:93-107 | with a label, the count shows exactly for more than one item |
| DragDrop.ItemDragAndDropController.CheckForSale | Assets/Script/ItemDragAndDropController.cs:109-120 | a hand ready for sale holds something sellable, and a well-formed hand then holds at least one item |
| ItemPanels.QuietClicks | Assets/Script/ItemPanel.cs:116-230 | a click that does not act leaves slot and hand as they were |
| Common.HalfRoundedUp | Assets/Script/ItemPanel.cs:181 | `CeilToInt(n / 2f)` is half of n rounded up |
| ItemPanels.RightClickSplits | Assets/Script/ItemPanel.cs:166-196 | an empty hand right-clicking a stack of n takes ceil(n/2) and leaves floor(n/2) |
| ItemPanels.LeftClickConserves | Assets/Script/ItemPanel.cs:116-163 | left clicks neither create nor destroy items |
| ItemPanels.RightClickConserves | Assets/Script/ItemPanel.cs:166-230 | right clicks neither create nor destroy items on well-formed slots |
| ItemPanels.ClicksKeepWellFormed | Assets/Script/ItemPanel.cs:116-230 | both clicks keep slots well formed: an item with a positive count, or nothing with 0 |
| ItemPanels.LeftClickTwiceRestores | Assets/Script/ItemPanel.cs:116-163 | taking a stack and putting it back, or swapping twice, restores both sides |
| ItemPanels.TakeHalfThenPutBack | Assets/Script/ItemPanel.cs:116-196 | taking half a stack with a right click and dropping it back with a left click restores the stack |
| ItemPanels.ItemPanel.constructor | Assets/Script/ItemPanel.cs:13 | the inventory is stored |
| ItemPanels.ItemPanel.OnLeftClick | Assets/Script/ItemPanel.cs:116-163 | slot and hand become `LeftClick` of the old ones, and the inventory is marked dirty exactly when the click acts |
| ItemPanels.ItemPanel.OnRightClick | Assets/Script/ItemPanel.cs:166-230 | slot and hand become `RightClick` of the old ones, and the inventory is marked dirty exactly when the click acts |
| Toolbar.ScrollStaysOnToolbar | Assets/Script/ToolbarController.cs:58-67 | scrolling keeps the selection on the toolbar |
| Toolbar.ScrollRoundTrip | Assets/Script/ToolbarController.cs:58-67 | scrolling up then down, or down then up, comes back to the same tool |
| Toolbar.FirstKey | Assets/Script/ToolbarController.cs:72-80 | the lowest pressed number key of the range; None exactly when none is pressed |
| Toolbar.KeySelects | Assets/Script/ToolbarController.cs:52-81 | the selection stays on the toolbar; a key wins over the wheel and selects at most the tool to its left |
| Toolbar.ToolbarController.constructor | Assets/Script/ToolbarController.cs:8-9 | seven tools, the first selected, nothing announced |
| Toolbar.ToolbarController.Set | Assets/Script/ToolbarController.cs:30-35 | the index is stored as given and announced |
| Toolbar.ToolbarController.Update | Assets/Script/ToolbarController.cs:52-81 | the selection becomes `Selected` of the frame's input, with one announcement per scroll and per key |
| Trading.PartialQuantity | Assets/Script/Trading.cs:104-109 | at least one item; half a stack of more than one, rounded up and fewer than the stack; otherwise one |
| Trading.BuyThenSellGains | Assets/Script/Store.cs:9-10 | with the default multipliers an item bought for p sells back for more, gaining at least half of p |
| Trading.Store.constructor | Assets/Script/Store.cs:9-10 | the multipliers start at 1.8 (buying from the player) and 1.0 (selling to the player) |
| Trading.Trader.constructor | Assets/Script/Trading.cs:13-22 | the money, the inventory and the hand are stored, with no store |
| Trading.Trader.BeginTrading | Assets/Script/Trading.cs:26-39 | the store is stored |
| Trading.Trader.StopTrading | Assets/Script/Trading.cs:41-53 | no store remains |
| Trading.Trader.BuyItem | Assets/Script/Trading.cs:55-73 | an empty store slot changes nothing (the source throws first); otherwise when the truncated price is affordable it is paid and one item is added, else nothing changes; the store keeps its stock |
| Trading.Trader.SellItem | Assets/Script/Trading.cs:75-95 | a saleable held stack earns the truncated gain and the hand is emptied, else nothing changes |
| Trading.Trader.BuyItemPartial | Assets/Script/Trading.cs:97-127 | half a stack (rounded up) or one item at the rounded price, when affordable, else nothing changes |
| Trading.Trader.SellItemPartial | Assets/Script/Trading.cs:129-157 | one held item earns the rounded unit price and the hand holds one fewer, else nothing changes |
| StockMarkets.StockMarket.constructor | Assets/StockMarket.cs:8-11 | the booth starts open with its stock list |
| StockMarkets.Reprice | Assets/StockMarketManager.cs:160-168 | one move of a stock: the old price becomes the previous one, the new price is the moved price floored at 1, the history takes it, and the item price is its rounding |
| StockMarkets.RandomMove | Assets/StockMarket.cs:118-127 | whatever change is drawn, the old price becomes the previous one and the stock ends `Priced` |
| StockMarkets.StockMarket.UpdateStockPrices | Assets/StockMarket.cs:104-135 | a closed booth changes nothing; an open one leaves every moving stock of its slots `Priced`, and its frame lets no other item change |
| StockMarkets.StockMarket.SetMarketStatus | Assets/StockMarket.cs:149-160 | the status is stored; opening with a clock re-prices every moving stock of the booth (`Priced`: at least 1, item price its rounding); otherwise no item changes |
| StockMarkets.StepRespectsHours | Assets/StockMarketManager.cs:51-87 | the market never opens out of hours nor closes in hours, and a frame records its day |
| StockMarkets.OncePerDay | Assets/StockMarketManager.cs:51-87 | over any frames of one day the market opens at most once and closes at most once |
| StockMarkets.RegisterKeepsList | Assets/StockMarketManager.cs:194-201 | registering keeps the list free of duplicates and null, keeps every stock and lists the new one |
| StockMarkets.SkipLandsOnOpening | Assets/StockMarketManager.cs:227-243 | the skip lands on the opening hour today or 24 hours later, moving forward by more than 0 and at most 24 hours |
| StockMarkets.StockMarketManager.constructor | Assets/StockMarketManager.cs:8-18 | open 9 to 17, closed, no latches, last checked day -1 |
| StockMarkets.StockMarketManager.UpdateAllStockMarkets | Assets/StockMarketManager.cs:110-123 | every booth takes the manager's status; an opening with a clock re-prices every booth's moving stocks, otherwise no booth item changes |
| StockMarkets.StockMarketManager.OpenMarket | Assets/StockMarketManager.cs:89-96 | the market is open, and so is every booth; with a clock every booth's moving stocks are re-priced |
| StockMarkets.StockMarketManager.CloseMarket | Assets/StockMarketManager.cs:98-108 | the market is closed, and so is every booth; no booth item changes |
| StockMarkets.StockMarketManager.CheckMarketStatus | Assets/StockMarketManager.cs:68-87 | nothing without a clock; else the state becomes `StatusChecked` at the hour, a change reaches every booth, an opening re-prices the booths' moving stocks, and otherwise no booth item changes |
| StockMarkets.StockMarketManager.GenerateOvernightPriceChanges | Assets/StockMarketManager.cs:152-171 | each active stock gets a price of at least 1 and an item price that is its rounding, with the old price as its previous price when no stock is listed twice; inactive stocks are unchanged |
| StockMarkets.StockMarketManager.NewTradingDay | Assets/StockMarketManager.cs:125-143 | every stock's previous price becomes its current price; while closed the active stocks then move overnight to at least 1, their previous price still the day's last price when no stock is listed twice; while open no price moves |
| StockMarkets.StockMarketManager.StartDay | Assets/StockMarketManager.cs:55-62 | a new day resets the latches and records the day (`DayRolled`) and carries the trading-day facts of `NewTradingDay`; the same day changes no stock |
| StockMarkets.StockMarketManager.Update | Assets/StockMarketManager.cs:51-66 | nothing without a clock; else the state becomes `Stepped` at the clock's day and hour; a new day's prices are those of `NewTradingDay` unless the market opens in the frame, an opening re-prices the booths' moving stocks, and a frame of the same day that does not open changes no price |
| StockMarkets.StockMarketManager.RegisterStock | Assets/StockMarketManager.cs:194-201 | the list becomes `Registered` of the old list |
| StockMarkets.StockMarketManager.SkipToMarketOpen | Assets/StockMarketManager.cs:227-243 | the clock moves forward by the skip hours in seconds |
| StockTrading.PortfolioValueBounds | Assets/StockTrading.cs:256-270 | with non-negative prices and counts the value is non-negative, and ordinary items add nothing |
| StockTrading.StockTrader.constructor | Assets/StockTrading.cs:12-22 | the money, inventory, portfolio and hand are stored, with no booth |
| StockTrading.StockTrader.BeginStockTrading | Assets/StockTrading.cs:31-53 | the booth is stored |
| StockTrading.StockTrader.BuyStock | Assets/StockTrading.cs:93-149 | while the booth trades, an affordable share is paid at its rounded price and added to the portfolio (or inventory); otherwise nothing changes |
| StockTrading.StockTrader.BuyStockPartial | Assets/StockTrading.cs:201-205 | the same as `BuyStock`: shares are bought one at a time |
| StockTrading.StockTrader.SellStock | Assets/StockTrading.cs:151-199 | while trading, held shares earn the rounded price times the stack (one for a non-stackable) and the hand is emptied |
| StockTrading.StockTrader.SellStockPartial | Assets/StockTrading.cs:207-254 | while trading, one held share earns its rounded price and the hand holds one fewer |
| StockTrading.StockTrader.GetPortfolioValue | Assets/StockTrading.cs:256-270 | the sum of price times count over the shares where bought shares go |
| CharacterStats.Stat.constructor | Assets/Script/Character.cs:13-17 | the maximum and current values are stored |
| CharacterStats.Stat.Subtract | Assets/Script/Character.cs:19-22 | the amount is subtracted with no lower clamp |
| CharacterStats.Stat.Addition | Assets/Script/Character.cs:24-32 | the amount is added, capped at the maximum |
| CharacterStats.Stat.SetToMax | Assets/Script/Character.cs:34-37 | the value becomes the maximum |
| CharacterStats.HappinessLossAsWrittenNeverKills | Assets/Script/Character.cs:87-95 | as written a healthy character never dies of unhappiness; with the happiness test one does, and the dead stay dead |
| CharacterStats.Character.constructor | Assets/Script/Character.cs:42-48 | two distinct stats, alive |
| CharacterStats.Character.DeductHealth | Assets/Script/Character.cs:65-73 | health drops by the amount and the character is dead exactly when it was or health is at most 0; happiness is kept |
| CharacterStats.Character.AddHealth | Assets/Script/Character.cs:75-79 | health rises, capped at its maximum; happiness and death are kept |
| CharacterStats.Character.FullHealth | Assets/Script/Character.cs:81-85 | health becomes its maximum; happiness and death are kept |
| CharacterStats.Character.DeductHappinessAsWritten | Assets/Script/Character.cs:87-95 | happiness drops by the amount, and death depends on health, as the source has it |
| CharacterStats.Character.DeductHappiness | Assets/Script/Character.cs:87-95 | the corrected version (see "## Findings"): happiness drops by the amount, and the character is dead exactly when it was or happiness is at most 0 |
| CharacterStats.Character.AddHappiness | Assets/Script/Character.cs:98-102 | happiness rises, capped at its maximum; health and death are kept |
| CharacterStats.Character.FullHappineess | Assets/Script/Character.cs:104-108 | happiness becomes its maximum, ignoring the argument; health and death are kept |
| CharacterLevels.LevelsUpOnceAtThreshold | Assets/Script/CharacterLevel.cs:40-58 | one call raises the level by one exactly when the new experience reaches level·1000, else keeps it; the level never falls |
| CharacterLevels.GainIsKept | Assets/Script/CharacterLevel.cs:23-58 | no experience is lost: the total earned grows by exactly the gain |
| CharacterLevels.SmallGainStaysNormal | Assets/Script/CharacterLevel.cs:40-58 | a gain of at most the next threshold keeps the experience below the threshold |
| CharacterLevels.NormalAfterGain | Assets/Script/CharacterLevel.cs:40-58 | a normal skill stays normal after a non-negative gain exactly when its experience plus the gain stays below the sum of this level's and the next level's thresholds |
| CharacterLevels.LargeGainBanked | Assets/Script/CharacterLevel.cs:46-52 | 5000 experience for a new skill levels up once and leaves 4000, past level 2's threshold |
| CharacterLevels.StartMislabels | Assets/Script/CharacterLevel.cs:70-78 | as written only the charisma field gets its own type |
| CharacterLevels.Skill.constructor | Assets/Script/CharacterLevel.cs:33-38 | level 1, no experience, the given type |
| CharacterLevels.Skill.AddExperience | Assets/Script/CharacterLevel.cs:40-44 | level and experience become `Gained` of the old ones |
| CharacterLevels.Skill.CheckLevelUp | Assets/Script/CharacterLevel.cs:46-52 | a level-up happens exactly when the experience reaches the threshold |
| CharacterLevels.Skill.LevelUp | Assets/Script/CharacterLevel.cs:54-58 | the threshold is paid and the level goes up by one |
| CharacterLevels.CharacterLevel.constructor | Assets/Script/CharacterLevel.cs:62-67 | no skills yet |
| CharacterLevels.CharacterLevel.Start | Assets/Script/CharacterLevel.cs:70-78 | six distinct new skills, every `GetLevel` 1, every one labelled `Charisma` as written |
| CharacterLevels.CharacterLevel.StartWithOwnTypes | Assets/Script/CharacterLevel.cs:70-78 | six distinct new skills, every `GetLevel` 1, each skill's type the type it is filed under |
| CharacterLevels.CharacterLevel.AddExperience | Assets/Script/CharacterLevel.cs:80-96 | the skill of the type gains as `Gained` says, so `GetLevel` of it is the `Gained` level, and no other skill or other `GetLevel` changes |
| Achievements.Achievement.constructor | Assets/AchievementItem.cs:15-23 | id, title and description are stored; locked and not completed |
| Achievements.AchievementItem.constructor | Assets/AchievementItem.cs:49 | not selected |
| Achievements.AchievementItem.SetSelected | Assets/AchievementItem.cs:277-288 | the highlight is stored |
| Achievements.Snapshot | Assets/AchievementManager.cs:14 | the state of each achievement, entry by entry |
| Achievements.FirstIndex | Assets/AchievementManager.cs:160-170 | the first entry with the id; None exactly when there is none |
| Achievements.UnlockCompleteKeep | Assets/AchievementManager.cs:158-183 | unlocking and completing keep the ids and keep completed achievements unlocked; an unknown id changes nothing |
| Achievements.CompleteMarksFirst | Assets/AchievementManager.cs:158-183 | completing sets both flags of the first entry with the id; unlocking sets its unlocked flag only |
| Achievements.CompleteIdempotent | Assets/AchievementManager.cs:158-183 | completing twice is completing once; unlocking after completing, or twice, changes nothing more |
| Achievements.KeysDistinct | Assets/AchievementManager.cs:203-204 | no unlocked key is a completed key, and distinct ids have distinct keys |
| Achievements.LoadedAll | Assets/AchievementManager.cs:209-218 | every entry is loaded, position by position |
| Achievements.SavedFlags | Assets/AchievementManager.cs:197-207 | after saving, each entry's two keys hold its flags as 1 or 0 |
| Achievements.SaveLoadRoundTrip | Assets/AchievementManager.cs:197-218 | loading what was just saved gives back every entry, whatever was stored before (for unique ids) |
| Achievements.NothingSavedLoadsLocked | Assets/AchievementManager.cs:209-218 | with nothing saved every achievement loads locked and not completed |
| Achievements.FloatFlagIgnored | Assets/AchievementManager.cs:215 | a float under the key does not unlock: only an int 1 counts |
| Achievements.AchievementManager.constructor | Assets/AchievementManager.cs:14-18 | no achievements and nothing selected |
| Achievements.AchievementManager.InitializeAchievements | Assets/AchievementManager.cs:26-36 | an empty list gets the four example achievements with ids 1 to 4, locked; a non-empty list is kept |
| Achievements.AchievementManager.SelectAchievement | Assets/AchievementManager.cs:134-149 | the new achievement and item are selected and highlighted, and the previous item loses its highlight |
| Achievements.AchievementManager.Find | Assets/AchievementManager.cs:160 | null for an unknown id, else the first achievement with it |
| Achievements.AchievementManager.UnlockAchievement | Assets/AchievementManager.cs:158-166 | only the first achievement with the id changes, to unlocked; an unknown id changes nothing |
| Achievements.AchievementManager.CompleteAchievement | Assets/AchievementManager.cs:168-183 | only the first achievement with the id changes, to unlocked and completed |
| Achievements.AchievementManager.SaveAchievements | Assets/AchievementManager.cs:197-207 | the prefs become `SavedEntries` of the old prefs |
| Achievements.AchievementManager.LoadAchievements | Assets/AchievementManager.cs:209-218 | the states become `LoadedAll` of the prefs |
| SceneNames.SpacedLength | Assets/Script/GameSceneManager.cs:194-202 | one space is added per upper-case letter after the first character, and nothing else |
| SceneNames.UnspaceSpaced | Assets/Script/GameSceneManager.cs:194-202 | removing the spaces before upper-case letters gives the name back |
| SceneNames.FormattedNameInverts | Assets/Script/GameSceneManager.cs:189-203 | a formatted name is never empty, and a non-empty name comes back from it |
| SceneNames.FirstConfigured | Assets/Script/GameSceneManager.cs:176-185 | the display name of the first configured entry for the scene; None exactly when there is none |
| SceneNames.GameSceneManager.constructor | Assets/Script/GameSceneManager.cs:18 | the configuration is stored |
| SceneNames.GameSceneManager.GetSceneDisplayName | Assets/Script/GameSceneManager.cs:174-187 | a configured display name wins, otherwise the formatted scene name |
| SceneNames.GameSceneManager.FormatSceneName | Assets/Script/GameSceneManager.cs:189-203 | "Unknown Scene" for an empty name, else the name with a space before each later upper-case letter |

## Left out

- Rendering, UI text, sprites, colours, audio, animation and coroutine waits: these are presentation with no state the game logic reads back. `RecordAttendanceWithEffects` keeps its attendance effect; its screen tint and waits are omitted.
- Frame timing and randomness are not modelled as such. Elapsed time is a parameter. Each random price move is an arbitrary choice (`:|`) within the source's bounds, and the contracts state only what every choice guarantees: the floor at 1 and the rounded item price.
- StockMarkets.StockMarket: the booth's own `Update`, which re-prices every `priceUpdateIntervalMinutes` of game time, is left out, as are `InitializeStockPrices`, `ForcePriceUpdate` and `PrintMarketStatus`; the re-pricing on opening through `SetMarketStatus` is modelled.
- StockMarkets.StockMarketManager.NewTradingDay: with a stock listed twice and the market closed, the second overnight move overwrites the previous price; the contract states the previous price only for a list without duplicates, which `RegisterStock` keeps.
- Integer and float width: C# `int` is modelled as an unbounded `int` and `float` as an exact `real`, so 32-bit overflow and float rounding are not modelled.
- `Items.ItemSlot` and `Items.ItemContainer`: their source files are not part of this model. `Copy`, `Clear`, `Set` and `Add` follow how the core uses them. `Add` in particular is taken to put a stackable item on the first stack of that item, otherwise in the first empty slot, and to drop it when the container is full.
- Items: a container's `Values()` is stated equal to an expected list only when its slot objects are `Distinct`. `BuyStock`, `BuyItem` and `BuyItemPartial` state their effect on the holdings under that condition.
- ItemPanels.ItemPanel.OnLeftClick and ItemPanels.ItemPanel.OnRightClick require the hand's slot to be a different object from the clicked inventory slot; the source never makes them the same object.
- DragDrop.ItemDragAndDropController.Update is left out: it moves the icon with the mouse and, on a click outside the UI, spawns the held item as a pickup in the scene, which is input and scene work.
- `Prefs` models Unity's `PlayerPrefs` API as a map from keys to typed values. `GetInt` and `GetFloat` give the default when the key is absent or holds the other type; this is an assumption about Unity. `PlayerPrefs.Save`, the flush to disk, is omitted.
- Quiz: `CalculateFinalGrade` requires non-zero maxima, because the source divides by them and would produce NaN. `Question` and `AnswerData` are not part of this model beyond the fields the manager reads. An exam with no questions throws in the source and is excluded. A null `letterGrade` is modelled as "".
- CharacterStats: `Stat.IsEmpty` is not part of this model. It is taken to mean `currVal <= 0`.
- Endings: `GetTotalEarnings` is a parameter (`totalEarnings`). Ending sprites and colours are omitted. `PlayEndingSequence` is represented by `playingEnding`, and the ending requested is kept as ghost state.
- Toolbar: number keys beyond 9 and beyond the toolbar size are ignored as in the source. `UpdateHighlightIcon` is UI and omitted.
- StockMarkets: `ForceOpen`, `ForceClose` and `PrintCurrentStatus` are debugging aids and omitted. `StockAgentDialogue` is dialogue UI and omitted.
- SceneNames: `char.IsUpper` is Unicode-aware, but the model tests ASCII 'A'-'Z' only. Null strings are not modelled. `ShowSceneNamePanel` and `DisplaySceneName` are UI.
- Achievements: `RefreshAchievementDisplay`, the detail panel and the icons are UI and omitted. Loading arbitrary prefs is not shown to keep the list consistent.
- Achievements.UnlockCompleteKeep: list equality after unlocking or completing is stated only for lists of distinct achievement objects.
- CharacterLevels.CharacterLevel.AddExperience requires the skill to be present; the source would throw a null reference.
- DialogueActions.DialogueActionSet.ResizeActionList requires a non-negative target count; the source would throw.
- Clock: the delegates registered with `TimeAgent` are opaque handler ids, and `DayTime` records the order in which they are invoked.

## Findings

| source | as written | input that shows it | evidently intended | confidence | as-written member | corrected member |
|---|---|---|---|---|---|---|
| Assets/AutomaticAttendanceTracker.cs:166-191 | `CleanupOldEntries` reads the day number from the third `_`-separated field of the key `{className}_{dayOfWeek}_{dayNumber}` | a Monday class named "Lab_Part_1" on day 5: the key "Lab_Part_1_Monday_5" is read as day 1, so today's key is removed and the absent record is added again on the next check | the day number is the last field of the key, so today's keys survive and one record is made per occurrence | not executed; high | AttendanceTracking.AsWrittenDropsTodaysKey, AttendanceTracking.AsWrittenRecordsAbsentTwice | AttendanceTracking.KeyDayOfClassKey, AttendanceTracking.CheckTwiceRecordsOnce, AttendanceTracking.AutomaticAttendanceTracker.CleanupOldEntries |
| Assets/Script/Character.cs:87-95 | `DeductHappiness` marks the character dead when health, not happiness, is at or below 0 | health 100, happiness 10, amount 10: happiness reaches 0 and the character is not marked dead, so the happiness-loss ending is never reached | the happiness stat is tested | not executed; high | CharacterStats.Character.DeductHappinessAsWritten, CharacterStats.HappinessLossAsWrittenNeverKills | CharacterStats.Character.DeductHappiness, Endings.HappinessLossEnding |
| Assets/Script/CharacterLevel.cs:70-78 | `Start` creates every skill with `SkillType.Charisma` | any call of `Start`: the intelligence skill's type is Charisma | every skill gets its own type | not executed; medium, as no code reads the type | CharacterLevels.CharacterLevel.Start, CharacterLevels.StartMislabels | CharacterLevels.CharacterLevel.StartWithOwnTypes |
