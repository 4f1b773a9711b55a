# taskcraft-optimizer in Dafny

A model of the task manager's core:

- the greedy scheduler `scheduleTasksBasedOnAI`: weight the incomplete tasks, try the
  template's "Free Time" / "Work/Study" blocks on each of seven days best time-of-day first,
  and pack tasks into each block with breaks;
- its scoring helpers and `HH:MM` conversions;
- the task-pool operations and readers of the task context;
- the filter-and-sort of the task list page.

The model follows the code as written, quirks included:

- the same head task is placed again and again while it fits in a block;
- the first placement of a task splices that task off the queue, and every further
  placement of it gets index -1 from `findIndex` and so splices off the last queued task
  instead (`PlannerProperties.PackBlockDropsFromEnd`);
- the daily cap is checked only between blocks, so one block can overshoot it and the cap
  is not an invariant of the plan (`PlannerProperties.CapStopsBlocks`,
  `PlannerProperties.BlockEnteredBelowCap`, `PlannerScenarios.CapOvershoot`);
- the code has no undo of a completion.

Files and modules:

| file | module | what |
|---|---|---|
| wrappers.dfy | Wrappers | `Option` (undefined, NaN, not found) |
| strings.dfy | Strings | `Number` on digit strings, `toString`, `padStart`, `split`, `includes`, `toLowerCase` |
| time_of_day.dfy | TimeOfDay | `timeToMinutes`, `minutesToTime` |
| task_types.dfy | TaskModel | the records: task, block, template, placement, preferences |
| scoring.dfy | Scoring | task weight, deadline score, time-of-day score, task duration |
| sorting.dfy | Sorting | `filter`, and `sort` as the stable sort by a descending key |
| planner.dfy | Planner | the planner: one spec function per loop level, and the loops as methods proved equal to them |
| planner_properties.dfy | PlannerProperties | soundness of every placement, spacing, queue and block order, empty plans |
| planner_scenarios.dfy | PlannerScenarios | concrete plans, the repeat/drop and cap quirks among them |
| task_pool.dfy | TaskPool | the pool state and its operations and readers |
| task_pool_properties.dfy | TaskPoolProperties | what each pool operation changes and keeps |
| task_list.dfy | TaskList | the task list page's filter and comparator |

Modelling choices:

- Timestamps are integer milliseconds.
- The calendar date of a placement is a day number: `today + dayOffset`.
- The local calendar day of a timestamp (`setHours(0,0,0,0)`) is a function parameter `dayOf`.
- `Date.now()` and new ids are parameters.
- A NaN from `timeToMinutes` is `None`. A block whose start reads as NaN gets no placements
  and scores 0.
- `timeToMinutes` is pure, so each item's start and end are read once, into a `Planner.Block`,
  before the day's blocks are sorted and packed. `Planner.ReadDaySlots` shows this gives the
  same blocks in the same order as reading them inside the sort and the loop.
- The concrete plans in `PlannerScenarios` hold for a block that starts at any minute.
  Two sample templates (08:00-10:00 and 08:00-09:30) are shown to be such one-block templates.

## Model

| member | source | states |
|---|---|---|
| Scoring.DeadlineScore | src/context/TaskContext.tsx:284-288 | the deadline score is in 0..10, and it is 10 exactly when the deadline is at or before now |
| Scoring.Weight | src/context/TaskContext.tsx:278-310 | the weight `3*priority + 2*deadline + category + duration` lies in 4..54 |
| Scoring.TaskDuration | src/context/TaskContext.tsx:412 | a task with a non-zero estimate lasts that estimate, any other task the study session length; the duration is positive when the session length is positive and the estimate is not negative |
| Scoring.PreferenceScore | src/context/TaskContext.tsx:364-378 | the time-of-day score is in 0..3, and a start that reads as NaN scores 0 |
| Scoring.CeilDays | src/context/TaskContext.tsx:285 | `Math.ceil(ms / dayMs)` is the least whole number of days covering the interval |
| Scoring.DeadlineScoreByDays | src/context/TaskContext.tsx:284-288 | the deadline score is in 0..10; it is 10 exactly when the deadline is at or before now, and 0 exactly when it is more than nine days away; n started days score 10 - n |
| Scoring.DeadlineScoreMonotone | src/context/TaskContext.tsx:284-288 | a later deadline never scores higher |
| Scoring.WeightExtremes | src/context/TaskContext.tsx:278-310 | the weight is 54 exactly for a High, Education task with an estimate whose deadline has come, and 4 exactly for a Low, Household task without an estimate whose deadline is more than nine days away |
| Scoring.WeightMonotone | src/context/TaskContext.tsx:278-310 | all else equal, a higher priority weighs strictly more and an earlier deadline no less |
| Scoring.PreferenceScoreByBucket | src/context/TaskContext.tsx:362-378 | the time-of-day score is the affinity of the preference for the start's part of the day; it is in 0..3, it is 3 exactly in the preferred part, and NaN scores 0 |
| Strings.AllDigitsAt | src/context/TaskContext.tsx:327 | the digit-string test is the per-character check |
| Strings.NatToStringShape | src/context/TaskContext.tsx:335 | `toString` is a non-empty digit string without a leading zero, one digit below 10, two from 10 to 99 |
| Strings.NatToStringValue | src/context/TaskContext.tsx:335 | `toString` reads back as the number |
| Strings.LeadingZeroValue | src/context/TaskContext.tsx:335 | a leading zero does not change the value of a digit string |
| Strings.PadStartShape | src/context/TaskContext.tsx:335 | `padStart` keeps the text as a suffix and fills the front with the pad character up to the length |
| Strings.PadZerosValue | src/context/TaskContext.tsx:335 | zero-padding a digit string keeps its value |
| Strings.SplitPiecesHaveNoSep | src/context/TaskContext.tsx:327 | no piece of `split` contains the separator |
| Strings.SplitJoin | src/context/TaskContext.tsx:327 | joining the pieces of `split` with the separator gives the text back |
| Strings.SplitTwo | src/context/TaskContext.tsx:327 | "a:b" with no ':' in a or b splits into [a, b] |
| Strings.SplitPrefix | src/context/TaskContext.tsx:327 | a text without the separator, then the separator, starts a new piece of `split` |
| Strings.SplitWithoutSep | src/context/TaskContext.tsx:327 | a text without the separator splits into itself alone |
| Strings.ContainsAt | src/context/TaskContext.tsx:318 | `includes` holds exactly when the pattern occurs at some position |
| Strings.Lower | src/pages/Tasks.tsx:20-21 | lowercasing keeps the length, maps each character, and leaves no capital letter |
| TimeOfDay.TimeToMinutes | src/context/TaskContext.tsx:326-329 | a time without ':' reads as NaN (its minutes piece is missing); the value of the digit case is `TimeOfDay.ReadHoursMinutes` |
| TimeOfDay.MinutesToTime | src/context/TaskContext.tsx:332-336 | the text has at least five characters, exactly five below 6000 minutes (hours padded to two digits) |
| TimeOfDay.Pad2Value | src/context/TaskContext.tsx:335 | the padded hours or minutes are a digit string worth the number, exactly two characters below 100 |
| TimeOfDay.ReadHoursMinutes | src/context/TaskContext.tsx:326-329 | "H:M" with digit strings H and M reads as H*60 + M |
| TimeOfDay.RoundTrip | src/context/TaskContext.tsx:326-336 | `timeToMinutes(minutesToTime(m)) == m` for every minute count m |
| TimeOfDay.Format | src/context/TaskContext.tsx:332-336 | below 6000 minutes, `minutesToTime` writes five characters: two-digit hours, ':', two-digit minutes, worth m / 60 and m % 60 |
| Sorting.Filter | src/context/TaskContext.tsx:273 | the filtered list is no longer than the input and holds only elements that satisfy the predicate |
| Sorting.FilterCounts | src/context/TaskContext.tsx:273 | filtering keeps every occurrence of a kept element and none of the others |
| Sorting.FilterContains | src/pages/Tasks.tsx:19-24 | an element is kept exactly when it occurs and satisfies the predicate |
| Sorting.FilterKeepsAll | src/context/TaskContext.tsx:273 | if every element satisfies the predicate, the filter keeps the whole list |
| Sorting.FilterKeepsNone | src/context/TaskContext.tsx:273 | if no element satisfies the predicate, the filter keeps nothing |
| Sorting.FilterKeepsOrder | src/pages/Tasks.tsx:19-24 | filtering keeps order: two kept elements come out in their input order, with exactly the kept elements between them in between |
| Sorting.SortDesc | src/context/TaskContext.tsx:276-314 | the sort is a permutation in non-increasing key order |
| Sorting.SortIsStable | src/context/TaskContext.tsx:276-314 | elements of equal key keep their input order |
| Sorting.Map | src/context/TaskContext.tsx:327 | `map` gives a list of the same length whose i-th element is the function of the i-th input |
| Sorting.MapSortDesc | src/context/TaskContext.tsx:356-381 | when the key of an element is the key of its image, mapping then sorting is sorting then mapping |
| Planner.FindIndex | src/context/TaskContext.tsx:429 | `findIndex` is the first index with the id, or -1 exactly when no task has it |
| Planner.ReadDaySlots | src/context/TaskContext.tsx:356-393 | reading each block's times once and sorting the read blocks gives the blocks of the sorted items: reading a time twice gives the same minutes |
| Planner.SpliceRemovesOne | src/context/TaskContext.tsx:429 | `splice(start, 1)` removes the element at start; start -1 removes the last element; an empty list stays empty |
| Planner.NothingScheduledYet | src/context/TaskContext.tsx:397-399 | before any placement, every queued task is unscheduled |
| Planner.QueueEstimates | src/context/TaskContext.tsx:273-276 | the queue holds only tasks of the pool, so their estimates are non-negative too |
| Planner.PackBlock | src/context/TaskContext.tsx:406-436 | the packing of one block only takes tasks off the queue, never adds one; its placements are stated by `PlannerProperties.PackBlockPlacement` |
| Planner.PlanBlocks | src/context/TaskContext.tsx:383-438 | the loop over a day's blocks only takes tasks off the queue, and the queue keeps non-negative estimates |
| Planner.PlanDay | src/context/TaskContext.tsx:342-438 | one day only takes tasks off the queue and keeps its estimates non-negative |
| Planner.PlanDays | src/context/TaskContext.tsx:342-439 | the loop over the days only takes tasks off the queue; what it places is stated by `PlannerProperties.PlanDaysSound` |
| Planner.Plan | src/context/TaskContext.tsx:272-441 | the plan of the seven days; it has no contract of its own, and `PlannerProperties.PlanSound`, `QueueOrder` and `EmptyPlan` state its properties |
| Planner.Schedule | src/context/TaskContext.tsx:269-442 | there is no new schedule exactly when there is no active template |
| Planner.PackBlockLoop | src/context/TaskContext.tsx:405-437 | the packing `while` loop computes the placements and the queue that the packing spec function gives |
| Planner.PlanDayLoop | src/context/TaskContext.tsx:383-438 | the loop over a day's blocks (cap check, remaining tasks, packing) computes what the per-day spec function gives |
| Planner.ScheduleTasks | src/context/TaskContext.tsx:269-442 | `scheduleTasksBasedOnAI` with its loops returns the plan of the spec functions; with no active template it returns no new schedule |
| PlannerProperties.AssignmentPlacedIn | src/context/TaskContext.tsx:415-426 | a placement at a cursor inside the block that leaves room reads back inside the block, lasts the task's duration, and is labelled "start - end" |
| PlannerProperties.PackBlockSound | src/context/TaskContext.tsx:406-432 | packing a block keeps earlier placements; every new one is the head task, on that day, inside the block, for its duration |
| PlannerProperties.CursorIsLinear | src/context/TaskContext.tsx:432 | after j moves of `step` minutes the cursor is `start + j*step` |
| PlannerProperties.PackBlockSpacing | src/context/TaskContext.tsx:408-436 | after k placements in a block, one more would end after the block: packing stops at the first task that does not fit |
| PlannerProperties.PackBlockPlacement | src/context/TaskContext.tsx:408-432 | the j-th placement in a block is the head task at `blockStart + j*(duration + break)` |
| PlannerProperties.PackBlockDropsFromEnd | src/context/TaskContext.tsx:429 | once the head is out of the queue, k placements cut the last k tasks off the queue |
| PlannerProperties.PackSlotSound | src/context/TaskContext.tsx:392-432 | packing one block gives only placements inside it, and none when a time reads as NaN |
| PlannerProperties.PlanBlocksSound | src/context/TaskContext.tsx:383-438 | planning a day's blocks adds only sound placements on that day: an incomplete pool task, labelled, inside a schedulable template block |
| PlannerProperties.PlanBlocksConcat | src/context/TaskContext.tsx:384-438 | the loop over a day's blocks can be split anywhere: the later blocks go on from the state the earlier ones left |
| PlannerProperties.CapStopsBlocks | src/context/TaskContext.tsx:384-389 | once the day's count has reached the cap after some blocks, the blocks that follow change nothing |
| PlannerProperties.BlockEnteredBelowCap | src/context/TaskContext.tsx:384-432 | the block after any run of blocks is packed only when entered with the count below the cap and a task unscheduled, and then whole, with the first unscheduled task and no recheck of the cap |
| PlannerProperties.PlanDaySound | src/context/TaskContext.tsx:342-439 | a day adds only sound placements dated that day, after the earlier days' placements |
| PlannerProperties.PlanDaysSound | src/context/TaskContext.tsx:342-439 | the days from an offset on keep every placement sound and dated in the window, in date order |
| PlannerProperties.PlanSound | src/context/TaskContext.tsx:269-442 | every placement of the plan is sound, is dated today + k for some k in 0..6, and the plan is in date order |
| PlannerProperties.InSomeBlockIff | src/context/TaskContext.tsx:392-426 | the search through the blocks finds a block holding the placement exactly when one exists |
| PlannerProperties.ReadBlocksSound | src/context/TaskContext.tsx:317-319 | a placement inside a read block of the schedulable items is inside a "Free Time" or "Work/Study" item of the template |
| PlannerProperties.FirstDayOnly | src/context/TaskContext.tsx:342-439 | when the first day empties the queue, the plan is that day's placements |
| PlannerProperties.AllCompletedEmptyQueue | src/context/TaskContext.tsx:273 | when every task is completed the queue is empty |
| PlannerProperties.NoBlocksNoSlots | src/context/TaskContext.tsx:317-319 | a template without "Free Time" or "Work/Study" items has no schedulable block |
| PlannerProperties.QueueOrder | src/context/TaskContext.tsx:273-314 | the queue is exactly the incomplete tasks, a permutation of them in non-increasing weight order, with ties in pool order |
| PlannerProperties.DayOrder | src/context/TaskContext.tsx:317-381 | a day's blocks are exactly the schedulable template blocks, in non-increasing time-of-day score, ties in template order |
| PlannerProperties.NothingToPlan | src/context/TaskContext.tsx:342-439 | with an empty queue, no blocks, or a cap of at most 0 on an empty plan, the days change nothing |
| PlannerProperties.EmptyPlan | src/context/TaskContext.tsx:269-442 | the plan is empty when every task is completed, when no block is schedulable, or when the cap is at most 0 |
| PlannerScenarios.TwoDigits | src/context/TaskContext.tsx:327 | example: a two-digit text reads as its tens digit times ten plus its units digit |
| PlannerScenarios.ReadClock | src/context/TaskContext.tsx:326-329 | a time written "hh:mm" reads as hh*60 + mm minutes |
| PlannerScenarios.OneBlockRead | src/context/TaskContext.tsx:356-393 | a template with one schedulable block offers that block, read once, on every day and for every preference |
| PlannerScenarios.MorningIsOneBlock | src/context/TaskContext.tsx:317-319 | a template with one "Free Time" item 08:00-10:00 has one schedulable block, from minute 480 to minute 600 |
| PlannerScenarios.StudyIsOneBlock | src/context/TaskContext.tsx:317-319 | a template with one "Work/Study" item 08:00-09:30 has one schedulable block, from minute 480 to minute 570 |
| PlannerScenarios.EightOClockLabel | src/context/TaskContext.tsx:417-422 | example: a 45-minute placement at minute 480 is labelled "08:00 - 08:45" |
| PlannerScenarios.FirstPlacement | src/context/TaskContext.tsx:420-429 | with queue [a, b], the first placement of a splices a, found at index 0, off the queue |
| PlannerScenarios.SecondPlacement | src/context/TaskContext.tsx:420-429 | the second placement of a finds no a in the queue, splices index -1 and so removes b |
| PlannerScenarios.RepeatedHeadDropsLast | src/context/TaskContext.tsx:408-432 | queue [a, b], a two-hour block from any start, 45-minute a, 15-minute breaks: a is placed at the start and an hour later, and b is spliced off unplaced |
| PlannerScenarios.QueueOfTwo | src/context/TaskContext.tsx:273-314 | two incomplete tasks, the first weighing at least as much, queue in pool order |
| PlannerScenarios.FirstDay | src/context/TaskContext.tsx:383-438 | on the first day that block gets both placements of a and the queue ends empty, even though the cap is one task a day |
| PlannerScenarios.WeekPlan | src/context/TaskContext.tsx:269-442 | any pool whose queue is [a, b] with a 45-minute estimate on a and none on b, any template whose one block lasts two hours, a 15-minute break and a cap of one task a day: the week's plan is exactly a at the block's start and an hour later on the first day |
| PlannerScenarios.TwiceOnOneDay | src/context/TaskContext.tsx:347-349 | example: that plan has two placements on the first day, none of them b |
| PlannerScenarios.CapOvershoot | src/context/TaskContext.tsx:384-432 | with a cap of one task a day, the first day gets two placements, over the cap, and task b gets none all week |
| PlannerScenarios.OneTaskOneBlock | src/context/TaskContext.tsx:408-436 | one 45-minute task in a 90-minute block: one placement at the start, because a second would end 15 minutes after the block |
| PlannerScenarios.OneTaskWeek | src/context/TaskContext.tsx:269-442 | one incomplete 45-minute task, a template whose one block lasts 90 minutes, the default preferences: the week's plan is one placement at the block's start on the first day |
| TaskPool.NewTask | src/context/TaskContext.tsx:445-450 | a new task has the given id, is not completed, has no completion time, and was created now |
| TaskPool.MarkCompleted | src/context/TaskContext.tsx:461 | completion sets `completed` and `completedAt = now` and changes no other field |
| TaskPool.Patched | src/context/TaskContext.tsx:480 | a patch never changes id or creation time |
| TaskPool.AddTask | src/context/TaskContext.tsx:444-455 | `addTask` appends exactly the new task and changes nothing else |
| TaskPool.CompleteTask | src/context/TaskContext.tsx:457-469 | `completeTask` marks exactly the tasks with the id, keeps the others, and adds 10 points even when no task has the id |
| TaskPool.DeleteTask | src/context/TaskContext.tsx:471-474 | `deleteTask` changes only the task list |
| TaskPool.UpdateTask | src/context/TaskContext.tsx:476-486 | `updateTask` patches exactly the tasks with the id and keeps the others |
| TaskPool.AddSchedule | src/context/TaskContext.tsx:488-496 | `addSchedule` appends the template with the new id and changes nothing else |
| TaskPool.FindSchedule | src/context/TaskContext.tsx:499 | `find` gives a template with the id that no earlier template shares (the first one), or nothing exactly when no template has it |
| TaskPool.SetActiveSchedule | src/context/TaskContext.tsx:498-506 | `setActiveSchedule` changes at most the active template |
| TaskPool.UpdateUserPreferences | src/context/TaskContext.tsx:508-512 | `updateUserPreferences` changes only the preferences |
| TaskPool.RescheduleAllTasks | src/context/TaskContext.tsx:514-517 | `rescheduleAllTasks` changes only the stored schedule |
| TaskPool.MergePreferences | src/context/TaskContext.tsx:509 | an empty preferences patch keeps the preferences; `TaskPoolProperties.MergeReplacesGiven` states the merge field by field |
| TaskPool.GetTodaysTasks | src/context/TaskContext.tsx:519-528 | every task returned is a pool task due on the local day of now |
| TaskPool.GetTasksByDate | src/context/TaskContext.tsx:530-542 | every task returned is a pool task with a completion time on that local day |
| TaskPool.GetCompletedTasks | src/context/TaskContext.tsx:544-546 | every task returned is a completed pool task |
| TaskPoolProperties.TodaysTasks | src/context/TaskContext.tsx:519-528 | `getTodaysTasks` keeps exactly the tasks due on the local day of now, each as often as in the pool |
| TaskPoolProperties.TodaysTasksInPoolOrder | src/context/TaskContext.tsx:519-528 | of two due tasks, the one earlier in the pool comes first, with exactly the due tasks between them in between |
| TaskPoolProperties.TasksByDate | src/context/TaskContext.tsx:530-542 | `getTasksByDate` keeps exactly the tasks with a completion time on that local day |
| TaskPoolProperties.CompletedTasks | src/context/TaskContext.tsx:544-546 | `getCompletedTasks` keeps exactly the completed tasks |
| TaskPoolProperties.CompletedOnDayAreCompleted | src/context/TaskContext.tsx:530-546 | on a consistent list, the tasks completed on a day are among the completed tasks |
| TaskPoolProperties.AddThenDelete | src/context/TaskContext.tsx:444-474 | adding a task with a fresh id and deleting that id gives the pool back |
| TaskPoolProperties.AddKeepsInvariants | src/context/TaskContext.tsx:444-455 | adding keeps "completed exactly when it has a completion time", and keeps ids unique when the id is fresh |
| TaskPoolProperties.AddedTaskIsQueued | src/context/TaskContext.tsx:444-455 | a new task enters the planner's queue |
| TaskPoolProperties.CompleteUnknownId | src/context/TaskContext.tsx:457-469 | completing an unknown id changes no task and still adds 10 points |
| TaskPoolProperties.CompleteTwice | src/context/TaskContext.tsx:457-469 | completing twice is completing once at the later time, with 20 points added |
| TaskPoolProperties.CompleteKeepsInvariants | src/context/TaskContext.tsx:457-469 | completing keeps the list consistent and the ids unique |
| TaskPoolProperties.CompletedTaskIsReported | src/context/TaskContext.tsx:457-546 | a completed task is reported by `getCompletedTasks` and by `getTasksByDate` for the day it was completed |
| TaskPoolProperties.DeleteRemovesExactly | src/context/TaskContext.tsx:471-474 | deleting removes every task with the id and keeps every occurrence of every other task |
| TaskPoolProperties.DeleteKeepsOrder | src/context/TaskContext.tsx:471-474 | of two remaining tasks, the one earlier in the pool comes first, with exactly the remaining tasks between them in between |
| TaskPoolProperties.DeleteIdempotent | src/context/TaskContext.tsx:471-474 | deleting the same id twice is deleting it once |
| TaskPoolProperties.DeleteKeepsInvariants | src/context/TaskContext.tsx:471-474 | deleting keeps the list consistent and the ids unique |
| TaskPoolProperties.FilterKeepsUnique | src/context/TaskContext.tsx:471-474 | filtering a list with unique ids keeps the ids unique |
| TaskPoolProperties.UpdateIdempotent | src/context/TaskContext.tsx:476-486 | applying the same patch again changes nothing more |
| TaskPoolProperties.UpdateEmptyPatch | src/context/TaskContext.tsx:476-486 | a patch without fields changes nothing |
| TaskPoolProperties.UpdateKeepsInvariants | src/context/TaskContext.tsx:476-486 | updating keeps every id, and keeps the list consistent when the patch leaves the completion fields alone |
| TaskPoolProperties.UpdateCanUncomplete | src/context/TaskContext.tsx:476-486 | a patch that sets `completed` to false keeps the completion time, which breaks consistency |
| TaskPoolProperties.FindScheduleAppend | src/context/TaskContext.tsx:488-506 | after appending a template with a fresh id, `find` for that id gives the appended template |
| TaskPoolProperties.AddThenActivate | src/context/TaskContext.tsx:488-506 | a template added with a fresh id can be made the active one |
| TaskPoolProperties.ActivateOnlyKnown | src/context/TaskContext.tsx:498-506 | an unknown id changes nothing; a known one activates a pool template with that id |
| TaskPoolProperties.MergeReplacesGiven | src/context/TaskContext.tsx:508-512 | the given preferences replace the current ones, the rest stay, and merging twice is merging once |
| TaskPoolProperties.RescheduleStoresPlan | src/context/TaskContext.tsx:514-517 | with an active template the stored schedule is the plan, all of it sound and in date order within the week; without one nothing changes |
| TaskList.Compare | src/pages/Tasks.tsx:25-32 | the comparator; it has no contract of its own, and `TaskList.CompareIsByKey` states its sign |
| TaskList.FilteredTasks | src/pages/Tasks.tsx:19-32 | the shown tasks are a permutation of the filtered tasks, in non-increasing display key (incomplete first, then priority) |
| TaskList.CompareIsByKey | src/pages/Tasks.tsx:25-32 | the comparator has the sign of a descending key (incomplete first, then priority), so the sort is the stable sort by that key |
| TaskList.FilteredAreMatches | src/pages/Tasks.tsx:19-24 | the shown tasks are tasks of the list, none more often than there, and exactly those matching the search and category |
| TaskList.EmptySearchShowsAll | src/pages/Tasks.tsx:19-24 | an empty search with 'All' shows every task |
| TaskList.IncompleteFirst | src/pages/Tasks.tsx:25-28 | every incomplete task comes before every completed one |
| TaskList.PriorityOrder | src/pages/Tasks.tsx:29-31 | among tasks of equal completion status, priority rank does not increase |
| TaskList.TiesKeepListOrder | src/pages/Tasks.tsx:25-32 | tasks of equal status and priority keep their list order |

## Left out

- React plumbing: state hooks, effects, the `localStorage` load/save and the JSON date revival. These are framework behaviour and I/O.
- When a recompute fires, and which values it reads: `setActiveSchedule` and `updateUserPreferences` call the planner with the values of the render they run in. Here rescheduling is the separate `TaskPool.RescheduleAllTasks`.
- Toasts, authentication, routing, rendering, the dashboard's percentages and the due-soon badge. These are UI only.
- The sample data of a fresh session: the sample tasks (their deadlines depend on the clock) and the two literal sample templates. Only the default preferences are modelled, as `TaskModel.DefaultPreferences`.
- The wall clock, the locale calendar and id generation: `now`, `today`, `dayOf` and ids are parameters.
- Id collisions: two adds in one millisecond would get the same id. Freshness is a precondition of the lemmas that need it.
- `Number` is modelled on digit strings only, with "" as 0. Other text reads as NaN, although JavaScript also accepts signs, blanks, decimals and exponents.
- Whole minutes only: estimates are integers and the cursor is a non-negative integer. Fractional or negative minutes are not modelled.
- Floating point: deadlines and now are integer milliseconds, so `Math.ceil` of their quotient is exact.
- `toLowerCase` is modelled on ASCII letters only.
- Planner.ScheduleTasks: it requires `studySessionDuration > 0`, `breakDuration >= 0` and non-negative estimates on the incomplete tasks (`Planner.PendingEstimates`). Without them the JavaScript packing loop need not end.
- TaskPool.UpdateTask: a patch field that is present but `undefined` is modelled only for the optional fields. For the required fields a present value is always a value.
- TaskPool.MergePreferences: a preferences field that is present but `undefined` would overwrite the old value in JavaScript; the model keeps the old value, and so does `TaskPool.UpdateUserPreferences`, which uses it.
