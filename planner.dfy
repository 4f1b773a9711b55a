/**
 * The greedy planner `scheduleTasksBasedOnAI`, as the code is written.
 *
 * The incomplete tasks are sorted by weight into a queue `sortedTasks`; the blocks of the
 * active template whose activity mentions "Free Time" or "Work/Study" are tried on each of
 * seven days, best time-of-day score first. In a block a cursor starts at the block's start
 * minute; the first task of the queue that has no placement yet is placed at the cursor as
 * long as it fits, and the cursor moves on by its duration plus the break. That list of
 * remaining tasks is computed once per block, so the same task is placed again and again
 * while it fits, and each placement removes `sortedTasks[findIndex(id)]`, which after the
 * first placement is index -1: the last task of the queue. The per-day cap is checked only
 * before a block, not while it is packed.
 *
 * The spec functions below follow the loops one level each (PlanDays, PlanBlocks,
 * PackBlock); the method ScheduleTasks is the imperative code and is proved equal to them.
 * The spec functions work on blocks whose start and end have already been read as minutes
 * (`ReadBlocks`); `timeToMinutes` is pure, so reading each block once is the same as reading
 * it at every use, which is what the methods do.
 */
module Planner {
  import opened Wrappers
  import opened Strings
  import opened TimeOfDay
  import opened Sorting
  import opened TaskModel
  import opened Scoring

  /** Days planned, starting today. */
  const Horizon := 7

  /** `activity.includes('Free Time') || activity.includes('Work/Study')`. */
  predicate IsSchedulable(item: ScheduleItem) {
    Contains(item.activity, "Free Time") || Contains(item.activity, "Work/Study")
  }

  predicate IsIncomplete(t: Task) {
    !t.completed
  }

  /** The packing loop advances by duration plus break, so the planner needs these to end. */
  predicate ValidPreferences(prefs: UserPreferences) {
    prefs.studySessionDuration > 0 && prefs.breakDuration >= 0
  }

  predicate NonNegativeEstimates(tasks: seq<Task>) {
    forall t :: t in tasks ==> t.estimatedDuration.Some? ==> t.estimatedDuration.value >= 0
  }

  /**
   * The incomplete tasks, the only ones the queue takes, have non-negative estimates;
   * completed tasks may have any estimate.
   */
  predicate PendingEstimates(tasks: seq<Task>) {
    forall t :: t in tasks && !t.completed ==> t.estimatedDuration.Some? ==> t.estimatedDuration.value >= 0
  }

  /** The queue: the incomplete tasks, sorted by weight, highest first, ties in pool order. */
  function SortedQueue(tasks: seq<Task>, now: int): seq<Task> {
    SortDesc(Filter(tasks, IsIncomplete), WeightKey(now))
  }

  /** The blocks of a template that tasks may be placed in. */
  function AvailableSlots(template: ScheduleTemplate): seq<ScheduleItem> {
    Filter(template.scheduleItems, IsSchedulable)
  }

  /** The order in which a day's blocks are tried (`daySlots.sort(...)`). */
  function DaySlots(slots: seq<ScheduleItem>, preferred: StudyTime): seq<ScheduleItem> {
    SortDesc(slots, SlotKey(preferred))
  }

  /** A block with its start and end read by `timeToMinutes`; `None` is NaN. */
  datatype Block = Block(item: ScheduleItem, start: Option<nat>, end: Option<nat>)

  function ReadBlock(item: ScheduleItem): (b: Block)
    ensures b.item == item
  {
    Block(item, TimeToMinutes(item.startTime), TimeToMinutes(item.endTime))
  }

  /** The blocks of the items, each read once. */
  function ReadBlocks(items: seq<ScheduleItem>): seq<Block> {
    Map(items, ReadBlock)
  }

  /** The time-of-day score of a read block: the score of its start minute. */
  function BlockKey(preferred: StudyTime): Block -> int {
    (b: Block) => PreferenceScore(b.start, preferred)
  }

  /** The order in which a day's read blocks are tried. */
  function DayBlocks(blocks: seq<Block>, preferred: StudyTime): seq<Block> {
    SortDesc(blocks, BlockKey(preferred))
  }

  /** An item's sort key is its read block's sort key. */
  lemma KeysAgree(preferred: StudyTime)
    ensures forall y :: SlotKey(preferred)(y) == BlockKey(preferred)(ReadBlock(y))
  {
  }

  /** Sorting the items and then reading them is reading them and then sorting by the read start. */
  lemma ReadDaySlots(slots: seq<ScheduleItem>, preferred: StudyTime)
    ensures ReadBlocks(DaySlots(slots, preferred)) == DayBlocks(ReadBlocks(slots), preferred)
  {
    KeysAgree(preferred);
    MapSortDesc(slots, ReadBlock, SlotKey(preferred), BlockKey(preferred));
  }

  /** The record pushed for a placement of `task` at minute `start` on day `date`. */
  function Assignment(task: Task, start: nat, duration: nat, date: int): ScheduledTask {
    var s := MinutesToTime(start);
    var e := MinutesToTime(start + duration);
    ScheduledTask(task, s + " - " + e, s, e, date)
  }

  /** `scheduled.some(st => st.task.id === id)`. */
  predicate IsScheduled(scheduled: seq<ScheduledTask>, id: string) {
    scheduled != [] && (scheduled[0].task.id == id || IsScheduled(scheduled[1..], id))
  }

  /** `sortedTasks.filter(task => !scheduled.some(st => st.task.id === task.id))`. */
  function Unscheduled(sortedTasks: seq<Task>, scheduled: seq<ScheduledTask>): seq<Task> {
    Filter(sortedTasks, (t: Task) => !IsScheduled(scheduled, t.id))
  }

  /** Before any placement every task of the queue is unscheduled. */
  lemma {:induction false} NothingScheduledYet(sortedTasks: seq<Task>)
    ensures Unscheduled(sortedTasks, []) == sortedTasks
  {
    if sortedTasks != [] {
      NothingScheduledYet(sortedTasks[1..]);
      assert sortedTasks == [sortedTasks[0]] + sortedTasks[1..];
    }
  }

  /** The number of placements on day `date` (`scheduled.filter(st => st.date === date).length`). */
  function CountOn(scheduled: seq<ScheduledTask>, date: int): nat {
    if scheduled == [] then 0 else (if scheduled[0].date == date then 1 else 0) + CountOn(scheduled[1..], date)
  }

  /** `tasks.findIndex(t => t.id === id)`: the first index holding that id, or -1. */
  function FindIndex(tasks: seq<Task>, id: string): (r: int)
    ensures -1 <= r < |tasks|
    ensures r == -1 <==> forall i :: 0 <= i < |tasks| ==> tasks[i].id != id
    ensures r >= 0 ==> tasks[r].id == id && forall i :: 0 <= i < r ==> tasks[i].id != id
  {
    if tasks == [] then -1
    else if tasks[0].id == id then 0
    else
      var r := FindIndex(tasks[1..], id);
      if r == -1 then -1 else r + 1
  }

  /** Where `splice(start, 1)` acts: a negative start counts back from the end (clamped at 0), a start past the end is the end. */
  function SpliceIndex(len: nat, start: int): (k: nat)
    ensures k <= len
  {
    if start < 0 then (if len + start < 0 then 0 else len + start)
    else if start > len then len else start
  }

  /** `s.splice(start, 1)`: the element at the splice position, if there is one, is removed. */
  function Splice<T>(s: seq<T>, start: int): seq<T> {
    var k := SpliceIndex(|s|, start);
    if k < |s| then s[..k] + s[k + 1..] else s
  }

  /**
   * Splicing removes one element unless the sequence is empty or the start is past its end;
   * a start of -1 (what `findIndex` gives for a missing id) removes the last element.
   */
  lemma SpliceRemovesOne<T>(s: seq<T>, start: int)
    ensures multiset(Splice(s, start)) <= multiset(s)
    ensures forall x :: x in Splice(s, start) ==> x in s
    ensures |Splice(s, start)| == if s != [] && start < |s| then |s| - 1 else |s|
    ensures 0 <= start < |s| ==> Splice(s, start) == s[..start] + s[start + 1..]
    ensures start == -1 ==> Splice(s, start) == if s == [] then [] else s[..|s| - 1]
  {
    var k := SpliceIndex(|s|, start);
    if k < |s| {
      assert s == s[..k] + [s[k]] + s[k + 1..];
    }
  }

  /** What the planner has built so far: the placements and the (shrinking) queue. */
  datatype PlanState = PlanState(scheduled: seq<ScheduledTask>, sortedTasks: seq<Task>)

  /** One placement: `head` at the cursor, and `sortedTasks[findIndex(head.id)]` spliced out. */
  function Place(st: PlanState, head: Task, currentTime: nat, date: int, prefs: UserPreferences): (r: PlanState)
    requires TaskDuration(head, prefs) > 0
    ensures forall t :: t in r.sortedTasks ==> t in st.sortedTasks
  {
    SpliceRemovesOne(st.sortedTasks, FindIndex(st.sortedTasks, head.id));
    PlanState(st.scheduled + [Assignment(head, currentTime, TaskDuration(head, prefs), date)],
              Splice(st.sortedTasks, FindIndex(st.sortedTasks, head.id)))
  }

  /** The packing loop of one block, from cursor `currentTime`, always trying `head`. */
  function PackBlock(st: PlanState, head: Task, currentTime: nat, slotEnd: int, date: int, prefs: UserPreferences): (r: PlanState)
    requires TaskDuration(head, prefs) > 0 && prefs.breakDuration >= 0
    ensures forall t :: t in r.sortedTasks ==> t in st.sortedTasks
    decreases slotEnd - currentTime
  {
    if currentTime < slotEnd then
      var d := TaskDuration(head, prefs);
      if currentTime + d <= slotEnd then
        PackBlock(Place(st, head, currentTime, date, prefs), head, currentTime + d + prefs.breakDuration, slotEnd, date, prefs)
      else st
    else st
  }

  /** One block: a start or end that reads as NaN makes the packing loop run zero times. */
  function PackSlot(st: PlanState, head: Task, slot: Block, date: int, prefs: UserPreferences): (r: PlanState)
    requires TaskDuration(head, prefs) > 0 && prefs.breakDuration >= 0
    ensures forall t :: t in r.sortedTasks ==> t in st.sortedTasks
  {
    if slot.start.Some? && slot.end.Some? then PackBlock(st, head, slot.start.value, slot.end.value, date, prefs)
    else st
  }

  /** The loop over one day's blocks: stop at the cap or when no task is left unscheduled. */
  function PlanBlocks(st: PlanState, slots: seq<Block>, date: int, prefs: UserPreferences): (r: PlanState)
    requires ValidPreferences(prefs) && NonNegativeEstimates(st.sortedTasks)
    ensures forall t :: t in r.sortedTasks ==> t in st.sortedTasks
    ensures NonNegativeEstimates(r.sortedTasks)
    decreases |slots|
  {
    if slots == [] || CountOn(st.scheduled, date) >= prefs.maxTasksPerDay then st
    else
      var remaining := Unscheduled(st.sortedTasks, st.scheduled);
      if remaining == [] then st
      else PlanBlocks(PackSlot(st, remaining[0], slots[0], date, prefs), slots[1..], date, prefs)
  }

  /** One day of the loop over days: skipped when the cap is already reached, otherwise its blocks are planned. */
  function PlanDay(st: PlanState, date: int, slots: seq<Block>, prefs: UserPreferences): (r: PlanState)
    requires ValidPreferences(prefs) && NonNegativeEstimates(st.sortedTasks)
    ensures forall t :: t in r.sortedTasks ==> t in st.sortedTasks
    ensures NonNegativeEstimates(r.sortedTasks)
  {
    if CountOn(st.scheduled, date) >= prefs.maxTasksPerDay then st
    else PlanBlocks(st, DayBlocks(slots, prefs.preferredStudyTime), date, prefs)
  }

  /** The loop over the days `dayOffset`, ..., `Horizon - 1`. */
  function PlanDays(st: PlanState, dayOffset: nat, slots: seq<Block>, today: int, prefs: UserPreferences): (r: PlanState)
    requires ValidPreferences(prefs) && NonNegativeEstimates(st.sortedTasks) && dayOffset <= Horizon
    ensures forall t :: t in r.sortedTasks ==> t in st.sortedTasks
    decreases Horizon - dayOffset
  {
    if dayOffset == Horizon then st
    else PlanDays(PlanDay(st, today + dayOffset, slots, prefs), dayOffset + 1, slots, today, prefs)
  }

  /** One turn of the loop over days. */
  lemma DayStep(st: PlanState, dayOffset: nat, nextOffset: nat, date: int, slots: seq<Block>, today: int, prefs: UserPreferences)
    requires ValidPreferences(prefs) && NonNegativeEstimates(st.sortedTasks)
    requires dayOffset < Horizon && nextOffset == dayOffset + 1 && date == today + dayOffset
    ensures PlanDays(st, dayOffset, slots, today, prefs) == PlanDays(PlanDay(st, date, slots, prefs), nextOffset, slots, today, prefs)
  {
  }

  lemma QueueEstimates(tasks: seq<Task>, now: int)
    requires PendingEstimates(tasks)
    ensures NonNegativeEstimates(SortedQueue(tasks, now))
  {
    var q := SortedQueue(tasks, now);
    forall t | t in q ensures t in tasks && !t.completed {
      assert t in multiset(q);
    }
  }

  /** The placements for the whole horizon. */
  function Plan(tasks: seq<Task>, template: ScheduleTemplate, prefs: UserPreferences, now: int, today: int): seq<ScheduledTask>
    requires ValidPreferences(prefs) && PendingEstimates(tasks)
  {
    QueueEstimates(tasks, now);
    PlanDays(PlanState([], SortedQueue(tasks, now)), 0, ReadBlocks(AvailableSlots(template)), today, prefs).scheduled
  }

  /** `scheduleTasksBasedOnAI`: without an active template it returns without a new schedule. */
  function Schedule(tasks: seq<Task>, currentSchedule: Option<ScheduleTemplate>, prefs: UserPreferences, now: int, today: int): (r: Option<seq<ScheduledTask>>)
    requires ValidPreferences(prefs) && PendingEstimates(tasks)
    ensures r.None? <==> currentSchedule.None?
  {
    match currentSchedule
    case None => None
    case Some(template) => Some(Plan(tasks, template, prefs, now, today))
  }

  /** One placement step of the packing loop. */
  lemma PackStep(st: PlanState, head: Task, currentTime: nat, nextTime: nat, slotEnd: int, date: int, prefs: UserPreferences)
    requires TaskDuration(head, prefs) > 0 && prefs.breakDuration >= 0
    requires currentTime + TaskDuration(head, prefs) <= slotEnd
    requires nextTime == currentTime + TaskDuration(head, prefs) + prefs.breakDuration
    ensures PackBlock(st, head, currentTime, slotEnd, date, prefs)
         == PackBlock(Place(st, head, currentTime, date, prefs), head, nextTime, slotEnd, date, prefs)
  {
  }

  /** The packing loop ends once the cursor has passed the block or the task no longer fits. */
  lemma PackStop(st: PlanState, head: Task, currentTime: nat, slotEnd: int, date: int, prefs: UserPreferences)
    requires TaskDuration(head, prefs) > 0 && prefs.breakDuration >= 0
    requires !(currentTime < slotEnd && currentTime + TaskDuration(head, prefs) <= slotEnd)
    ensures PackBlock(st, head, currentTime, slotEnd, date, prefs) == st
  {
  }

  /**
   * The packing loop of one block (the innermost `while` of `scheduleTasksBasedOnAI`):
   * places `nextTask` at the cursor while it fits, removing `sortedTasks[findIndex(id)]`
   * each time.
   */
  method PackBlockLoop(scheduled0: seq<ScheduledTask>, sortedTasks0: seq<Task>, nextTask: Task,
                       slotStart: nat, slotEnd: int, currentDate: int, prefs: UserPreferences)
    returns (scheduled: seq<ScheduledTask>, sortedTasks: seq<Task>)
    requires TaskDuration(nextTask, prefs) > 0 && prefs.breakDuration >= 0
    ensures PlanState(scheduled, sortedTasks)
         == PackBlock(PlanState(scheduled0, sortedTasks0), nextTask, slotStart, slotEnd, currentDate, prefs)
  {
    scheduled, sortedTasks := scheduled0, sortedTasks0;
    var currentTime := slotStart;
    ghost var goal := PackBlock(PlanState(scheduled0, sortedTasks0), nextTask, slotStart, slotEnd, currentDate, prefs);
    while currentTime < slotEnd
      invariant PackBlock(PlanState(scheduled, sortedTasks), nextTask, currentTime, slotEnd, currentDate, prefs) == goal
      decreases slotEnd - currentTime
    {
      var taskDuration := TaskDuration(nextTask, prefs);
      if currentTime + taskDuration <= slotEnd {
        ghost var before, cursor := PlanState(scheduled, sortedTasks), currentTime;
        scheduled := scheduled + [Assignment(nextTask, currentTime, taskDuration, currentDate)];
        sortedTasks := Splice(sortedTasks, FindIndex(sortedTasks, nextTask.id));
        assert PlanState(scheduled, sortedTasks) == Place(before, nextTask, currentTime, currentDate, prefs);
        currentTime := currentTime + taskDuration + prefs.breakDuration;
        PackStep(before, nextTask, cursor, currentTime, slotEnd, currentDate, prefs);
      } else {
        break;
      }
    }
  }

  /** One turn of the loop over a day's blocks that packs the first block with the first unscheduled task. */
  lemma PlanBlocksStep(st: PlanState, slots: seq<Block>, head: Task, date: int, prefs: UserPreferences)
    requires ValidPreferences(prefs) && NonNegativeEstimates(st.sortedTasks)
    requires slots != [] && CountOn(st.scheduled, date) < prefs.maxTasksPerDay
    requires Unscheduled(st.sortedTasks, st.scheduled) != [] && head == Unscheduled(st.sortedTasks, st.scheduled)[0]
    ensures head in st.sortedTasks && TaskDuration(head, prefs) > 0
    ensures PlanBlocks(st, slots, date, prefs) == PlanBlocks(PackSlot(st, head, slots[0], date, prefs), slots[1..], date, prefs)
  {
  }

  /** The same turn, with the block read from the next item. */
  lemma BlockStep(st: PlanState, slot: ScheduleItem, rest: seq<ScheduleItem>, head: Task, date: int, prefs: UserPreferences)
    requires ValidPreferences(prefs) && NonNegativeEstimates(st.sortedTasks)
    requires CountOn(st.scheduled, date) < prefs.maxTasksPerDay
    requires Unscheduled(st.sortedTasks, st.scheduled) != [] && head == Unscheduled(st.sortedTasks, st.scheduled)[0]
    ensures head in st.sortedTasks && TaskDuration(head, prefs) > 0
    ensures PlanBlocks(st, ReadBlocks([slot] + rest), date, prefs)
         == PlanBlocks(PackSlot(st, head, ReadBlock(slot), date, prefs), ReadBlocks(rest), date, prefs)
  {
    MapCons(slot, rest, ReadBlock);
    PlanBlocksStep(st, ReadBlocks([slot] + rest), head, date, prefs);
  }

  /**
   * The loop over one day's blocks: stops at the cap, or once every task of the queue has
   * a placement; otherwise packs the block with the first unscheduled task.
   */
  method PlanDayLoop(scheduled0: seq<ScheduledTask>, sortedTasks0: seq<Task>, daySlots: seq<ScheduleItem>,
                     currentDate: int, prefs: UserPreferences)
    returns (scheduled: seq<ScheduledTask>, sortedTasks: seq<Task>)
    requires ValidPreferences(prefs) && NonNegativeEstimates(sortedTasks0)
    ensures PlanState(scheduled, sortedTasks) == PlanBlocks(PlanState(scheduled0, sortedTasks0), ReadBlocks(daySlots), currentDate, prefs)
  {
    scheduled, sortedTasks := scheduled0, sortedTasks0;
    var i := 0;
    ghost var goal := PlanBlocks(PlanState(scheduled0, sortedTasks0), ReadBlocks(daySlots), currentDate, prefs);
    while i < |daySlots|
      invariant 0 <= i <= |daySlots|
      invariant NonNegativeEstimates(sortedTasks)
      invariant PlanBlocks(PlanState(scheduled, sortedTasks), ReadBlocks(daySlots[i..]), currentDate, prefs) == goal
    {
      var slot := daySlots[i];
      if CountOn(scheduled, currentDate) >= prefs.maxTasksPerDay {
        break;
      }
      var slotStart := TimeToMinutes(slot.startTime);
      var slotEnd := TimeToMinutes(slot.endTime);
      var remainingTasks := Unscheduled(sortedTasks, scheduled);
      if |remainingTasks| == 0 {
        break;
      }
      ghost var before := PlanState(scheduled, sortedTasks);
      assert daySlots[i..] == [slot] + daySlots[i + 1..];
      BlockStep(before, slot, daySlots[i + 1..], remainingTasks[0], currentDate, prefs);
      if slotStart.Some? && slotEnd.Some? {
        scheduled, sortedTasks := PackBlockLoop(scheduled, sortedTasks, remainingTasks[0], slotStart.value, slotEnd.value, currentDate, prefs);
      }
      assert PlanState(scheduled, sortedTasks) == PackSlot(before, remainingTasks[0], ReadBlock(slot), currentDate, prefs);
      i := i + 1;
    }
  }

  /**
   * `scheduleTasksBasedOnAI` with its loops; `now` stands for `Date.now()` and `today` for
   * the day number of local midnight. `None` means it returned early (no active template).
   */
  method ScheduleTasks(tasks: seq<Task>, currentSchedule: Option<ScheduleTemplate>, prefs: UserPreferences, now: int, today: int)
    returns (result: Option<seq<ScheduledTask>>)
    requires ValidPreferences(prefs) && PendingEstimates(tasks)
    ensures result == Schedule(tasks, currentSchedule, prefs, now, today)
  {
    if currentSchedule.None? {
      return None;
    }
    var incompleteTasks := Filter(tasks, IsIncomplete);
    var sortedTasks := SortDesc(incompleteTasks, WeightKey(now));
    var availableSlots := Filter(currentSchedule.value.scheduleItems, IsSchedulable);
    var scheduled: seq<ScheduledTask> := [];
    QueueEstimates(tasks, now);
    ghost var blocks := ReadBlocks(availableSlots);
    ghost var goal := PlanDays(PlanState(scheduled, sortedTasks), 0, blocks, today, prefs);

    for dayOffset := 0 to Horizon
      invariant NonNegativeEstimates(sortedTasks)
      invariant PlanDays(PlanState(scheduled, sortedTasks), dayOffset, blocks, today, prefs) == goal
    {
      var currentDate := today + dayOffset;
      ghost var before := PlanState(scheduled, sortedTasks);
      if CountOn(scheduled, currentDate) >= prefs.maxTasksPerDay {
        assert before == PlanDay(before, currentDate, blocks, prefs);
        DayStep(before, dayOffset, dayOffset + 1, currentDate, blocks, today, prefs);
        continue;
      }
      var daySlots := SortDesc(availableSlots, SlotKey(prefs.preferredStudyTime));
      scheduled, sortedTasks := PlanDayLoop(scheduled, sortedTasks, daySlots, currentDate, prefs);
      ReadDaySlots(availableSlots, prefs.preferredStudyTime);
      assert PlanState(scheduled, sortedTasks) == PlanDay(before, currentDate, blocks, prefs);
      DayStep(before, dayOffset, dayOffset + 1, currentDate, blocks, today, prefs);
    }
    return Some(scheduled);
  }
}
