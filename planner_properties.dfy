/**
 * What the planner guarantees about the schedule it builds, and the two quirks of its
 * code: the same head task is placed repeatedly in a block, and the daily cap is only
 * checked between blocks.
 */
module PlannerProperties {
  import opened Wrappers
  import opened Strings
  import opened TimeOfDay
  import opened Sorting
  import opened TaskModel
  import opened Scoring
  import opened Planner

  /** The placement reads back as minutes inside the (read) block and lasts the task's duration. */
  predicate WithinBlock(p: ScheduledTask, slot: Block, prefs: UserPreferences) {
    var ps, pe := TimeToMinutes(p.startTime), TimeToMinutes(p.endTime);
    && ps.Some? && pe.Some? && slot.start.Some? && slot.end.Some?
    && slot.start.value <= ps.value
    && pe.value == ps.value + TaskDuration(p.task, prefs)
    && pe.value <= slot.end.value
  }

  /** The slot text is "start - end". */
  predicate Labelled(p: ScheduledTask) {
    p.timeSlot == p.startTime + " - " + p.endTime
  }

  /** A placement made in `slot` on day `date` for `head`. */
  predicate PlacedIn(p: ScheduledTask, head: Task, slot: Block, date: int, prefs: UserPreferences) {
    p.task == head && p.date == date && Labelled(p) && WithinBlock(p, slot, prefs)
  }

  /** A placement at a cursor inside the block that leaves room for the task lies in the block. */
  lemma AssignmentPlacedIn(head: Task, currentTime: nat, slotStart: nat, slotEnd: nat,
                           slot: Block, date: int, prefs: UserPreferences)
    requires TaskDuration(head, prefs) > 0
    requires slot.start == Some(slotStart) && slot.end == Some(slotEnd)
    requires slotStart <= currentTime && currentTime + TaskDuration(head, prefs) <= slotEnd
    ensures PlacedIn(Assignment(head, currentTime, TaskDuration(head, prefs), date), head, slot, date, prefs)
  {
    RoundTrip(currentTime);
    RoundTrip(currentTime + TaskDuration(head, prefs));
  }

  /**
   * Packing a block keeps the earlier placements and adds only placements of `head` on
   * `date` that lie inside the block, each lasting the task's duration.
   */
  lemma {:induction false} PackBlockSound(st: PlanState, head: Task, currentTime: nat, slotStart: nat, slotEnd: nat,
                                          slot: Block, date: int, prefs: UserPreferences)
    requires TaskDuration(head, prefs) > 0 && prefs.breakDuration >= 0
    requires slot.start == Some(slotStart) && slot.end == Some(slotEnd)
    requires slotStart <= currentTime
    ensures var r := PackBlock(st, head, currentTime, slotEnd, date, prefs);
      && |st.scheduled| <= |r.scheduled| && r.scheduled[..|st.scheduled|] == st.scheduled
      && forall i :: |st.scheduled| <= i < |r.scheduled| ==> PlacedIn(r.scheduled[i], head, slot, date, prefs)
    decreases slotEnd - currentTime
  {
    var d := TaskDuration(head, prefs);
    if currentTime < slotEnd && currentTime + d <= slotEnd {
      var next := Place(st, head, currentTime, date, prefs);
      var nextTime := currentTime + d + prefs.breakDuration;
      PackStep(st, head, currentTime, nextTime, slotEnd, date, prefs);
      AssignmentPlacedIn(head, currentTime, slotStart, slotEnd, slot, date, prefs);
      PackBlockSound(next, head, nextTime, slotStart, slotEnd, slot, date, prefs);
      var r := PackBlock(next, head, nextTime, slotEnd, date, prefs);
      var n := |st.scheduled|;
      assert next.scheduled == st.scheduled + [Assignment(head, currentTime, d, date)];
      assert r.scheduled[..n] == next.scheduled[..n];
      forall i | n <= i < |r.scheduled| ensures PlacedIn(r.scheduled[i], head, slot, date, prefs) {
        if i == n {
          assert r.scheduled[n] == Assignment(head, currentTime, d, date);
        }
      }
    } else {
      PackStop(st, head, currentTime, slotEnd, date, prefs);
      assert st.scheduled[..|st.scheduled|] == st.scheduled;
    }
  }

  /** The cursor after `j` steps of `step` minutes from `start`. */
  function Cursor(start: nat, step: nat, j: nat): nat {
    if j == 0 then start else Cursor(start, step, j - 1) + step
  }

  lemma {:induction false} CursorIsLinear(start: nat, step: nat, j: nat)
    ensures Cursor(start, step, j) == start + j * step
  {
    if j > 0 {
      CursorIsLinear(start, step, j - 1);
    }
  }

  lemma {:induction false} CursorShift(start: nat, step: nat, j: nat)
    ensures Cursor(start + step, step, j) == Cursor(start, step, j + 1)
  {
    if j > 0 {
      CursorShift(start, step, j - 1);
    }
  }

  lemma CursorStep(start: nat, step: nat, k: nat, d: nat, slotEnd: int)
    requires k >= 1 && Cursor(start + step, step, k - 1) + d > slotEnd
    ensures Cursor(start, step, k) + d > slotEnd
  {
    CursorShift(start, step, k - 1);
  }

  /**
   * Packing a block keeps the earlier placements and goes on as long as the task fits:
   * after k placements, one more would end after the block.
   */
  lemma {:induction false} PackBlockSpacing(st: PlanState, head: Task, currentTime: nat, slotEnd: int, date: int, prefs: UserPreferences)
    requires TaskDuration(head, prefs) > 0 && prefs.breakDuration >= 0
    ensures var r := PackBlock(st, head, currentTime, slotEnd, date, prefs);
      var d, n := TaskDuration(head, prefs), |st.scheduled|;
      && n <= |r.scheduled| && r.scheduled[..n] == st.scheduled
      && Cursor(currentTime, d + prefs.breakDuration, |r.scheduled| - n) + d > slotEnd
    decreases slotEnd - currentTime
  {
    var d, n := TaskDuration(head, prefs), |st.scheduled|;
    var step := d + prefs.breakDuration;
    if currentTime < slotEnd && currentTime + d <= slotEnd {
      var next := Place(st, head, currentTime, date, prefs);
      var nextTime := currentTime + step;
      PackStep(st, head, currentTime, nextTime, slotEnd, date, prefs);
      PackBlockSpacing(next, head, nextTime, slotEnd, date, prefs);
      var r := PackBlock(next, head, nextTime, slotEnd, date, prefs);
      assert next.scheduled == st.scheduled + [Assignment(head, currentTime, d, date)];
      assert r.scheduled[..n] == r.scheduled[..n + 1][..n];
      CursorStep(currentTime, step, |r.scheduled| - n, d, slotEnd);
    } else {
      PackStop(st, head, currentTime, slotEnd, date, prefs);
      assert Cursor(currentTime, step, 0) == currentTime;
    }
  }

  /**
   * The j-th placement of a block is `head` at `Cursor(currentTime, step, j)`, that is
   * `currentTime + j * step` with step the duration plus the break.
   */
  lemma {:induction false} PackBlockPlacement(st: PlanState, head: Task, currentTime: nat, slotEnd: int, date: int,
                                              prefs: UserPreferences, j: nat)
    requires TaskDuration(head, prefs) > 0 && prefs.breakDuration >= 0
    requires |st.scheduled| + j < |PackBlock(st, head, currentTime, slotEnd, date, prefs).scheduled|
    ensures var d := TaskDuration(head, prefs);
      PackBlock(st, head, currentTime, slotEnd, date, prefs).scheduled[|st.scheduled| + j]
        == Assignment(head, Cursor(currentTime, d + prefs.breakDuration, j), d, date)
    decreases j
  {
    var d, n := TaskDuration(head, prefs), |st.scheduled|;
    var step := d + prefs.breakDuration;
    var next := Place(st, head, currentTime, date, prefs);
    var nextTime := currentTime + step;
    assert currentTime < slotEnd && currentTime + d <= slotEnd;
    PackStep(st, head, currentTime, nextTime, slotEnd, date, prefs);
    var r := PackBlock(next, head, nextTime, slotEnd, date, prefs);
    assert next.scheduled == st.scheduled + [Assignment(head, currentTime, d, date)];
    if j == 0 {
      PackBlockSpacing(next, head, nextTime, slotEnd, date, prefs);
      assert r.scheduled[n] == r.scheduled[..n + 1][n];
    } else {
      PackBlockPlacement(next, head, nextTime, slotEnd, date, prefs, j - 1);
      CursorShift(currentTime, step, j - 1);
    }
  }

  /**
   * Once `head` is no longer in the queue, every placement splices index -1, so k placements
   * cut the last k tasks off the queue (or empty it).
   */
  lemma {:induction false} PackBlockDropsFromEnd(st: PlanState, head: Task, currentTime: nat, slotEnd: int, date: int, prefs: UserPreferences)
    requires TaskDuration(head, prefs) > 0 && prefs.breakDuration >= 0
    requires forall t :: t in st.sortedTasks ==> t.id != head.id
    ensures var r := PackBlock(st, head, currentTime, slotEnd, date, prefs);
      var k := |r.scheduled| - |st.scheduled|;
      && k >= 0
      && r.sortedTasks == st.sortedTasks[..if k <= |st.sortedTasks| then |st.sortedTasks| - k else 0]
    decreases slotEnd - currentTime
  {
    var d := TaskDuration(head, prefs);
    if currentTime < slotEnd && currentTime + d <= slotEnd {
      var q := st.sortedTasks;
      var next := Place(st, head, currentTime, date, prefs);
      var nextTime := currentTime + d + prefs.breakDuration;
      assert FindIndex(q, head.id) == -1;
      SpliceRemovesOne(q, -1);
      assert next.sortedTasks == if q == [] then [] else q[..|q| - 1];
      PackStep(st, head, currentTime, nextTime, slotEnd, date, prefs);
      PackBlockDropsFromEnd(next, head, nextTime, slotEnd, date, prefs);
    } else {
      PackStop(st, head, currentTime, slotEnd, date, prefs);
    }
  }

  /** Packing one block: as `PackBlockSound` from the block's start, and nothing when a time reads as NaN. */
  lemma PackSlotSound(st: PlanState, head: Task, slot: Block, date: int, prefs: UserPreferences)
    requires TaskDuration(head, prefs) > 0 && prefs.breakDuration >= 0
    ensures var r := PackSlot(st, head, slot, date, prefs);
      && |st.scheduled| <= |r.scheduled| && r.scheduled[..|st.scheduled|] == st.scheduled
      && forall i :: |st.scheduled| <= i < |r.scheduled| ==> PlacedIn(r.scheduled[i], head, slot, date, prefs)
  {
    if slot.start.Some? && slot.end.Some? {
      PackBlockSound(st, head, slot.start.value, slot.start.value, slot.end.value, slot, date, prefs);
    }
  }

  /** The queue holds only incomplete tasks of the pool. */
  predicate QueueFrom(queue: seq<Task>, tasks: seq<Task>) {
    forall t :: t in queue ==> t in tasks && !t.completed
  }

  /** The blocks of a day are among the read blocks of the template. */
  predicate BlocksFrom(slots: seq<Block>, blocks: seq<Block>) {
    forall b :: b in slots ==> b in blocks
  }

  /** The placement lies inside one of `blocks`, searched from the first. */
  predicate InSomeBlock(p: ScheduledTask, blocks: seq<Block>, prefs: UserPreferences)
    decreases |blocks|
  {
    blocks != [] && (WithinBlock(p, blocks[0], prefs) || InSomeBlock(p, blocks[1..], prefs))
  }

  lemma {:induction false} InSomeBlockIff(p: ScheduledTask, blocks: seq<Block>, prefs: UserPreferences)
    ensures InSomeBlock(p, blocks, prefs) <==> exists b :: b in blocks && WithinBlock(p, b, prefs)
    decreases |blocks|
  {
    if blocks != [] {
      InSomeBlockIff(p, blocks[1..], prefs);
      assert forall b :: b in blocks <==> b == blocks[0] || b in blocks[1..];
    }
  }

  /** A placement of an incomplete pool task, labelled "start - end", inside one of `blocks`. */
  predicate SoundIn(p: ScheduledTask, tasks: seq<Task>, blocks: seq<Block>, prefs: UserPreferences) {
    && p.task in tasks && !p.task.completed && Labelled(p)
    && InSomeBlock(p, blocks, prefs)
  }

  /**
   * A sound placement: an incomplete task of the pool, labelled "start - end", lying
   * inside a schedulable block of the template for exactly the task's duration.
   */
  predicate Sound(p: ScheduledTask, tasks: seq<Task>, template: ScheduleTemplate, prefs: UserPreferences) {
    && p.task in tasks && !p.task.completed && Labelled(p)
    && exists b :: b in template.scheduleItems && IsSchedulable(b) && WithinBlock(p, ReadBlock(b), prefs)
  }

  /** A placement inside a read block of the schedulable items is sound. */
  lemma ReadBlocksSound(p: ScheduledTask, tasks: seq<Task>, template: ScheduleTemplate, prefs: UserPreferences)
    requires SoundIn(p, tasks, ReadBlocks(AvailableSlots(template)), prefs)
    ensures Sound(p, tasks, template, prefs)
  {
    var items := AvailableSlots(template);
    var blocks := ReadBlocks(items);
    InSomeBlockIff(p, blocks, prefs);
    var b :| b in blocks && WithinBlock(p, b, prefs);
    var i :| 0 <= i < |blocks| && blocks[i] == b;
    assert blocks[i] == ReadBlock(items[i]) && items[i] in items;
  }

  /** Planning one day's blocks adds only sound placements on that day. */
  lemma {:induction false} PlanBlocksSound(st: PlanState, slots: seq<Block>, date: int, prefs: UserPreferences,
                                           tasks: seq<Task>, blocks: seq<Block>)
    requires ValidPreferences(prefs) && NonNegativeEstimates(st.sortedTasks)
    requires QueueFrom(st.sortedTasks, tasks) && BlocksFrom(slots, blocks)
    ensures var r := PlanBlocks(st, slots, date, prefs);
      && |st.scheduled| <= |r.scheduled| && r.scheduled[..|st.scheduled|] == st.scheduled
      && forall i :: |st.scheduled| <= i < |r.scheduled| ==>
           r.scheduled[i].date == date && SoundIn(r.scheduled[i], tasks, blocks, prefs)
    decreases |slots|
  {
    if slots != [] && CountOn(st.scheduled, date) < prefs.maxTasksPerDay {
      var remaining := Unscheduled(st.sortedTasks, st.scheduled);
      if remaining != [] {
        var head, slot := remaining[0], slots[0];
        assert head in st.sortedTasks;
        var mid := PackSlot(st, head, slot, date, prefs);
        PackSlotSound(st, head, slot, date, prefs);
        PlanBlocksSound(mid, slots[1..], date, prefs, tasks, blocks);
        var r := PlanBlocks(mid, slots[1..], date, prefs);
        var n, m := |st.scheduled|, |mid.scheduled|;
        assert r.scheduled[..n] == mid.scheduled[..n];
        forall i | n <= i < |r.scheduled| ensures r.scheduled[i].date == date && SoundIn(r.scheduled[i], tasks, blocks, prefs) {
          if i < m {
            assert r.scheduled[i] == mid.scheduled[i];
            assert PlacedIn(mid.scheduled[i], head, slot, date, prefs);
            assert WithinBlock(r.scheduled[i], slot, prefs);
            InSomeBlockIff(r.scheduled[i], blocks, prefs);
          }
        }
      }
    }
  }

  /** The days of the placements never decrease along the schedule. */
  predicate DatesInOrder(scheduled: seq<ScheduledTask>) {
    forall i, j :: 0 <= i < j < |scheduled| ==> scheduled[i].date <= scheduled[j].date
  }

  /** Every placement is sound and falls on a day of the window `[first, last)`. */
  predicate SoundWithin(scheduled: seq<ScheduledTask>, tasks: seq<Task>, template: ScheduleTemplate,
                        prefs: UserPreferences, first: int, last: int) {
    forall i :: 0 <= i < |scheduled| ==>
      Sound(scheduled[i], tasks, template, prefs) && first <= scheduled[i].date < last
  }

  /** Every placement lies in one of `blocks` and falls on a day of the window `[first, last)`. */
  predicate PlacedWithin(scheduled: seq<ScheduledTask>, tasks: seq<Task>, blocks: seq<Block>,
                         prefs: UserPreferences, first: int, last: int) {
    forall i :: 0 <= i < |scheduled| ==>
      SoundIn(scheduled[i], tasks, blocks, prefs) && first <= scheduled[i].date < last
  }

  // ----- The daily cap in the loop over a day's blocks

  /** The loop over a day's blocks can be split anywhere: the later blocks go on from where the earlier ones left off. */
  lemma {:induction false} PlanBlocksConcat(st: PlanState, s1: seq<Block>, s2: seq<Block>, date: int, prefs: UserPreferences)
    requires ValidPreferences(prefs) && NonNegativeEstimates(st.sortedTasks)
    ensures PlanBlocks(st, s1 + s2, date, prefs) == PlanBlocks(PlanBlocks(st, s1, date, prefs), s2, date, prefs)
    decreases |s1|
  {
    if s1 == [] {
      assert s1 + s2 == s2;
    } else if CountOn(st.scheduled, date) < prefs.maxTasksPerDay && Unscheduled(st.sortedTasks, st.scheduled) != [] {
      var head := Unscheduled(st.sortedTasks, st.scheduled)[0];
      PlanBlocksStep(st, s1, head, date, prefs);
      PlanBlocksStep(st, s1 + s2, head, date, prefs);
      assert (s1 + s2)[1..] == s1[1..] + s2;
      PlanBlocksConcat(PackSlot(st, head, s1[0], date, prefs), s1[1..], s2, date, prefs);
    }
  }

  /**
   * Once the day's count has reached the cap after some of its blocks, the blocks that
   * follow change nothing: the loop ends there.
   */
  lemma CapStopsBlocks(st: PlanState, s1: seq<Block>, s2: seq<Block>, date: int, prefs: UserPreferences)
    requires ValidPreferences(prefs) && NonNegativeEstimates(st.sortedTasks)
    requires CountOn(PlanBlocks(st, s1, date, prefs).scheduled, date) >= prefs.maxTasksPerDay
    ensures PlanBlocks(st, s1 + s2, date, prefs) == PlanBlocks(st, s1, date, prefs)
  {
    PlanBlocksConcat(st, s1, s2, date, prefs);
  }

  /**
   * The block that follows any run of blocks is packed only when it is entered with the
   * day's count below the cap and a task left unscheduled; it is then packed whole with the
   * first unscheduled task, the cap not being looked at again while it is packed.
   */
  lemma BlockEnteredBelowCap(st: PlanState, s1: seq<Block>, b: Block, date: int, prefs: UserPreferences)
    requires ValidPreferences(prefs) && NonNegativeEstimates(st.sortedTasks)
    ensures var r := PlanBlocks(st, s1, date, prefs);
      var remaining := Unscheduled(r.sortedTasks, r.scheduled);
      PlanBlocks(st, s1 + [b], date, prefs)
        == if CountOn(r.scheduled, date) >= prefs.maxTasksPerDay || remaining == [] then r
           else PackSlot(r, remaining[0], b, date, prefs)
  {
    PlanBlocksConcat(st, s1, [b], date, prefs);
    var r := PlanBlocks(st, s1, date, prefs);
    var remaining := Unscheduled(r.sortedTasks, r.scheduled);
    if CountOn(r.scheduled, date) < prefs.maxTasksPerDay && remaining != [] {
      PlanBlocksStep(r, [b], remaining[0], date, prefs);
    }
  }

  /** A day whose cap is already reached changes nothing. */
  lemma PlanDaySkips(st: PlanState, date: int, slots: seq<Block>, prefs: UserPreferences)
    requires ValidPreferences(prefs) && NonNegativeEstimates(st.sortedTasks)
    requires CountOn(st.scheduled, date) >= prefs.maxTasksPerDay
    ensures PlanDay(st, date, slots, prefs) == st
  {
  }

  /** A day below its cap plans its blocks in order of preference. */
  lemma PlanDayPlans(st: PlanState, date: int, slots: seq<Block>, prefs: UserPreferences)
    requires ValidPreferences(prefs) && NonNegativeEstimates(st.sortedTasks)
    requires CountOn(st.scheduled, date) < prefs.maxTasksPerDay
    ensures PlanDay(st, date, slots, prefs) == PlanBlocks(st, DayBlocks(slots, prefs.preferredStudyTime), date, prefs)
  {
  }

  /** One day keeps the schedule sound and in day order, and moves the window on by that day. */
  lemma PlanDaySound(st: PlanState, date: int, end: int, slots: seq<Block>, today: int,
                 prefs: UserPreferences, tasks: seq<Task>)
    requires ValidPreferences(prefs) && NonNegativeEstimates(st.sortedTasks)
    requires QueueFrom(st.sortedTasks, tasks)
    requires today <= date && end == date + 1
    requires PlacedWithin(st.scheduled, tasks, slots, prefs, today, date) && DatesInOrder(st.scheduled)
    ensures var r := PlanDay(st, date, slots, prefs);
      && QueueFrom(r.sortedTasks, tasks)
      && PlacedWithin(r.scheduled, tasks, slots, prefs, today, end) && DatesInOrder(r.scheduled)
  {
    if CountOn(st.scheduled, date) < prefs.maxTasksPerDay {
      var daySlots := DayBlocks(slots, prefs.preferredStudyTime);
      assert BlocksFrom(daySlots, slots) by {
        forall b | b in daySlots ensures b in slots {
          assert b in multiset(daySlots);
        }
      }
      PlanBlocksSound(st, daySlots, date, prefs, tasks, slots);
      var r := PlanBlocks(st, daySlots, date, prefs);
      var n := |st.scheduled|;
      forall i | 0 <= i < n ensures r.scheduled[i] == st.scheduled[i] {
        assert r.scheduled[..n][i] == st.scheduled[i];
      }
      forall i | 0 <= i < |r.scheduled|
        ensures SoundIn(r.scheduled[i], tasks, slots, prefs) && today <= r.scheduled[i].date < date + 1
      {
        if i < n {
          assert r.scheduled[i] == st.scheduled[i];
        }
      }
      forall i, j | 0 <= i < j < |r.scheduled| ensures r.scheduled[i].date <= r.scheduled[j].date {
        if j < n {
          assert st.scheduled[i].date <= st.scheduled[j].date;
        } else if i < n {
          assert st.scheduled[i].date < date;
        }
      }
      PlanDayPlans(st, date, slots, prefs);
    } else {
      PlanDaySkips(st, date, slots, prefs);
    }
  }

  /** The remaining days keep the schedule sound and in day order, within the whole window. */
  lemma {:induction false} PlanDaysSound(st: PlanState, dayOffset: nat, slots: seq<Block>, today: int,
                                         prefs: UserPreferences, tasks: seq<Task>)
    requires ValidPreferences(prefs) && NonNegativeEstimates(st.sortedTasks) && dayOffset <= Horizon
    requires QueueFrom(st.sortedTasks, tasks)
    requires PlacedWithin(st.scheduled, tasks, slots, prefs, today, today + dayOffset) && DatesInOrder(st.scheduled)
    ensures var r := PlanDays(st, dayOffset, slots, today, prefs);
      PlacedWithin(r.scheduled, tasks, slots, prefs, today, today + Horizon) && DatesInOrder(r.scheduled)
    decreases Horizon - dayOffset
  {
    if dayOffset < Horizon {
      var date := today + dayOffset;
      var next := PlanDay(st, date, slots, prefs);
      PlanDaySound(st, date, today + (dayOffset + 1), slots, today, prefs, tasks);
      PlanDaysSound(next, dayOffset + 1, slots, today, prefs, tasks);
      DayStep(st, dayOffset, dayOffset + 1, date, slots, today, prefs);
    } else {
      PlanDaysDone(st, dayOffset, slots, today, prefs);
    }
  }

  lemma PlanDaysDone(st: PlanState, dayOffset: nat, slots: seq<Block>, today: int, prefs: UserPreferences)
    requires ValidPreferences(prefs) && NonNegativeEstimates(st.sortedTasks) && dayOffset == Horizon
    ensures PlanDays(st, dayOffset, slots, today, prefs) == st
  {
  }

  /**
   * Every placement of the plan is an incomplete task of the pool, labelled "start - end",
   * lying inside a "Free Time" or "Work/Study" block of the template for the task's
   * duration, on one of the seven days from today; placements come in day order.
   */
  lemma PlanSound(tasks: seq<Task>, template: ScheduleTemplate, prefs: UserPreferences, now: int, today: int)
    requires ValidPreferences(prefs) && PendingEstimates(tasks)
    ensures var plan := Plan(tasks, template, prefs, now, today);
      SoundWithin(plan, tasks, template, prefs, today, today + Horizon) && DatesInOrder(plan)
  {
    QueueEstimates(tasks, now);
    var queue := SortedQueue(tasks, now);
    assert QueueFrom(queue, tasks) by {
      forall t | t in queue ensures t in Filter(tasks, IsIncomplete) {
        assert t in multiset(queue);
      }
    }
    var blocks := ReadBlocks(AvailableSlots(template));
    PlanDaysSound(PlanState([], queue), 0, blocks, today, prefs, tasks);
    var plan := Plan(tasks, template, prefs, now, today);
    forall i | 0 <= i < |plan| ensures Sound(plan[i], tasks, template, prefs) {
      ReadBlocksSound(plan[i], tasks, template, prefs);
    }
  }

  /**
   * The queue holds exactly the incomplete tasks (each as often as in the pool), sorted by
   * weight, highest first, and tasks of equal weight keep their order in the pool.
   */
  lemma QueueOrder(tasks: seq<Task>, now: int, k: int)
    ensures var queue := SortedQueue(tasks, now);
      && SortedDesc(queue, WeightKey(now))
      && multiset(queue) == multiset(Filter(tasks, IsIncomplete))
      && (forall t :: t in queue <==> t in tasks && !t.completed)
      && Filter(queue, KeyIs(WeightKey(now), k)) == Filter(Filter(tasks, IsIncomplete), KeyIs(WeightKey(now), k))
  {
    var queue, incomplete := SortedQueue(tasks, now), Filter(tasks, IsIncomplete);
    FilterCounts(tasks, IsIncomplete);
    forall t ensures t in queue <==> t in tasks && !t.completed {
      assert t in queue <==> t in multiset(incomplete);
    }
    SortIsStable(incomplete, WeightKey(now), k);
  }

  /**
   * The blocks tried on a day are the schedulable blocks of the template, best time-of-day
   * score first, and blocks of equal score keep their template order.
   */
  lemma DayOrder(template: ScheduleTemplate, preferred: StudyTime, k: int)
    ensures var slots := DaySlots(AvailableSlots(template), preferred);
      && SortedDesc(slots, SlotKey(preferred))
      && (forall b :: b in slots <==> b in template.scheduleItems && IsSchedulable(b))
      && Filter(slots, KeyIs(SlotKey(preferred), k)) == Filter(AvailableSlots(template), KeyIs(SlotKey(preferred), k))
  {
    var available := AvailableSlots(template);
    var slots := DaySlots(available, preferred);
    FilterCounts(template.scheduleItems, IsSchedulable);
    forall b ensures b in slots <==> b in template.scheduleItems && IsSchedulable(b) {
      assert b in slots <==> b in multiset(available);
    }
    SortIsStable(available, SlotKey(preferred), k);
  }

  /** With nothing to place, nowhere to place it, or a cap of zero, the remaining days add nothing. */
  lemma {:induction false} NothingToPlan(st: PlanState, dayOffset: nat, slots: seq<Block>, today: int, prefs: UserPreferences)
    requires ValidPreferences(prefs) && NonNegativeEstimates(st.sortedTasks) && dayOffset <= Horizon
    requires st.sortedTasks == [] || slots == [] || (st.scheduled == [] && prefs.maxTasksPerDay <= 0)
    ensures PlanDays(st, dayOffset, slots, today, prefs) == st
    decreases Horizon - dayOffset
  {
    if dayOffset < Horizon {
      var date := today + dayOffset;
      if CountOn(st.scheduled, date) >= prefs.maxTasksPerDay {
        PlanDaySkips(st, date, slots, prefs);
      } else {
        PlanDayPlans(st, date, slots, prefs);
        var daySlots := DayBlocks(slots, prefs.preferredStudyTime);
        assert |daySlots| == |slots|;
      }
      DayStep(st, dayOffset, dayOffset + 1, date, slots, today, prefs);
      NothingToPlan(st, dayOffset + 1, slots, today, prefs);
    } else {
      PlanDaysDone(st, dayOffset, slots, today, prefs);
    }
  }

  /** When the first day empties the queue, the plan is the first day's placements. */
  lemma FirstDayOnly(tasks: seq<Task>, template: ScheduleTemplate, prefs: UserPreferences, now: int, today: int,
                     queue: seq<Task>, blocks: seq<Block>, first: PlanState)
    requires ValidPreferences(prefs) && PendingEstimates(tasks) && NonNegativeEstimates(queue)
    requires queue == SortedQueue(tasks, now) && blocks == ReadBlocks(AvailableSlots(template))
    requires first == PlanDay(PlanState([], queue), today, blocks, prefs) && first.sortedTasks == []
    ensures Plan(tasks, template, prefs, now, today) == first.scheduled
  {
    var st0 := PlanState([], queue);
    DayStep(st0, 0, 1, today, blocks, today, prefs);
    NothingToPlan(first, 1, blocks, today, prefs);
  }

  lemma AllCompletedEmptyQueue(tasks: seq<Task>, now: int)
    requires forall t :: t in tasks ==> t.completed
    ensures SortedQueue(tasks, now) == []
  {
    FilterKeepsNone(tasks, IsIncomplete);
  }

  lemma NoBlocksNoSlots(template: ScheduleTemplate)
    requires forall b :: b in template.scheduleItems ==> !IsSchedulable(b)
    ensures AvailableSlots(template) == []
  {
    FilterKeepsNone(template.scheduleItems, IsSchedulable);
  }

  /**
   * The plan is empty when no task is incomplete, when the template has no "Free Time" or
   * "Work/Study" block, or when at most zero tasks are allowed per day.
   */
  lemma EmptyPlan(tasks: seq<Task>, template: ScheduleTemplate, prefs: UserPreferences, now: int, today: int)
    requires ValidPreferences(prefs) && PendingEstimates(tasks)
    requires (forall t :: t in tasks ==> t.completed)
          || (forall b :: b in template.scheduleItems ==> !IsSchedulable(b))
          || prefs.maxTasksPerDay <= 0
    ensures Plan(tasks, template, prefs, now, today) == []
  {
    QueueEstimates(tasks, now);
    if forall t :: t in tasks ==> t.completed {
      AllCompletedEmptyQueue(tasks, now);
    } else if forall b :: b in template.scheduleItems ==> !IsSchedulable(b) {
      NoBlocksNoSlots(template);
    }
    NothingToPlan(PlanState([], SortedQueue(tasks, now)), 0, ReadBlocks(AvailableSlots(template)), today, prefs);
  }
}
