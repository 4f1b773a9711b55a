/**
 * Concrete plans: one task in one block, and two that show what the packing loop does as
 * written (the head of the queue is placed again while it fits, each repeat splices the
 * last task off the queue, and the daily cap is not looked at while a block is packed).
 * The blocks start at any minute `start`; two sample templates show blocks that read as
 * 08:00-10:00 and 08:00-09:30.
 */
module PlannerScenarios {
  import opened Wrappers
  import opened Strings
  import opened TimeOfDay
  import opened Sorting
  import opened TaskModel
  import opened Scoring
  import opened Planner
  import opened PlannerProperties

  // ----- Reading a clock time

  /** A two-digit text reads as its tens digit times ten plus its units digit. */
  lemma TwoDigits(s: string)
    requires |s| == 2 && IsDigit(s[0]) && IsDigit(s[1])
    ensures AllDigits(s) && DigitsValue(s) == DigitValue(s[0]) * 10 + DigitValue(s[1])
  {
    var t := s[..1];
    assert t == [s[0]] && t[..0] == [];
    assert AllDigits(t) && DigitsValue(t) == DigitValue(s[0]);
    assert s[..|s| - 1] == t;
  }

  /** A time written "hh:mm" reads as hh * 60 + mm minutes. */
  lemma ReadClock(t: string)
    requires |t| == 5 && t[2] == ':' && IsDigit(t[0]) && IsDigit(t[1]) && IsDigit(t[3]) && IsDigit(t[4])
    ensures TimeToMinutes(t)
         == Some((DigitValue(t[0]) * 10 + DigitValue(t[1])) * 60 + DigitValue(t[3]) * 10 + DigitValue(t[4]))
  {
    var h, mm := t[..2], t[3..];
    TwoDigits(h);
    TwoDigits(mm);
    assert t == h + [':'] + mm;
    ReadHoursMinutes(h, mm, t);
  }

  // ----- One-block templates

  /**
   * The template's only schedulable block is `slot`, whose times read as `start` and `end`
   * minutes after midnight.
   */
  predicate OneBlock(template: ScheduleTemplate, slot: ScheduleItem, start: nat, end: nat) {
    && AvailableSlots(template) == [slot]
    && TimeToMinutes(slot.startTime) == Some(start)
    && TimeToMinutes(slot.endTime) == Some(end)
  }

  /** A one-block template offers the same single block on every day, whatever the preference. */
  lemma OneBlockRead(template: ScheduleTemplate, slot: ScheduleItem, start: nat, end: nat, preferred: StudyTime)
    requires OneBlock(template, slot, start, end)
    ensures ReadBlocks(AvailableSlots(template)) == [Block(slot, Some(start), Some(end))]
    ensures DayBlocks([Block(slot, Some(start), Some(end))], preferred) == [Block(slot, Some(start), Some(end))]
  {
    assert ReadBlock(slot) == Block(slot, Some(start), Some(end));
  }

  /** A template with one "Free Time" block from 08:00 to 10:00. */
  function MorningTemplate(): ScheduleTemplate {
    ScheduleTemplate("t", "Morning", [ScheduleItem("b", "08:00", "10:00", "Free Time")])
  }

  /** The morning template has one block, 08:00 (minute 480) to 10:00, two hours later. */
  lemma MorningIsOneBlock()
    ensures OneBlock(MorningTemplate(), MorningTemplate().scheduleItems[0], 480, 480 + 120)
  {
    var item := MorningTemplate().scheduleItems[0];
    assert "Free Time" <= item.activity;
    assert IsSchedulable(item);
    ReadMorningTimes();
  }

  lemma ReadMorningTimes()
    ensures TimeToMinutes("08:00") == Some(480) && TimeToMinutes("10:00") == Some(480 + 120)
  {
    ReadClock("08:00");
    ReadClock("10:00");
  }

  /** A template with one "Work/Study" block from 08:00 to 09:30. */
  function StudyTemplate(): ScheduleTemplate {
    ScheduleTemplate("w", "Study", [ScheduleItem("s", "08:00", "09:30", "Work/Study")])
  }

  /** The study template has one block, 08:00 (minute 480) to 09:30, ninety minutes later. */
  lemma StudyIsOneBlock()
    ensures OneBlock(StudyTemplate(), StudyTemplate().scheduleItems[0], 480, 480 + 90)
  {
    var item := StudyTemplate().scheduleItems[0];
    assert "Work/Study" <= item.activity;
    assert IsSchedulable(item);
    ReadStudyTimes();
  }

  lemma ReadStudyTimes()
    ensures TimeToMinutes("08:00") == Some(480) && TimeToMinutes("09:30") == Some(480 + 90)
  {
    ReadClock("08:00");
    ReadClock("09:30");
  }

  /** The placement at 08:00 for 45 minutes is labelled "08:00 - 08:45". */
  lemma EightOClockLabel(a: Task, today: int)
    ensures Assignment(a, 480, 45, today).timeSlot == "08:00 - 08:45"
  {
    assert NatToString(8) == "8" && NatToString(0) == "0" && NatToString(45) == "45";
    assert Pad2(8) == "08" && Pad2(0) == "00" && Pad2(45) == "45";
    assert MinutesToTime(480) == "08:00";
    assert MinutesToTime(525) == "08:45";
  }

  // ----- The head of the queue placed twice

  /** The first placement of a removes a, the head of the queue. */
  lemma FirstPlacement(a: Task, b: Task, start: nat, date: int, prefs: UserPreferences)
    requires a.id != b.id && a.estimatedDuration == Some(45)
    ensures Place(PlanState([], [a, b]), a, start, date, prefs)
         == PlanState([Assignment(a, start, 45, date)], [b])
  {
    assert TaskDuration(a, prefs) == 45;
    assert FindIndex([a, b], a.id) == 0;
    SpliceRemovesOne([a, b], 0);
    assert Splice([a, b], 0) == [b];
  }

  /** The second placement of a finds no a in the queue and splices index -1: b goes. */
  lemma SecondPlacement(a: Task, b: Task, start: nat, date: int, prefs: UserPreferences)
    requires a.id != b.id && a.estimatedDuration == Some(45)
    ensures Place(PlanState([Assignment(a, start, 45, date)], [b]), a, start + 60, date, prefs)
         == PlanState([Assignment(a, start, 45, date), Assignment(a, start + 60, 45, date)], [])
  {
    assert TaskDuration(a, prefs) == 45;
    assert FindIndex([b], a.id) == -1;
    SpliceRemovesOne([b], -1);
    assert Splice([b], -1) == [];
  }

  /**
   * Queue [a, b] and a two-hour block, a lasting 45 minutes with 15-minute breaks: a is
   * placed at the start and again an hour later; the second placement splices index -1
   * and so removes b, which is left with no placement.
   */
  lemma RepeatedHeadDropsLast(a: Task, b: Task, start: nat, date: int, prefs: UserPreferences)
    requires a.id != b.id
    requires a.estimatedDuration == Some(45) && prefs.breakDuration == 15
    ensures PackBlock(PlanState([], [a, b]), a, start, start + 120, date, prefs)
         == PlanState([Assignment(a, start, 45, date), Assignment(a, start + 60, 45, date)], [])
  {
    var st0 := PlanState([], [a, b]);
    var st1 := PlanState([Assignment(a, start, 45, date)], [b]);
    var st2 := PlanState([Assignment(a, start, 45, date), Assignment(a, start + 60, 45, date)], []);
    assert TaskDuration(a, prefs) == 45;
    calc {
      PackBlock(st0, a, start, start + 120, date, prefs);
      { PackStep(st0, a, start, start + 60, start + 120, date, prefs);
        FirstPlacement(a, b, start, date, prefs); }
      PackBlock(st1, a, start + 60, start + 120, date, prefs);
      { PackStep(st1, a, start + 60, start + 120, start + 120, date, prefs);
        SecondPlacement(a, b, start, date, prefs); }
      PackBlock(st2, a, start + 120, start + 120, date, prefs);
      st2;
    }
  }

  /** Two incomplete tasks, the first weighing at least as much, queue in pool order. */
  lemma QueueOfTwo(a: Task, b: Task, now: int)
    requires !a.completed && !b.completed && Weight(a, now) >= Weight(b, now)
    ensures SortedQueue([a, b], now) == [a, b]
  {
    assert Filter([b], IsIncomplete) == [b];
    assert [a, b][1..] == [b];
    assert Filter([a, b], IsIncomplete) == [a, b];
    assert SortDesc([b], WeightKey(now)) == [b];
    assert SortDesc([a, b], WeightKey(now)) == Insert(a, [b], WeightKey(now));
  }

  /** The first day packs the block with a and leaves the queue empty. */
  lemma FirstDay(a: Task, b: Task, slot: ScheduleItem, start: nat, prefs: UserPreferences, today: int)
    requires a.id != b.id && a.estimatedDuration == Some(45) && b.estimatedDuration.None?
    requires prefs.breakDuration == 15 && prefs.studySessionDuration > 0 && prefs.maxTasksPerDay == 1
    ensures PlanDay(PlanState([], [a, b]), today, [Block(slot, Some(start), Some(start + 120))], prefs)
         == PlanState([Assignment(a, start, 45, today), Assignment(a, start + 60, 45, today)], [])
  {
    var block := Block(slot, Some(start), Some(start + 120));
    var blocks := [block];
    var st0 := PlanState([], [a, b]);
    var st1 := PlanState([Assignment(a, start, 45, today), Assignment(a, start + 60, 45, today)], []);
    assert DayBlocks(blocks, prefs.preferredStudyTime) == blocks;
    NothingScheduledYet([a, b]);
    PlanDayPlans(st0, today, blocks, prefs);
    PlanBlocksStep(st0, blocks, a, today, prefs);
    RepeatedHeadDropsLast(a, b, start, today, prefs);
    assert PackSlot(st0, a, block, today, prefs) == st1;
    assert blocks[1..] == [];
  }

  /**
   * Any tasks whose queue is [a, b], with a 45-minute estimate on a and none on b, a
   * template whose one block lasts two hours, 15-minute breaks and at most one task a day: the week's plan is a placed at the block's start and again an hour
   * later on the first day, and nothing on the other days.
   */
  lemma WeekPlan(tasks: seq<Task>, a: Task, b: Task, template: ScheduleTemplate, slot: ScheduleItem, start: nat,
                 prefs: UserPreferences, now: int, today: int)
    requires OneBlock(template, slot, start, start + 120)
    requires PendingEstimates(tasks) && SortedQueue(tasks, now) == [a, b]
    requires a.id != b.id && a.estimatedDuration == Some(45) && b.estimatedDuration.None?
    requires prefs.breakDuration == 15 && prefs.studySessionDuration > 0 && prefs.maxTasksPerDay == 1
    ensures Plan(tasks, template, prefs, now, today)
         == [Assignment(a, start, 45, today), Assignment(a, start + 60, 45, today)]
  {
    var st1 := PlanState([Assignment(a, start, 45, today), Assignment(a, start + 60, 45, today)], []);
    OneBlockRead(template, slot, start, start + 120, prefs.preferredStudyTime);
    FirstDay(a, b, slot, start, prefs, today);
    FirstDayOnly(tasks, template, prefs, now, today, [a, b], [Block(slot, Some(start), Some(start + 120))], st1);
  }

  /** The two placements of a on one day: two on that day, none of them b. */
  lemma TwiceOnOneDay(a: Task, b: Task, start: nat, today: int)
    requires a != b
    ensures var plan := [Assignment(a, start, 45, today), Assignment(a, start + 60, 45, today)];
      CountOn(plan, today) == 2 && forall p :: p in plan ==> p.task == a != b
  {
    var plan := [Assignment(a, start, 45, today), Assignment(a, start + 60, 45, today)];
    var p, q := plan[0], plan[1];
    assert p.task == a && p.date == today && q.task == a && q.date == today;
    assert plan[1..] == [q] && [q][1..] == [];
    assert CountOn([q], today) == 1;
  }

  /**
   * Any tasks whose queue is [a, b] (two incomplete tasks with a ranked first, by
   * `QueueOfTwo`), a template whose one block lasts two hours (the morning template is
   * one), at most one task a day: a is placed twice on the first day, which is over the
   * cap, and b is never placed.
   */
  lemma CapOvershoot(tasks: seq<Task>, a: Task, b: Task, template: ScheduleTemplate, slot: ScheduleItem, start: nat,
                     prefs: UserPreferences, now: int, today: int)
    requires OneBlock(template, slot, start, start + 120)
    requires PendingEstimates(tasks) && SortedQueue(tasks, now) == [a, b]
    requires a.id != b.id && a.estimatedDuration == Some(45) && b.estimatedDuration.None?
    requires prefs.breakDuration == 15 && prefs.studySessionDuration > 0 && prefs.maxTasksPerDay == 1
    ensures var plan := Plan(tasks, template, prefs, now, today);
      && CountOn(plan, today) == 2 > prefs.maxTasksPerDay
      && forall p :: p in plan ==> p.task == a != b
  {
    WeekPlan(tasks, a, b, template, slot, start, prefs, now, today);
    TwiceOnOneDay(a, b, start, today);
  }

  // ----- One task in one block

  /** One 45-minute task in a 90-minute block: one placement at the start, as the next one would not fit. */
  lemma OneTaskOneBlock(a: Task, slot: ScheduleItem, start: nat, prefs: UserPreferences, today: int)
    requires a.estimatedDuration == Some(45) && prefs.breakDuration == 15
    ensures PackSlot(PlanState([], [a]), a, Block(slot, Some(start), Some(start + 90)), today, prefs)
         == PlanState([Assignment(a, start, 45, today)], [])
  {
    var st0 := PlanState([], [a]);
    assert FindIndex([a], a.id) == 0;
    SpliceRemovesOne([a], 0);
    assert Place(st0, a, start, today, prefs) == PlanState([Assignment(a, start, 45, today)], []);
    PackStep(st0, a, start, start + 60, start + 90, today, prefs);
  }

  /**
   * One incomplete 45-minute task, a template whose one block lasts 90 minutes (the study
   * template is one), and the default preferences: the week's plan is the one placement
   * at the block's start on the first day.
   */
  lemma OneTaskWeek(a: Task, template: ScheduleTemplate, slot: ScheduleItem, start: nat, now: int, today: int)
    requires OneBlock(template, slot, start, start + 90)
    requires !a.completed && a.estimatedDuration == Some(45)
    ensures Plan([a], template, DefaultPreferences, now, today) == [Assignment(a, start, 45, today)]
  {
    var prefs := DefaultPreferences;
    var blocks := [Block(slot, Some(start), Some(start + 90))];
    var st0 := PlanState([], [a]);
    var st1 := PlanState([Assignment(a, start, 45, today)], []);
    assert Filter([a], IsIncomplete) == [a];
    assert SortedQueue([a], now) == [a];
    OneBlockRead(template, slot, start, start + 90, prefs.preferredStudyTime);
    NothingScheduledYet([a]);
    OneTaskOneBlock(a, slot, start, prefs, today);
    PlanBlocksStep(st0, blocks, a, today, prefs);
    assert blocks[1..] == [];
    assert PlanDay(st0, today, blocks, prefs) == st1;
    FirstDayOnly([a], template, prefs, now, today, [a], blocks, st1);
  }
}
