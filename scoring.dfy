/**
 * The scheduler's scores: the weight that orders the task queue and the time-of-day
 * score that orders the blocks of a day, together with the duration a task occupies.
 */
module Scoring {
  import opened Wrappers
  import opened TaskModel
  import opened TimeOfDay

  /** Milliseconds in a day, `1000 * 60 * 60 * 24`. */
  const DayMs := 86400000

  function PriorityScore(p: Priority): nat {
    match p
    case High => 10
    case Medium => 5
    case Low => 1
  }

  /** `Math.ceil(ms / DayMs)`: the least whole number of days covering `ms`. */
  function CeilDays(ms: int): (q: int)
    ensures (q - 1) * DayMs < ms <= q * DayMs
  {
    -((-ms) / DayMs)
  }

  /** `Math.max(0, Math.ceil((deadline - now) / DayMs))`. */
  function DaysUntilDeadline(deadline: int, now: int): nat {
    var d := CeilDays(deadline - now);
    if d < 0 then 0 else d
  }

  /** `Math.min(10, Math.max(0, 10 - daysUntilDeadline))`. */
  function DeadlineScore(deadline: int, now: int): (r: int)
    ensures 0 <= r <= 10
    ensures r == 10 <==> deadline <= now
  {
    var s := 10 - DaysUntilDeadline(deadline, now);
    var clamped := if s < 0 then 0 else s;
    if clamped > 10 then 10 else clamped
  }

  function CategoryScore(c: Category): nat {
    if c == Education then 3 else if c == Personal then 2 else 1
  }

  /** A task with a (non-zero) estimated duration gets one bonus point. */
  function DurationScore(t: Task): nat {
    if Truthy(t.estimatedDuration) then 1 else 0
  }

  /** The weighted score the queue is sorted by, highest first. */
  function Weight(t: Task, now: int): (r: int)
    ensures 4 <= r <= 54
  {
    PriorityScore(t.priority) * 3 + DeadlineScore(t.deadline, now) * 2 + CategoryScore(t.category) + DurationScore(t)
  }

  /** The sort key of the queue. */
  function WeightKey(now: int): Task -> int {
    (t: Task) => Weight(t, now)
  }

  /**
   * The deadline score is 10 for a deadline at or before `now`, and otherwise loses one
   * point per started day until the deadline (n started days score 10 - n), down to 0 once
   * it is more than nine days away.
   */
  lemma DeadlineScoreByDays(deadline: int, now: int)
    ensures 0 <= DeadlineScore(deadline, now) <= 10
    ensures DeadlineScore(deadline, now) == 10 <==> deadline <= now
    ensures DeadlineScore(deadline, now) == 0 <==> deadline - now > 9 * DayMs
    ensures forall n :: 1 <= n <= 9 ==>
      (DeadlineScore(deadline, now) == 10 - n <==> (n - 1) * DayMs < deadline - now <= n * DayMs)
  {
    var q := CeilDays(deadline - now);
    forall n | 1 <= n <= 9
      ensures DeadlineScore(deadline, now) == 10 - n <==> (n - 1) * DayMs < deadline - now <= n * DayMs
    {
      if (n - 1) * DayMs < deadline - now <= n * DayMs {
        assert q == n;
      }
    }
  }

  /** A later deadline never scores higher. */
  lemma DeadlineScoreMonotone(d1: int, d2: int, now: int)
    requires d1 <= d2
    ensures DeadlineScore(d1, now) >= DeadlineScore(d2, now)
  {
    var q1, q2 := CeilDays(d1 - now), CeilDays(d2 - now);
    assert (q1 - 1) * DayMs < q2 * DayMs;
  }

  /**
   * Both ends of the weight range are reached, each by exactly one kind of task: 54 by a
   * High, Education task with an estimate whose deadline has come; 4 by a Low, Household
   * task without an estimate whose deadline is more than nine days away.
   */
  lemma WeightExtremes(t: Task, now: int)
    ensures Weight(t, now) == 54 <==>
      t.priority == High && t.category == Education && Truthy(t.estimatedDuration) && t.deadline <= now
    ensures Weight(t, now) == 4 <==>
      t.priority == Low && t.category == Household && !Truthy(t.estimatedDuration) && t.deadline - now > 9 * DayMs
  {
    DeadlineScoreByDays(t.deadline, now);
  }

  /** Other things equal, a higher priority gives a strictly higher weight and an earlier deadline no lower one. */
  lemma WeightMonotone(a: Task, b: Task, now: int)
    requires a.category == b.category && Truthy(a.estimatedDuration) == Truthy(b.estimatedDuration)
    requires PriorityScore(a.priority) >= PriorityScore(b.priority) && a.deadline <= b.deadline
    ensures Weight(a, now) >= Weight(b, now)
    ensures a.priority != b.priority ==> Weight(a, now) > Weight(b, now)
  {
    DeadlineScoreMonotone(a.deadline, b.deadline, now);
  }

  /** The duration a task occupies: its (non-zero) estimate, or else the study session length. */
  function TaskDuration(t: Task, prefs: UserPreferences): (r: int)
    ensures Truthy(t.estimatedDuration) ==> r == t.estimatedDuration.value
    ensures !Truthy(t.estimatedDuration) ==> r == prefs.studySessionDuration
    ensures prefs.studySessionDuration > 0 && (t.estimatedDuration.Some? ==> t.estimatedDuration.value >= 0) ==> r > 0
  {
    if Truthy(t.estimatedDuration) then t.estimatedDuration.value else prefs.studySessionDuration
  }

  // The time-of-day ranges, on minutes after midnight.
  predicate IsMorning(t: int) { 5 * 60 <= t < 12 * 60 }
  predicate IsAfternoon(t: int) { 12 * 60 <= t < 17 * 60 }
  predicate IsEvening(t: int) { 17 * 60 <= t < 22 * 60 }
  predicate IsNight(t: int) { t >= 22 * 60 || t < 5 * 60 }

  /** `getTimePreferenceScore`; a NaN time matches no range and scores 0. */
  function PreferenceScore(time: Option<nat>, preferred: StudyTime): (r: int)
    ensures 0 <= r <= 3
    ensures time.None? ==> r == 0
  {
    match time
    case None => 0
    case Some(t) =>
      match preferred
      case Morning => if IsMorning(t) then 3 else if IsAfternoon(t) then 2 else if IsEvening(t) then 1 else 0
      case Afternoon => if IsAfternoon(t) then 3 else if IsEvening(t) then 2 else if IsMorning(t) then 1 else 0
      case Evening => if IsEvening(t) then 3 else if IsAfternoon(t) then 2 else if IsMorning(t) then 1 else 0
      case Night => if IsNight(t) then 3 else if IsEvening(t) then 2 else if IsAfternoon(t) then 1 else 0
  }

  /** The sort key of a day's blocks: the preference score of the block's start. */
  function SlotKey(preferred: StudyTime): ScheduleItem -> int {
    (b: ScheduleItem) => PreferenceScore(TimeToMinutes(b.startTime), preferred)
  }

  /** The part of the day a minute falls in; night wraps around midnight. */
  function BucketOf(t: int): StudyTime {
    if 300 <= t < 720 then Morning
    else if 720 <= t < 1020 then Afternoon
    else if 1020 <= t < 1320 then Evening
    else Night
  }

  /** How much a preference likes each part of the day. */
  function Affinity(preferred: StudyTime, bucket: StudyTime): int {
    match (preferred, bucket)
    case (Morning, Morning) => 3
    case (Morning, Afternoon) => 2
    case (Morning, Evening) => 1
    case (Afternoon, Afternoon) => 3
    case (Afternoon, Evening) => 2
    case (Afternoon, Morning) => 1
    case (Evening, Evening) => 3
    case (Evening, Afternoon) => 2
    case (Evening, Morning) => 1
    case (Night, Night) => 3
    case (Night, Evening) => 2
    case (Night, Afternoon) => 1
    case _ => 0
  }

  /**
   * The score of a minute depends only on its part of the day: it is the affinity table,
   * so it lies in 0..3 and is 3 exactly in the preferred part; NaN scores 0.
   */
  lemma PreferenceScoreByBucket(time: Option<nat>, preferred: StudyTime)
    ensures 0 <= PreferenceScore(time, preferred) <= 3
    ensures time.Some? ==> PreferenceScore(time, preferred) == Affinity(preferred, BucketOf(time.value))
    ensures time.Some? ==> (PreferenceScore(time, preferred) == 3 <==> BucketOf(time.value) == preferred)
    ensures time.None? ==> PreferenceScore(time, preferred) == 0
  {
  }
}
