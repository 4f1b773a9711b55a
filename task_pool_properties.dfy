/**
 * What the pool operations promise: which tasks each one touches, what it leaves alone,
 * how the operations undo or repeat each other, which invariants of the task list they
 * keep, and what the readers return.
 */
module TaskPoolProperties {
  import opened Wrappers
  import opened Sorting
  import opened TaskModel
  import opened Planner
  import opened PlannerProperties
  import opened TaskPool

  // ----- Readers

  /**
   * `getTodaysTasks` keeps exactly the tasks due on the day of `now`, each as often as in
   * the pool (its order is TodaysTasksInPoolOrder).
   */
  lemma TodaysTasks(pool: Pool, dayOf: int -> int, now: int)
    ensures forall t :: t in GetTodaysTasks(pool, dayOf, now) <==> t in pool.tasks && dayOf(t.deadline) == dayOf(now)
    ensures multiset(GetTodaysTasks(pool, dayOf, now)) <= multiset(pool.tasks)
    ensures forall t :: t in pool.tasks && dayOf(t.deadline) == dayOf(now) ==>
      multiset(GetTodaysTasks(pool, dayOf, now))[t] == multiset(pool.tasks)[t]
  {
    forall t ensures t in GetTodaysTasks(pool, dayOf, now) <==> t in pool.tasks && dayOf(t.deadline) == dayOf(now) {
      FilterContains(pool.tasks, DueOn(dayOf, dayOf(now)), t);
    }
    FilterCounts(pool.tasks, DueOn(dayOf, dayOf(now)));
  }

  /**
   * `getTodaysTasks` keeps pool order: of two due tasks, the one earlier in the pool comes
   * first, and between them come exactly the due tasks between them in the pool.
   */
  lemma TodaysTasksInPoolOrder(pool: Pool, dayOf: int -> int, now: int,
                               a: seq<Task>, x: Task, b: seq<Task>, y: Task, c: seq<Task>)
    requires pool.tasks == a + [x] + b + [y] + c
    requires dayOf(x.deadline) == dayOf(now) && dayOf(y.deadline) == dayOf(now)
    ensures var due := DueOn(dayOf, dayOf(now));
      GetTodaysTasks(pool, dayOf, now) == Filter(a, due) + [x] + Filter(b, due) + [y] + Filter(c, due)
  {
    FilterKeepsOrder(a, x, b, y, c, DueOn(dayOf, dayOf(now)));
  }

  /** `getTasksByDate` keeps exactly the tasks that carry a completion time on that day. */
  lemma TasksByDate(pool: Pool, dayOf: int -> int, date: int)
    ensures forall t :: t in GetTasksByDate(pool, dayOf, date) <==>
      t in pool.tasks && t.completedAt.Some? && dayOf(t.completedAt.value) == dayOf(date)
    ensures multiset(GetTasksByDate(pool, dayOf, date)) <= multiset(pool.tasks)
  {
    forall t ensures t in GetTasksByDate(pool, dayOf, date) <==>
      t in pool.tasks && t.completedAt.Some? && dayOf(t.completedAt.value) == dayOf(date)
    {
      FilterContains(pool.tasks, CompletedOn(dayOf, dayOf(date)), t);
    }
    FilterCounts(pool.tasks, CompletedOn(dayOf, dayOf(date)));
  }

  /** `getCompletedTasks` keeps exactly the tasks marked completed. */
  lemma CompletedTasks(pool: Pool)
    ensures forall t :: t in GetCompletedTasks(pool) <==> t in pool.tasks && t.completed
    ensures multiset(GetCompletedTasks(pool)) <= multiset(pool.tasks)
  {
    forall t ensures t in GetCompletedTasks(pool) <==> t in pool.tasks && t.completed {
      FilterContains(pool.tasks, IsComplete, t);
    }
    FilterCounts(pool.tasks, IsComplete);
  }

  /** On a consistent list the tasks completed on some day are among the completed tasks. */
  lemma CompletedOnDayAreCompleted(pool: Pool, dayOf: int -> int, date: int)
    requires Consistent(pool.tasks)
    ensures forall t :: t in GetTasksByDate(pool, dayOf, date) ==> t in GetCompletedTasks(pool)
  {
    TasksByDate(pool, dayOf, date);
    CompletedTasks(pool);
  }

  // ----- addTask

  /** Adding a task with a fresh id and deleting that id gives the pool back. */
  lemma AddThenDelete(pool: Pool, draft: TaskDraft, id: string, now: int)
    requires IdAbsent(pool.tasks, id)
    ensures DeleteTask(AddTask(pool, draft, id, now), id) == pool
  {
    var t := NewTask(draft, id, now);
    FilterConcat(pool.tasks, [t], IdIsNot(id));
    FilterKeepsAll(pool.tasks, IdIsNot(id));
    assert Filter([t], IdIsNot(id)) == [];
  }

  /** Adding keeps the list consistent, and keeps the ids unique when the new id is fresh. */
  lemma AddKeepsInvariants(pool: Pool, draft: TaskDraft, id: string, now: int)
    ensures Consistent(pool.tasks) ==> Consistent(AddTask(pool, draft, id, now).tasks)
    ensures UniqueIds(pool.tasks) && IdAbsent(pool.tasks, id) ==> UniqueIds(AddTask(pool, draft, id, now).tasks)
  {
    var r := AddTask(pool, draft, id, now).tasks;
    assert r == pool.tasks + [NewTask(draft, id, now)];
    if UniqueIds(pool.tasks) && IdAbsent(pool.tasks, id) {
      forall i, j | 0 <= i < j < |r| ensures r[i].id != r[j].id {
        assert r[i] == pool.tasks[i];
        if j < |pool.tasks| { assert r[j] == pool.tasks[j]; }
      }
    }
  }

  /** A new task is waiting: it is incomplete, so the planner may place it. */
  lemma AddedTaskIsQueued(pool: Pool, draft: TaskDraft, id: string, now: int, clock: int)
    ensures NewTask(draft, id, now) in SortedQueue(AddTask(pool, draft, id, now).tasks, clock)
  {
    var r := AddTask(pool, draft, id, now).tasks;
    var t := NewTask(draft, id, now);
    assert t == r[|pool.tasks|];
    QueueOrder(r, clock, 0);
  }

  // ----- completeTask

  /** With an unknown id, completing changes no task and still adds ten points. */
  lemma CompleteUnknownId(pool: Pool, id: string, now: int)
    requires IdAbsent(pool.tasks, id)
    ensures CompleteTask(pool, id, now) == pool.(points := pool.points + CompletionPoints)
  {
    var r := CompleteTask(pool, id, now);
    forall i | 0 <= i < |pool.tasks| ensures r.tasks[i] == pool.tasks[i] {
      assert pool.tasks[i] in pool.tasks;
    }
  }

  /** Completing twice is completing once at the later time, with the points counted twice. */
  lemma CompleteTwice(pool: Pool, id: string, t1: int, t2: int)
    ensures CompleteTask(CompleteTask(pool, id, t1), id, t2)
         == CompleteTask(pool, id, t2).(points := pool.points + 2 * CompletionPoints)
  {
  }

  /** Completing keeps the list consistent and the ids as they were. */
  lemma CompleteKeepsInvariants(pool: Pool, id: string, now: int)
    ensures Consistent(pool.tasks) ==> Consistent(CompleteTask(pool, id, now).tasks)
    ensures UniqueIds(pool.tasks) ==> UniqueIds(CompleteTask(pool, id, now).tasks)
  {
    var r := CompleteTask(pool, id, now).tasks;
    if Consistent(pool.tasks) {
      forall t | t in r ensures t.completed <==> t.completedAt.Some? {
        var i :| 0 <= i < |r| && r[i] == t;
        assert pool.tasks[i] in pool.tasks;
      }
    }
  }

  /** A completed task is reported by `getCompletedTasks` and by `getTasksByDate` for the day it was completed. */
  lemma CompletedTaskIsReported(pool: Pool, id: string, now: int, dayOf: int -> int, i: int)
    requires 0 <= i < |pool.tasks| && pool.tasks[i].id == id
    ensures var r := CompleteTask(pool, id, now);
      && MarkCompleted(pool.tasks[i], now) in GetCompletedTasks(r)
      && MarkCompleted(pool.tasks[i], now) in GetTasksByDate(r, dayOf, now)
  {
    var r := CompleteTask(pool, id, now);
    assert r.tasks[i] == MarkCompleted(pool.tasks[i], now);
    CompletedTasks(r);
    TasksByDate(r, dayOf, now);
  }

  // ----- deleteTask

  /** Deleting removes every task with the id and keeps every occurrence of every other task. */
  lemma DeleteRemovesExactly(pool: Pool, id: string)
    ensures var r := DeleteTask(pool, id).tasks;
      && (forall t :: t in r <==> t in pool.tasks && t.id != id)
      && (forall t :: t in pool.tasks && t.id != id ==> multiset(r)[t] == multiset(pool.tasks)[t])
      && IdAbsent(r, id)
  {
    var r := DeleteTask(pool, id).tasks;
    forall t ensures t in r <==> t in pool.tasks && t.id != id {
      FilterContains(pool.tasks, IdIsNot(id), t);
    }
    FilterCounts(pool.tasks, IdIsNot(id));
  }

  /**
   * Deleting keeps the order of the other tasks: of two tasks without the id, the one
   * earlier in the pool comes first, with exactly the other remaining tasks between them.
   */
  lemma DeleteKeepsOrder(pool: Pool, id: string, a: seq<Task>, x: Task, b: seq<Task>, y: Task, c: seq<Task>)
    requires pool.tasks == a + [x] + b + [y] + c
    requires x.id != id && y.id != id
    ensures var keep := IdIsNot(id);
      DeleteTask(pool, id).tasks == Filter(a, keep) + [x] + Filter(b, keep) + [y] + Filter(c, keep)
  {
    FilterKeepsOrder(a, x, b, y, c, IdIsNot(id));
  }

  /** Deleting the same id twice is deleting it once. */
  lemma DeleteIdempotent(pool: Pool, id: string)
    ensures DeleteTask(DeleteTask(pool, id), id) == DeleteTask(pool, id)
  {
    FilterKeepsAll(DeleteTask(pool, id).tasks, IdIsNot(id));
  }

  lemma {:induction false} FilterKeepsUnique(s: seq<Task>, p: Task -> bool)
    requires UniqueIds(s)
    ensures UniqueIds(Filter(s, p))
  {
    if s != [] {
      assert s == [s[0]] + s[1..];
      UniqueCons(s[0], s[1..]);
      FilterKeepsUnique(s[1..], p);
      var rest := Filter(s[1..], p);
      if p(s[0]) {
        UniqueCons(s[0], rest);
      }
    }
  }

  /** Deleting keeps the list consistent and the ids unique. */
  lemma DeleteKeepsInvariants(pool: Pool, id: string)
    ensures Consistent(pool.tasks) ==> Consistent(DeleteTask(pool, id).tasks)
    ensures UniqueIds(pool.tasks) ==> UniqueIds(DeleteTask(pool, id).tasks)
  {
    if UniqueIds(pool.tasks) {
      FilterKeepsUnique(pool.tasks, IdIsNot(id));
    }
  }

  // ----- updateTask

  /** Applying the same patch again changes nothing more. */
  lemma UpdateIdempotent(pool: Pool, id: string, patch: TaskPatch)
    ensures UpdateTask(UpdateTask(pool, id, patch), id, patch) == UpdateTask(pool, id, patch)
  {
  }

  /** The patch without fields changes nothing. */
  lemma UpdateEmptyPatch(pool: Pool, id: string)
    ensures UpdateTask(pool, id, EmptyPatch) == pool
  {
    var r := UpdateTask(pool, id, EmptyPatch);
    assert r.tasks == pool.tasks;
  }

  /** Updating keeps every id, and keeps the list consistent when the patch leaves the completion fields alone. */
  lemma UpdateKeepsInvariants(pool: Pool, id: string, patch: TaskPatch)
    ensures forall i :: 0 <= i < |pool.tasks| ==> UpdateTask(pool, id, patch).tasks[i].id == pool.tasks[i].id
    ensures UniqueIds(pool.tasks) ==> UniqueIds(UpdateTask(pool, id, patch).tasks)
    ensures Consistent(pool.tasks) && KeepsCompletion(patch) ==> Consistent(UpdateTask(pool, id, patch).tasks)
  {
    var r := UpdateTask(pool, id, patch).tasks;
    if Consistent(pool.tasks) && KeepsCompletion(patch) {
      forall t | t in r ensures t.completed <==> t.completedAt.Some? {
        var i :| 0 <= i < |r| && r[i] == t;
        assert pool.tasks[i] in pool.tasks;
      }
    }
  }

  /**
   * A patch may set `completed` back to false: the task keeps its completion time, so the
   * list is no longer consistent.
   */
  lemma UpdateCanUncomplete(pool: Pool, id: string)
    requires |pool.tasks| == 1 && pool.tasks[0].id == id
    requires pool.tasks[0].completed && pool.tasks[0].completedAt.Some?
    ensures !Consistent(UpdateTask(pool, id, EmptyPatch.(completed := Some(false))).tasks)
  {
    var r := UpdateTask(pool, id, EmptyPatch.(completed := Some(false))).tasks;
    assert r[0] in r;
  }

  // ----- addSchedule and setActiveSchedule

  lemma {:induction false} FindScheduleAppend(schedules: seq<ScheduleTemplate>, extra: ScheduleTemplate, id: string)
    requires forall s :: s in schedules ==> s.id != id
    requires extra.id == id
    ensures FindSchedule(schedules + [extra], id) == Some(extra)
  {
    if schedules == [] {
      assert schedules + [extra] == [extra];
    } else {
      FindScheduleAppend(schedules[1..], extra, id);
      assert (schedules + [extra])[0] == schedules[0];
      assert (schedules + [extra])[1..] == schedules[1..] + [extra];
    }
  }

  /** A template added with a fresh id can be made the active one. */
  lemma AddThenActivate(pool: Pool, draft: ScheduleDraft, id: string)
    requires forall s :: s in pool.schedules ==> s.id != id
    ensures SetActiveSchedule(AddSchedule(pool, draft, id), id)
         == AddSchedule(pool, draft, id).(currentSchedule := Some(ScheduleTemplate(id, draft.name, draft.scheduleItems)))
  {
    FindScheduleAppend(pool.schedules, ScheduleTemplate(id, draft.name, draft.scheduleItems), id);
  }

  /** An unknown id changes nothing; a known one activates a template of the pool with that id. */
  lemma ActivateOnlyKnown(pool: Pool, id: string)
    ensures (forall s :: s in pool.schedules ==> s.id != id) ==> SetActiveSchedule(pool, id) == pool
    ensures (exists s :: s in pool.schedules && s.id == id) ==>
      var c := SetActiveSchedule(pool, id).currentSchedule;
      c.Some? && c.value in pool.schedules && c.value.id == id
  {
  }

  // ----- updateUserPreferences

  /** The given preferences replace the current ones, the others stay, and merging again changes nothing. */
  lemma MergeReplacesGiven(pool: Pool, patch: PreferencesPatch)
    ensures var p := UpdateUserPreferences(pool, patch).userPreferences;
      && (patch.maxTasksPerDay.Some? ==> p.maxTasksPerDay == patch.maxTasksPerDay.value)
      && (patch.maxTasksPerDay.None? ==> p.maxTasksPerDay == pool.userPreferences.maxTasksPerDay)
      && (patch.breakDuration.Some? ==> p.breakDuration == patch.breakDuration.value)
      && (patch.breakDuration.None? ==> p.breakDuration == pool.userPreferences.breakDuration)
      && (patch.studySessionDuration.Some? ==> p.studySessionDuration == patch.studySessionDuration.value)
      && (patch.studySessionDuration.None? ==> p.studySessionDuration == pool.userPreferences.studySessionDuration)
      && (patch.preferredStudyTime.Some? ==> p.preferredStudyTime == patch.preferredStudyTime.value)
      && (patch.preferredStudyTime.None? ==> p.preferredStudyTime == pool.userPreferences.preferredStudyTime)
    ensures UpdateUserPreferences(UpdateUserPreferences(pool, patch), patch) == UpdateUserPreferences(pool, patch)
  {
  }

  // ----- rescheduleAllTasks

  /**
   * Recomputing with an active template stores the planner's plan, whose placements are
   * all sound and in date order within the coming week; without one nothing changes.
   */
  lemma RescheduleStoresPlan(pool: Pool, now: int, today: int)
    requires ValidPreferences(pool.userPreferences) && PendingEstimates(pool.tasks)
    ensures pool.currentSchedule.None? ==> RescheduleAllTasks(pool, now, today) == pool
    ensures pool.currentSchedule.Some? ==>
      var r := RescheduleAllTasks(pool, now, today).scheduledTasks;
      && r == Plan(pool.tasks, pool.currentSchedule.value, pool.userPreferences, now, today)
      && SoundWithin(r, pool.tasks, pool.currentSchedule.value, pool.userPreferences, today, today + Horizon)
      && DatesInOrder(r)
  {
    if pool.currentSchedule.Some? {
      PlanSound(pool.tasks, pool.currentSchedule.value, pool.userPreferences, now, today);
    }
  }
}
