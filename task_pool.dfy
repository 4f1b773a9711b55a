/**
 * The task pool of the task manager and its operations: adding, completing, deleting and
 * editing tasks, adding and choosing a day template, changing the preferences, recomputing
 * the schedule, and the three readers. Every operation returns the new pool; the clock,
 * the id generator and the local calendar day of a timestamp are parameters.
 */
module TaskPool {
  import opened Wrappers
  import opened Sorting
  import opened TaskModel
  import opened Planner

  /** The state the task manager keeps. `None` is the absence of an active template. */
  datatype Pool = Pool(
    tasks: seq<Task>,
    schedules: seq<ScheduleTemplate>,
    currentSchedule: Option<ScheduleTemplate>,
    scheduledTasks: seq<ScheduledTask>,
    points: int,
    userPreferences: UserPreferences)

  /** What a caller gives `addTask`: a task without id, completion state and creation time. */
  datatype TaskDraft = TaskDraft(
    title: string,
    description: string,
    category: Category,
    priority: Priority,
    deadline: int,
    estimatedDuration: Option<int>,
    lastWorkedOn: Option<int>)

  /**
   * What a caller gives `updateTask`: each field is either absent (`None`) or a new value;
   * for the optional fields the new value may itself be `undefined`. Id and creation time
   * cannot be given.
   */
  datatype TaskPatch = TaskPatch(
    title: Option<string>,
    description: Option<string>,
    category: Option<Category>,
    priority: Option<Priority>,
    deadline: Option<int>,
    completed: Option<bool>,
    completedAt: Option<Option<int>>,
    estimatedDuration: Option<Option<int>>,
    lastWorkedOn: Option<Option<int>>)

  const EmptyPatch := TaskPatch(None, None, None, None, None, None, None, None, None)

  datatype PreferencesPatch = PreferencesPatch(
    preferredStudyTime: Option<StudyTime>,
    maxTasksPerDay: Option<int>,
    breakDuration: Option<int>,
    studySessionDuration: Option<int>)

  datatype ScheduleDraft = ScheduleDraft(name: string, scheduleItems: seq<ScheduleItem>)

  /** Points awarded for completing a task. */
  const CompletionPoints := 10

  // ----- Task records

  /** The task `addTask` builds: the draft, the new id, not completed, created now. */
  function NewTask(draft: TaskDraft, id: string, now: int): (t: Task)
    ensures t.id == id && !t.completed && t.completedAt.None? && t.createdAt == now
  {
    Task(id, draft.title, draft.description, draft.category, draft.priority, draft.deadline,
         false, now, None, draft.estimatedDuration, draft.lastWorkedOn)
  }

  /** `{ ...task, completed: true, completedAt: now }`. */
  function MarkCompleted(t: Task, now: int): (r: Task)
    ensures r.completed && r.completedAt == Some(now)
    ensures r.(completed := t.completed, completedAt := t.completedAt) == t
  {
    t.(completed := true, completedAt := Some(now))
  }

  /** `{ ...task, ...taskData }`: the given fields replace the task's, id and creation time stay. */
  function Patched(t: Task, patch: TaskPatch): (r: Task)
    ensures r.id == t.id && r.createdAt == t.createdAt
  {
    t.(title := patch.title.GetOr(t.title),
       description := patch.description.GetOr(t.description),
       category := patch.category.GetOr(t.category),
       priority := patch.priority.GetOr(t.priority),
       deadline := patch.deadline.GetOr(t.deadline),
       completed := patch.completed.GetOr(t.completed),
       completedAt := patch.completedAt.GetOr(t.completedAt),
       estimatedDuration := patch.estimatedDuration.GetOr(t.estimatedDuration),
       lastWorkedOn := patch.lastWorkedOn.GetOr(t.lastWorkedOn))
  }

  /** A patch that leaves the completion fields alone. */
  predicate KeepsCompletion(patch: TaskPatch) {
    patch.completed.None? && patch.completedAt.None?
  }

  // ----- Invariants of the task list

  /** A task is marked completed exactly when it carries a completion time. */
  predicate Consistent(tasks: seq<Task>) {
    forall t :: t in tasks ==> (t.completed <==> t.completedAt.Some?)
  }

  predicate IdAbsent(tasks: seq<Task>, id: string) {
    forall t :: t in tasks ==> t.id != id
  }

  /** No two tasks share an id. */
  predicate UniqueIds(tasks: seq<Task>) {
    forall i, j :: 0 <= i < j < |tasks| ==> tasks[i].id != tasks[j].id
  }

  lemma UniqueCons(x: Task, s: seq<Task>)
    ensures UniqueIds([x] + s) <==> IdAbsent(s, x.id) && UniqueIds(s)
  {
    var r := [x] + s;
    if IdAbsent(s, x.id) && UniqueIds(s) {
      forall i, j | 0 <= i < j < |r| ensures r[i].id != r[j].id {
        assert r[j] == s[j - 1];
        if i > 0 { assert r[i] == s[i - 1]; }
      }
    }
    if UniqueIds(r) {
      forall t | t in s ensures t.id != x.id {
        var j :| 0 <= j < |s| && s[j] == t;
        assert r[0] == x && r[j + 1] == t;
      }
      forall i, j | 0 <= i < j < |s| ensures s[i].id != s[j].id {
        assert r[i + 1] == s[i] && r[j + 1] == s[j];
      }
    }
  }

  // ----- Operations

  /** `addTask`: the draft becomes a new incomplete task at the end of the list. */
  function AddTask(pool: Pool, draft: TaskDraft, id: string, now: int): (r: Pool)
    ensures |r.tasks| == |pool.tasks| + 1 && r.tasks[..|pool.tasks|] == pool.tasks
    ensures r.tasks[|pool.tasks|] == NewTask(draft, id, now)
    ensures r.(tasks := pool.tasks) == pool
  {
    pool.(tasks := pool.tasks + [NewTask(draft, id, now)])
  }

  /**
   * `completeTask`: every task with the id is marked completed now, the others are kept,
   * and ten points are added whether or not a task had the id.
   */
  function CompleteTask(pool: Pool, id: string, now: int): (r: Pool)
    ensures |r.tasks| == |pool.tasks|
    ensures forall i :: 0 <= i < |pool.tasks| ==>
      r.tasks[i] == if pool.tasks[i].id == id then MarkCompleted(pool.tasks[i], now) else pool.tasks[i]
    ensures r.points == pool.points + CompletionPoints
    ensures r.(tasks := pool.tasks, points := pool.points) == pool
  {
    var tasks := seq(|pool.tasks|, i requires 0 <= i < |pool.tasks| =>
      if pool.tasks[i].id == id then MarkCompleted(pool.tasks[i], now) else pool.tasks[i]);
    pool.(tasks := tasks, points := pool.points + CompletionPoints)
  }

  function IdIsNot(id: string): Task -> bool {
    (t: Task) => t.id != id
  }

  /** `deleteTask`: the tasks with the id are removed, the others keep their order. */
  function DeleteTask(pool: Pool, id: string): (r: Pool)
    ensures r.(tasks := pool.tasks) == pool
  {
    pool.(tasks := Filter(pool.tasks, IdIsNot(id)))
  }

  /** `updateTask`: every task with the id gets the patch, the others are kept. */
  function UpdateTask(pool: Pool, id: string, patch: TaskPatch): (r: Pool)
    ensures |r.tasks| == |pool.tasks|
    ensures forall i :: 0 <= i < |pool.tasks| ==>
      r.tasks[i] == if pool.tasks[i].id == id then Patched(pool.tasks[i], patch) else pool.tasks[i]
    ensures r.(tasks := pool.tasks) == pool
  {
    var tasks := seq(|pool.tasks|, i requires 0 <= i < |pool.tasks| =>
      if pool.tasks[i].id == id then Patched(pool.tasks[i], patch) else pool.tasks[i]);
    pool.(tasks := tasks)
  }

  /** `addSchedule`: the template, with the new id, is appended. */
  function AddSchedule(pool: Pool, draft: ScheduleDraft, id: string): (r: Pool)
    ensures r.schedules == pool.schedules + [ScheduleTemplate(id, draft.name, draft.scheduleItems)]
    ensures r.(schedules := pool.schedules) == pool
  {
    pool.(schedules := pool.schedules + [ScheduleTemplate(id, draft.name, draft.scheduleItems)])
  }

  /** `schedules.find(s => s.id === id)`: the first template with the id. */
  function FindSchedule(schedules: seq<ScheduleTemplate>, id: string): (r: Option<ScheduleTemplate>)
    ensures r.None? <==> forall s :: s in schedules ==> s.id != id
    ensures r.Some? ==> r.value in schedules && r.value.id == id
    ensures r.Some? && schedules != [] && schedules[0].id == id ==> r.value == schedules[0]
    ensures r.Some? ==>
      exists k :: 0 <= k < |schedules| && schedules[k] == r.value && forall j :: 0 <= j < k ==> schedules[j].id != id
  {
    if schedules == [] then None
    else if schedules[0].id == id then Some(schedules[0])
    else FindSchedule(schedules[1..], id)
  }

  /** `setActiveSchedule`: the template with the id becomes active; an unknown id changes nothing. */
  function SetActiveSchedule(pool: Pool, id: string): (r: Pool)
    ensures r.(currentSchedule := pool.currentSchedule) == pool
  {
    match FindSchedule(pool.schedules, id)
    case None => pool
    case Some(s) => pool.(currentSchedule := Some(s))
  }

  /** `{ ...prev, ...prefs }`. */
  function MergePreferences(prefs: UserPreferences, patch: PreferencesPatch): (r: UserPreferences)
    ensures patch == PreferencesPatch(None, None, None, None) ==> r == prefs
  {
    UserPreferences(
      patch.preferredStudyTime.GetOr(prefs.preferredStudyTime),
      patch.maxTasksPerDay.GetOr(prefs.maxTasksPerDay),
      patch.breakDuration.GetOr(prefs.breakDuration),
      patch.studySessionDuration.GetOr(prefs.studySessionDuration))
  }

  /** `updateUserPreferences`: the given preferences replace the current ones. */
  function UpdateUserPreferences(pool: Pool, patch: PreferencesPatch): (r: Pool)
    ensures r.(userPreferences := pool.userPreferences) == pool
  {
    pool.(userPreferences := MergePreferences(pool.userPreferences, patch))
  }

  /**
   * `rescheduleAllTasks`: the planner's result becomes the schedule; without an active
   * template the schedule is left as it was.
   */
  function RescheduleAllTasks(pool: Pool, now: int, today: int): (r: Pool)
    requires ValidPreferences(pool.userPreferences) && PendingEstimates(pool.tasks)
    ensures r.(scheduledTasks := pool.scheduledTasks) == pool
  {
    match Schedule(pool.tasks, pool.currentSchedule, pool.userPreferences, now, today)
    case None => pool
    case Some(plan) => pool.(scheduledTasks := plan)
  }

  // ----- Readers

  /** The tasks whose deadline falls on local day `day`. */
  function DueOn(dayOf: int -> int, day: int): Task -> bool {
    (t: Task) => dayOf(t.deadline) == day
  }

  /** The tasks completed on local day `day`. */
  function CompletedOn(dayOf: int -> int, day: int): Task -> bool {
    (t: Task) => t.completedAt.Some? && dayOf(t.completedAt.value) == day
  }

  /** `getTodaysTasks`: the tasks due on the day of `now`; `dayOf` maps a timestamp to its local calendar day. */
  function GetTodaysTasks(pool: Pool, dayOf: int -> int, now: int): (r: seq<Task>)
    ensures forall t :: t in r ==> t in pool.tasks && dayOf(t.deadline) == dayOf(now)
  {
    Filter(pool.tasks, DueOn(dayOf, dayOf(now)))
  }

  /** `getTasksByDate`: the tasks with a completion time on that day. */
  function GetTasksByDate(pool: Pool, dayOf: int -> int, date: int): (r: seq<Task>)
    ensures forall t :: t in r ==> t in pool.tasks && t.completedAt.Some? && dayOf(t.completedAt.value) == dayOf(date)
  {
    Filter(pool.tasks, CompletedOn(dayOf, dayOf(date)))
  }

  /** `getCompletedTasks`: the tasks marked completed. */
  function GetCompletedTasks(pool: Pool): (r: seq<Task>)
    ensures forall t :: t in r ==> t in pool.tasks && t.completed
  {
    Filter(pool.tasks, IsComplete)
  }

  predicate IsComplete(t: Task) {
    t.completed
  }
}
