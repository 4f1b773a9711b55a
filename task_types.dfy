/**
 * The records of the task manager. Dates and timestamps are milliseconds since the epoch;
 * the calendar date of a scheduled task is a day number (today, today + 1, ...).
 */
module TaskModel {
  import opened Wrappers

  datatype Category = Education | Personal | Household

  datatype Priority = High | Medium | Low

  /** A unit of work in the pool; `estimatedDuration` is in minutes. */
  datatype Task = Task(
    id: string,
    title: string,
    description: string,
    category: Category,
    priority: Priority,
    deadline: int,
    completed: bool,
    createdAt: int,
    completedAt: Option<int>,
    estimatedDuration: Option<int>,
    lastWorkedOn: Option<int>)

  /** One block of a day template, "HH:MM" to "HH:MM", with its activity label. */
  datatype ScheduleItem = ScheduleItem(id: string, startTime: string, endTime: string, activity: string)

  datatype ScheduleTemplate = ScheduleTemplate(id: string, name: string, scheduleItems: seq<ScheduleItem>)

  /** One placement of a task: its time slot text, start and end "HH:MM", and its day number. */
  datatype ScheduledTask = ScheduledTask(task: Task, timeSlot: string, startTime: string, endTime: string, date: int)

  datatype StudyTime = Morning | Afternoon | Evening | Night

  /** Scheduling preferences; the durations are in minutes. */
  datatype UserPreferences = UserPreferences(
    preferredStudyTime: StudyTime,
    maxTasksPerDay: int,
    breakDuration: int,
    studySessionDuration: int)

  /** The preferences a new session starts with. */
  const DefaultPreferences := UserPreferences(Afternoon, 5, 15, 45)

  /** A JavaScript number used as a condition: present and not zero. */
  predicate Truthy(n: Option<int>) {
    n.Some? && n.value != 0
  }
}
