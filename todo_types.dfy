/** The records of the task manager (src/types/todo.ts). */
module TodoTypes {
  import opened Wrappers

  /** A `Date`, kept opaque: the model never reads the clock or formats a
      date, so a timestamp is just a value that can be compared. */
  type Time = int

  datatype Priority = High | Medium | Low

  /** The enumerated recurrence; the task record's loose `string` is not
      modelled, every recurrence is one of these four modes. */
  datatype Recurrence = NoRecurrence | Daily | Weekly | Monthly

  /** A task's status as the task record types it ('pending' | 'completed'). */
  datatype Status = Pending | Completed

  /** The subtask shape the task record holds (no `createdAt`). */
  datatype Subtask = Subtask(id: string, title: string, completed: bool)

  /** A time-tracking entry; `end == None` marks the running session. */
  datatype TimeEntry = TimeEntry(
    id: string,
    start: Time,
    end: Option<Time>,
    duration: Option<int>,
    countdownDuration: Option<int>)

  /** The reserved id the form gives the running session. */
  const ActiveSessionId: string := "current"

  datatype Task = Task(
    id: string,
    title: string,
    description: Option<string>,
    completed: bool,
    createdAt: Time,
    updatedAt: Time,
    dueDate: Option<Time>,
    category: string,
    priority: Priority,
    notes: Option<string>,
    recurrence: Option<Recurrence>,
    recurrenceEndDate: Option<Time>,
    subtasks: Option<seq<Subtask>>,
    timeEntries: Option<seq<TimeEntry>>,
    sharedWith: Option<seq<string>>,
    status: Status,
    activeTracking: Option<TimeEntry>)

  /** JavaScript truthiness of an optional string: present and non-empty. */
  predicate TruthyString(s: Option<string>) {
    s.Some? && s.value != ""
  }

  /** JavaScript truthiness of an optional number: present and non-zero. */
  predicate TruthyNumber(n: Option<int>) {
    n.Some? && n.value != 0
  }
}
