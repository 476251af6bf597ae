/** The entities of the workforce task registry: staff members, tasks and the
    audit trail (comments and activity entries) a task accumulates. */
module Model {

  /** A calendar date (`LocalDate`) as a day number; `isAfter` is `>` and
      `isBefore` is `<`. */
  type Date = int

  /** An instant (`LocalDateTime`) read from the clock; its value is supplied
      by the caller, never computed. */
  type Timestamp = int

  /** A task or staff identifier (a `Long` key of the registry maps). */
  type Id = int

  datatype Status = Active | Cancelled

  datatype Priority = Low | Medium | High

  datatype Staff = Staff(id: Id, name: string)

  datatype Comment = Comment(commenter: string, message: string, timestamp: Timestamp)

  datatype ActivityLog = ActivityLog(actor: string, description: string, timestamp: Timestamp)

  /** A task holds its assigned staff member by value: staff records never
      change once registered, so a copy and a shared reference agree. */
  datatype Task = Task(
    id: Id,
    title: string,
    status: Status,
    priority: Priority,
    startDate: Date,
    dueDate: Date,
    assignedStaff: Staff,
    comments: seq<Comment>,
    activityHistory: seq<ActivityLog>
  )

  predicate IsAfter(d: Date, other: Date) {
    d > other
  }

  predicate IsBefore(d: Date, other: Date) {
    d < other
  }
}

/** The request and view records exchanged with callers. */
module Dto {
  import opened Model

  datatype CreateTaskRequest = CreateTaskRequest(
    title: string,
    priority: Priority,
    startDate: Date,
    dueDate: Date,
    staffId: Id
  )

  /** The external view of a task: the staff reference is flattened to a name. */
  datatype TaskDto = TaskDto(
    id: Id,
    title: string,
    status: Status,
    priority: Priority,
    startDate: Date,
    dueDate: Date,
    assignedStaffName: string,
    comments: seq<Comment>,
    activityHistory: seq<ActivityLog>
  )
}

/** The failure outcomes of the registry's operations. */
module Errors {

  datatype Error = StaffNotFound | TaskNotFound | InvalidRange

  datatype Result<+T> = Success(value: T) | Failure(error: Error)
}
