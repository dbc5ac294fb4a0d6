/** The backend's persistent records, as values. Every Java reference field
    that may be `null` is an `Option`; timestamps are natural numbers. A
    reference to another record is that record's id. */
module Entities {
  import opened Wrappers

  datatype Status = PENDING | IN_PROGRESS | COMPLETED
  datatype Priority = LOW | MEDIUM | HIGH

  /** The status values in declaration order, as the status endpoint lists them. */
  const AllStatuses: seq<Status> := [PENDING, IN_PROGRESS, COMPLETED]
  /** The priority values in declaration order, as the priority endpoint lists them. */
  const AllPriorities: seq<Priority> := [LOW, MEDIUM, HIGH]

  /** `Status.name()` */
  function StatusName(s: Status): string {
    match s
    case PENDING => "PENDING"
    case IN_PROGRESS => "IN_PROGRESS"
    case COMPLETED => "COMPLETED"
  }

  /** `Priority.name()` */
  function PriorityName(p: Priority): string {
    match p
    case LOW => "LOW"
    case MEDIUM => "MEDIUM"
    case HIGH => "HIGH"
  }

  /** A point in time; `LocalDateTime.now()` is passed in as one. */
  type Time = nat

  /** The exceptions the services throw, and the save-time failure of a
      `nullable = false` column (which column the error names is not modelled). */
  datatype Error =
    | EntityNotFound(message: string)
    | Security(message: string)
    | Runtime(message: string)
    | NullPointer
    | ConstraintViolation

  datatype User = User(id: nat, name: Option<string>, username: Option<string>,
                       password: Option<string>, email: Option<string>, roles: set<nat>)

  datatype Role = Role(id: nat, name: Option<string>)

  datatype Category = Category(id: nat, name: Option<string>, color: Option<string>, user: Option<nat>)

  /** A row of the `tasks` table, or a task as it arrives in a request body
      (then `id` is usually absent). */
  datatype Task = Task(
    id: Option<nat>,
    title: Option<string>,
    description: Option<string>,
    status: Option<Status>,
    priority: Option<Priority>,
    dueDate: Option<Time>,
    user: Option<nat>,
    createdAt: Option<Time>,
    updatedAt: Option<Time>,
    completedAt: Option<Time>,
    category: Option<nat>,
    startTime: Option<Time>,
    endTime: Option<Time>)
}
