/** The backend's tables, as maps from id to row, and the repository
    operations the services use. Saving a task runs the entity's lifecycle
    hook and fails, changing nothing, when a `nullable = false` column is
    unset. */
module Database {
  import opened Wrappers
  import opened Entities
  import opened TaskLifecycle

  /** `findAll()` on a table whose rows sit under their own `key`: exactly
      the stored rows. */
  function FindAll<T(!new)>(rows: map<nat, T>, key: T -> nat): (r: set<T>)
    requires forall k :: k in rows ==> key(rows[k]) == k
    ensures forall k :: k in rows ==> rows[k] in r
    ensures forall x :: x in r ==> key(x) in rows && rows[key(x)] == x
  {
    rows.Values
  }

  /** `task.getUser().getId().equals(userId)`, for a row whose owner is set. */
  predicate OwnedBy(t: Task, userId: Option<nat>) {
    t.user.Some? && userId == t.user
  }

  /** The row a save of a new task stores under `id`. */
  function Persisted(row: Task, id: nat, now: Time): (r: Task)
    ensures r.id == Some(id) && r.createdAt == Some(now) && r.updatedAt == Some(now)
    ensures r.(id := row.id, createdAt := row.createdAt, updatedAt := row.updatedAt) == row
  {
    PrePersisted(row.(id := Some(id)), now)
  }

  /** The row a save of an existing task stores: an unchanged row is not
      written and its hook does not run. */
  function Merged(stored: Task, row: Task, now: Time): (r: Task)
    ensures row == stored ==> r == stored
    ensures row != stored ==> r.updatedAt == Some(now) && r.(updatedAt := row.updatedAt, completedAt := row.completedAt) == row
    ensures r.id == row.id && r.user == row.user && r.status == row.status && r.category == row.category
  {
    if row == stored then stored else PreUpdated(row, now)
  }

  /** A status write in a series is a save of the stored row with only its
      status changed: skipped when the status is unchanged, pre-updated otherwise. */
  lemma StatusWriteIsMerge(t: Task, status: Option<Status>, now: Time)
    ensures Merged(t, t.(status := status), now) == StatusWritten(t, status, now)
  {
  }

  /** The flush-time check of the `nullable = false` columns. */
  function Checked(row: Task): (r: Result<Task, Error>)
    ensures r.Success? <==> NonNullColumns(row)
    ensures r.Success? ==> r.value == row
    ensures r.Failure? ==> r.error == ConstraintViolation
  {
    if NonNullColumns(row) then Success(row) else Failure(ConstraintViolation)
  }

  /** The outcome of saving a planned row as a new task. */
  function InsertOutcome(plan: Result<Task, Error>, nextId: nat, now: Time): Result<Task, Error> {
    if plan.Failure? then plan else Checked(Persisted(plan.value, nextId, now))
  }

  /** The outcome of saving a planned row over the stored row with the same id. */
  function SaveOutcome(tasks: map<nat, Task>, plan: Result<Task, Error>, now: Time): Result<Task, Error>
    requires plan.Success? ==> plan.value.id.Some? && plan.value.id.value in tasks
  {
    if plan.Failure? then plan else Checked(Merged(tasks[plan.value.id.value], plan.value, now))
  }

  /** Every stored row sits under its own id, below the next id to hand
      out, and has its `nullable = false` columns set. */
  ghost predicate TasksValid(tasks: map<nat, Task>, nextTaskId: nat) {
    forall k :: k in tasks ==> tasks[k].id == Some(k) && k < nextTaskId && NonNullColumns(tasks[k])
  }

  class Db {
    var tasks: map<nat, Task>
    var users: map<nat, User>
    var roles: map<nat, Role>
    var categories: map<nat, Category>
    var nextTaskId: nat
    var nextUserId: nat
    var nextRoleId: nat
    var nextCategoryId: nat

    ghost predicate Valid()
      reads this
    {
      && TasksValid(tasks, nextTaskId)
      && (forall k :: k in users ==> users[k].id == k && k < nextUserId)
      && (forall k :: k in roles ==> roles[k].id == k && k < nextRoleId)
      && (forall k :: k in categories ==> categories[k].id == k && k < nextCategoryId)
    }

    constructor ()
      ensures Valid()
      ensures tasks == map[] && users == map[] && roles == map[] && categories == map[]
    {
      tasks, users, roles, categories := map[], map[], map[], map[];
      nextTaskId, nextUserId, nextRoleId, nextCategoryId := 0, 0, 0, 0;
    }

    /** `taskRepository.save(task)` for a task without a row: `prePersist`
        runs, then the columns are checked and the row is inserted. */
    method InsertTask(row: Task, now: Time) returns (r: Result<Task, Error>)
      requires Valid()
      modifies this`tasks, this`nextTaskId
      ensures Valid()
      ensures r == InsertOutcome(Success(row), old(nextTaskId), now)
      ensures tasks == if r.Success? then old(tasks)[old(nextTaskId) := r.value] else old(tasks)
      ensures nextTaskId == if r.Success? then old(nextTaskId) + 1 else old(nextTaskId)
    {
      var entity := new TaskEntity(row.(id := Some(nextTaskId)));
      entity.PrePersist(now);
      var saved := entity.Row();
      r := Checked(saved);
      if r.Success? {
        tasks := tasks[nextTaskId := saved];
        nextTaskId := nextTaskId + 1;
      }
    }

    /** `taskRepository.save(task)` for a task that has a row: `preUpdate`
        runs if the row changed, then the columns are checked. */
    method UpdateTask(row: Task, now: Time) returns (r: Result<Task, Error>)
      requires Valid() && row.id.Some? && row.id.value in tasks
      modifies this`tasks
      ensures Valid()
      ensures r == SaveOutcome(old(tasks), Success(row), now)
      ensures tasks == if r.Success? then old(tasks)[row.id.value := r.value] else old(tasks)
    {
      var saved := tasks[row.id.value];
      if row != saved {
        var entity := new TaskEntity(row);
        entity.PreUpdate(now);
        saved := entity.Row();
      }
      r := Checked(saved);
      if r.Success? {
        tasks := tasks[row.id.value := saved];
      }
    }

    /** `taskRepository.deleteById(id)`; an absent id is ignored. */
    method DeleteTask(id: nat)
      requires Valid()
      modifies this`tasks
      ensures Valid()
      ensures tasks == old(tasks) - {id}
    {
      tasks := tasks - {id};
    }
  }

  /** `findByUserId`: exactly the rows owned by the user (the order of the
      list the database returns is not modelled). */
  function TasksOfUser(tasks: map<nat, Task>, userId: nat): (r: map<nat, Task>)
    ensures forall k :: k in r <==> k in tasks && tasks[k].user == Some(userId)
    ensures forall k :: k in r ==> r[k] == tasks[k]
  {
    map k | k in tasks && tasks[k].user == Some(userId) :: tasks[k]
  }

  /** `findByUserIdAndStatus`: exactly the rows owned by the user with that status. */
  function TasksOfUserWithStatus(tasks: map<nat, Task>, userId: nat, status: Status): (r: map<nat, Task>)
    ensures forall k :: k in r <==> k in tasks && tasks[k].user == Some(userId) && tasks[k].status == Some(status)
    ensures forall k :: k in r ==> r[k] == tasks[k]
  {
    map k | k in tasks && tasks[k].user == Some(userId) && tasks[k].status == Some(status) :: tasks[k]
  }

  /** The three status queries split a user's tasks: each of the user's stored
      tasks is returned by exactly one of them. */
  lemma StatusQueriesPartitionUserTasks(tasks: map<nat, Task>, nextTaskId: nat, userId: nat)
    requires TasksValid(tasks, nextTaskId)
    ensures TasksOfUser(tasks, userId).Keys ==
      TasksOfUserWithStatus(tasks, userId, PENDING).Keys
      + TasksOfUserWithStatus(tasks, userId, IN_PROGRESS).Keys
      + TasksOfUserWithStatus(tasks, userId, COMPLETED).Keys
    ensures forall s1, s2 :: s1 != s2 ==>
      TasksOfUserWithStatus(tasks, userId, s1).Keys !! TasksOfUserWithStatus(tasks, userId, s2).Keys
  {
    var all := TasksOfUser(tasks, userId);
    var pending := TasksOfUserWithStatus(tasks, userId, PENDING);
    var active := TasksOfUserWithStatus(tasks, userId, IN_PROGRESS);
    var done := TasksOfUserWithStatus(tasks, userId, COMPLETED);
    forall k | k in all
      ensures k in pending.Keys + active.Keys + done.Keys
    {
      assert NonNullColumns(tasks[k]);
      match tasks[k].status.value
      case PENDING => assert k in pending;
      case IN_PROGRESS => assert k in active;
      case COMPLETED => assert k in done;
    }
  }

  /** `findByCategoryId`: the ids of the rows that reference the category, of any owner. */
  function TasksInCategory(tasks: map<nat, Task>, categoryId: nat): (r: set<nat>)
    ensures forall k :: k in r <==> k in tasks && tasks[k].category == Some(categoryId)
  {
    set k | k in tasks && tasks[k].category == Some(categoryId)
  }
}
