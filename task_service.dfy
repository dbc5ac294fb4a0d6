/** The general task service: create, update, status change and delete with
    an ownership check that administrators bypass, and the per-user queries. */
module TaskService {
  import opened Wrappers
  import opened Entities
  import opened TaskLifecycle
  import opened Database

  const UserNotFound: string := "User not found"
  const TaskNotFound: string := "Task not found"
  const CategoryNotFound: string := "Category not found"
  const NotAllowedToUpdate: string := "You are not allowed to update this task"
  const NotAllowedToUpdateStatus: string := "You are not allowed to update status of this task"
  const NotAllowedToDelete: string := "You are not allowed to delete this task"

  /** The body of an update request. */
  datatype UpdateRequest = UpdateRequest(
    title: Option<string>, description: Option<string>, status: Option<Status>,
    priority: Option<Priority>, dueDate: Option<Time>, userId: Option<nat>, categoryId: Option<nat>)

  /** The row `createTask` hands to the repository. */
  function CreatedRow(task: Task, userId: nat, isAdmin: bool, now: Time): Task {
    // both branches of the admin test assign the same owner
    var owned := if !isAdmin then task.(user := Some(userId)) else task.(user := Some(userId));
    owned.(priority := if task.priority.Some? then task.priority else Some(MEDIUM),
           status := if task.status.Some? then task.status else Some(PENDING),
           createdAt := Some(now), updatedAt := Some(now))
  }

  /** What `createTask` returns: an unknown user fails; otherwise the saved
      row is owned by that user whatever the admin flag, carries the given
      status and priority or the defaults PENDING and MEDIUM, keeps the
      title, description, due date and category, and is stamped `now`. Of
      the save-time failures only the unset `title` column is modelled; the
      category reference is not checked. */
  function CreateOutcome(users: map<nat, User>, nextId: nat, userId: nat, task: Task, isAdmin: bool, now: Time): (r: Result<Task, Error>)
    ensures userId !in users ==> r == Failure(EntityNotFound(UserNotFound))
    ensures userId in users && task.title.None? ==> r == Failure(ConstraintViolation)
    ensures r.Success? <==> userId in users && task.title.Some?
    ensures r.Success? ==>
      && r.value.id == Some(nextId) && r.value.user == Some(userId)
      && r.value.priority == (if task.priority.Some? then task.priority else Some(MEDIUM))
      && r.value.status == (if task.status.Some? then task.status else Some(PENDING))
      && r.value.createdAt == Some(now) && r.value.updatedAt == Some(now)
      && r.value.title == task.title && r.value.description == task.description
      && r.value.dueDate == task.dueDate && r.value.category == task.category
      && r.value.completedAt == task.completedAt
      && r.value.startTime == task.startTime && r.value.endTime == task.endTime
  {
    if userId !in users then Failure(EntityNotFound(UserNotFound))
    else InsertOutcome(Success(CreatedRow(task, userId, isAdmin, now)), nextId, now)
  }

  /** The admin flag has no effect on what `createTask` does. */
  lemma CreateIgnoresAdminFlag(users: map<nat, User>, nextId: nat, userId: nat, task: Task, now: Time)
    ensures CreateOutcome(users, nextId, userId, task, true, now) == CreateOutcome(users, nextId, userId, task, false, now)
  {
  }

  /** The ownership check shared by update, status change and delete: an
      admin passes, anyone else must own the task; a row without an owner
      throws on the owner lookup. */
  function Authorize(task: Task, currentUserId: Option<nat>, isAdmin: bool, denied: string): (r: Option<Error>)
    ensures r.None? <==> isAdmin || OwnedBy(task, currentUserId)
    ensures r.Some? && task.user.Some? ==> r == Some(Security(denied))
  {
    if isAdmin then None
    else if task.user.None? then Some(NullPointer)
    else if task.user != currentUserId then Some(Security(denied))
    else None
  }

  /** The row `updateTask` hands to the repository, or the error it throws first. */
  function UpdatePlan(tasks: map<nat, Task>, users: map<nat, User>, categories: map<nat, Category>,
                      taskId: nat, req: UpdateRequest, currentUserId: Option<nat>, isAdmin: bool, now: Time): (r: Result<Task, Error>)
    ensures taskId !in tasks ==> r == Failure(EntityNotFound(TaskNotFound))
    ensures taskId in tasks && tasks[taskId].user.Some? && !isAdmin && !OwnedBy(tasks[taskId], currentUserId) ==>
      r == Failure(Security(NotAllowedToUpdate))
    ensures taskId in tasks && (isAdmin || OwnedBy(tasks[taskId], currentUserId)) && req.userId.Some? && req.userId.value !in users ==>
      r == Failure(EntityNotFound(UserNotFound))
    ensures (taskId in tasks && (isAdmin || OwnedBy(tasks[taskId], currentUserId)) && req.userId.Some?
             && req.userId.value in users && tasks[taskId].user.None?) ==> r == Failure(NullPointer)
    ensures (taskId in tasks && (isAdmin || OwnedBy(tasks[taskId], currentUserId))
             && (req.userId.None? || (req.userId.value in users && tasks[taskId].user.Some?))
             && req.categoryId.Some? && req.categoryId.value !in categories) ==> r == Failure(EntityNotFound(CategoryNotFound))
    ensures r.Success? <==>
      && taskId in tasks && (isAdmin || OwnedBy(tasks[taskId], currentUserId))
      && (req.userId.None? || (req.userId.value in users && tasks[taskId].user.Some?))
      && (req.categoryId.None? || req.categoryId.value in categories)
    ensures r.Success? ==> taskId in tasks && (isAdmin || OwnedBy(tasks[taskId], currentUserId))
    ensures r.Success? ==> req.userId.None? || req.userId.value in users
    ensures r.Success? ==> req.categoryId.None? || req.categoryId.value in categories
    ensures r.Success? ==>
      var old_ := tasks[taskId];
      && r.value.id == old_.id
      && r.value.title == req.title && r.value.description == req.description
      && r.value.priority == req.priority && r.value.status == req.status && r.value.dueDate == req.dueDate
      && r.value.updatedAt == Some(now)
      && r.value.user == (if req.userId.Some? then req.userId else old_.user)
      && r.value.category == (if req.categoryId.Some? then req.categoryId
                              else if req.userId.Some? && req.userId != old_.user then None
                              else old_.category)
      && r.value.createdAt == old_.createdAt && r.value.completedAt == old_.completedAt
      && r.value.startTime == old_.startTime && r.value.endTime == old_.endTime
  {
    if taskId !in tasks then Failure(EntityNotFound(TaskNotFound))
    else
      var task := tasks[taskId];
      var denied := Authorize(task, currentUserId, isAdmin, NotAllowedToUpdate);
      if denied.Some? then Failure(denied.value)
      else if req.userId.Some? && req.userId.value !in users then Failure(EntityNotFound(UserNotFound))
      else if req.userId.Some? && task.user.None? then Failure(NullPointer)
      else
        var reassigned :=
          if req.userId.None? then task
          else (if req.userId != task.user then task.(category := None) else task).(user := req.userId);
        if req.categoryId.Some? && req.categoryId.value !in categories then Failure(EntityNotFound(CategoryNotFound))
        else
          var categorised := if req.categoryId.Some? then reassigned.(category := req.categoryId) else reassigned;
          Success(categorised.(title := req.title, description := req.description, priority := req.priority,
                               status := req.status, dueDate := req.dueDate, updatedAt := Some(now)))
  }

  /** The row `updateStatus` hands to the repository: only the status differs. */
  function StatusPlan(tasks: map<nat, Task>, taskId: nat, status: Status, currentUserId: Option<nat>, isAdmin: bool): (r: Result<Task, Error>)
    ensures taskId !in tasks ==> r == Failure(EntityNotFound(TaskNotFound))
    ensures taskId in tasks && tasks[taskId].user.Some? && !isAdmin && !OwnedBy(tasks[taskId], currentUserId) ==>
      r == Failure(Security(NotAllowedToUpdateStatus))
    ensures r.Success? <==> taskId in tasks && (isAdmin || OwnedBy(tasks[taskId], currentUserId))
    ensures r.Success? ==> r.value == tasks[taskId].(status := Some(status))
  {
    if taskId !in tasks then Failure(EntityNotFound(TaskNotFound))
    else
      var denied := Authorize(tasks[taskId], currentUserId, isAdmin, NotAllowedToUpdateStatus);
      if denied.Some? then Failure(denied.value) else Success(tasks[taskId].(status := Some(status)))
  }

  /** Whether `deleteTask` may delete the row, or the error it throws. */
  function DeleteCheck(tasks: map<nat, Task>, taskId: nat, currentUserId: Option<nat>, isAdmin: bool): (r: Option<Error>)
    ensures taskId !in tasks ==> r == Some(EntityNotFound(TaskNotFound))
    ensures taskId in tasks && tasks[taskId].user.Some? && !isAdmin && !OwnedBy(tasks[taskId], currentUserId) ==>
      r == Some(Security(NotAllowedToDelete))
    ensures r.None? <==> taskId in tasks && (isAdmin || OwnedBy(tasks[taskId], currentUserId))
  {
    if taskId !in tasks then Some(EntityNotFound(TaskNotFound))
    else Authorize(tasks[taskId], currentUserId, isAdmin, NotAllowedToDelete)
  }

  /** Whatever it is asked to store, a successful status update leaves
      every column but the status and the hook's timestamps as they were. */
  lemma StatusUpdateChangesOnlyStatus(tasks: map<nat, Task>, taskId: nat, status: Status,
                                      currentUserId: Option<nat>, isAdmin: bool, now: Time)
    requires taskId in tasks && tasks[taskId].id == Some(taskId)
    ensures var r := SaveOutcome(tasks, StatusPlan(tasks, taskId, status, currentUserId, isAdmin), now);
      r.Success? ==>
        var t := tasks[taskId];
        && r.value.status == Some(status)
        && r.value.(status := t.status, updatedAt := t.updatedAt, completedAt := t.completedAt) == t
        && (t.completedAt.Some? ==> r.value.completedAt == t.completedAt)
  {
    var plan := StatusPlan(tasks, taskId, status, currentUserId, isAdmin);
    if plan.Success? {
      var t := tasks[taskId];
      if plan.value != t {
        assert Merged(t, plan.value, now) == PreUpdated(plan.value, now);
      }
    }
  }

  method CreateTask(db: Db, userId: nat, task: Task, isAdmin: bool, now: Time) returns (r: Result<Task, Error>)
    requires db.Valid()
    modifies db`tasks, db`nextTaskId
    ensures db.Valid()
    ensures r == CreateOutcome(old(db.users), old(db.nextTaskId), userId, task, isAdmin, now)
    ensures db.tasks == if r.Success? then old(db.tasks)[old(db.nextTaskId) := r.value] else old(db.tasks)
  {
    if userId !in db.users {
      return Failure(EntityNotFound(UserNotFound));
    }
    r := db.InsertTask(CreatedRow(task, userId, isAdmin, now), now);
  }

  method UpdateTask(db: Db, taskId: nat, req: UpdateRequest, currentUserId: Option<nat>, isAdmin: bool, now: Time)
    returns (r: Result<Task, Error>)
    requires db.Valid()
    modifies db`tasks
    ensures db.Valid()
    ensures r == SaveOutcome(old(db.tasks), UpdatePlan(old(db.tasks), db.users, db.categories, taskId, req, currentUserId, isAdmin, now), now)
    ensures db.tasks == if r.Success? then old(db.tasks)[taskId := r.value] else old(db.tasks)
  {
    var plan := UpdatePlan(db.tasks, db.users, db.categories, taskId, req, currentUserId, isAdmin, now);
    if plan.Failure? {
      return plan;
    }
    r := db.UpdateTask(plan.value, now);
  }

  method UpdateStatus(db: Db, taskId: nat, status: Status, currentUserId: Option<nat>, isAdmin: bool, now: Time)
    returns (r: Result<Task, Error>)
    requires db.Valid()
    modifies db`tasks
    ensures db.Valid()
    ensures r == SaveOutcome(old(db.tasks), StatusPlan(old(db.tasks), taskId, status, currentUserId, isAdmin), now)
    ensures db.tasks == if r.Success? then old(db.tasks)[taskId := r.value] else old(db.tasks)
  {
    var plan := StatusPlan(db.tasks, taskId, status, currentUserId, isAdmin);
    if plan.Failure? {
      return plan;
    }
    r := db.UpdateTask(plan.value, now);
  }

  /** `deleteTask`: removes exactly that row when allowed, and nothing otherwise. */
  method DeleteTask(db: Db, taskId: nat, currentUserId: Option<nat>, isAdmin: bool) returns (r: Option<Error>)
    requires db.Valid()
    modifies db`tasks
    ensures db.Valid()
    ensures r == DeleteCheck(old(db.tasks), taskId, currentUserId, isAdmin)
    ensures db.tasks == if r.None? then old(db.tasks) - {taskId} else old(db.tasks)
  {
    r := DeleteCheck(db.tasks, taskId, currentUserId, isAdmin);
    if r.None? {
      db.DeleteTask(taskId);
    }
  }
}
