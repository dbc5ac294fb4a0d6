/** The personal task service: a user's own tasks and task categories. Its
    ownership checks have no administrator bypass. */
module PersonalTaskService {
  import opened Wrappers
  import opened Entities
  import opened TaskLifecycle
  import opened Database
  import TaskService

  const UserNotFound: string := "User not found"
  const TaskNotFound: string := "Task not found"
  const CategoryNotFound: string := "Category not found"
  const CategoryNotOwned: string := "Category not found or not owned by user"
  const NotAllowedToUpdate: string := "You are not allowed to update this task"
  const NotAllowedToDelete: string := "You are not allowed to delete this task"

  /** What `getTaskCategoriesByUser` returns for one category. */
  datatype CategoryDto = CategoryDto(id: nat, name: Option<string>, color: Option<string>)

  /** `getAllCategories`: every stored category. */
  function AllCategories(categories: map<nat, Category>): (r: set<Category>)
    ensures forall k :: k in categories ==> categories[k] in r
    ensures forall c :: c in r ==> c.id in categories && categories[c.id] == c
    requires forall k :: k in categories ==> categories[k].id == k
  {
    FindAll(categories, (x: Category) => x.id)
  }

  /** `getTaskCategoriesByUser`: exactly the user's categories, as (id, name, color). */
  function CategoriesOfUser(categories: map<nat, Category>, userId: nat): (r: set<CategoryDto>)
    requires forall k :: k in categories ==> categories[k].id == k
    ensures forall k :: k in categories && categories[k].user == Some(userId) ==>
      CategoryDto(k, categories[k].name, categories[k].color) in r
    ensures forall d :: d in r ==>
      d.id in categories && categories[d.id].user == Some(userId)
      && d.name == categories[d.id].name && d.color == categories[d.id].color
  {
    set k | k in categories && categories[k].user == Some(userId) :: CategoryDto(k, categories[k].name, categories[k].color)
  }

  /** The row `createTask` hands to the repository, or the error it throws first. */
  function CreatePlan(users: map<nat, User>, categories: map<nat, Category>, currentUserId: nat, task: Task, now: Time): (r: Result<Task, Error>)
    ensures currentUserId !in users ==> r == Failure(EntityNotFound(UserNotFound))
    ensures currentUserId in users && task.category.Some? && task.category.value !in categories ==>
      r == Failure(EntityNotFound(CategoryNotFound))
    ensures r.Success? <==> currentUserId in users && (task.category.None? || task.category.value in categories)
    ensures r.Success? ==>
      && r.value.user == Some(currentUserId) && r.value.category == task.category
      && r.value.status == (if task.status.Some? then task.status else Some(PENDING))
      && r.value.priority == task.priority
      && r.value.title == task.title && r.value.description == task.description && r.value.dueDate == task.dueDate
  {
    if currentUserId !in users then Failure(EntityNotFound(UserNotFound))
    else if task.category.Some? && task.category.value !in categories then Failure(EntityNotFound(CategoryNotFound))
    else
      Success(task.(user := Some(currentUserId),
                    status := if task.status.Some? then task.status else Some(PENDING),
                    createdAt := Some(now), updatedAt := Some(now)))
  }

  /** Unlike the general service, a new personal task gets no default
      priority: without one the save fails on that column. */
  lemma CreateWithoutPriorityFails(users: map<nat, User>, categories: map<nat, Category>, nextId: nat,
                                   currentUserId: nat, task: Task, now: Time)
    requires currentUserId in users && task.category.None? && task.title.Some? && task.priority.None?
    ensures InsertOutcome(CreatePlan(users, categories, currentUserId, task, now), nextId, now)
      == Failure(ConstraintViolation)
  {
    var row := Persisted(CreatePlan(users, categories, currentUserId, task, now).value, nextId, now);
    assert row.status.Some?;
  }

  /** The row `updateTask` hands to the repository, or the error it throws first. */
  function UpdatePlan(tasks: map<nat, Task>, categories: map<nat, Category>, taskId: nat, updated: Task,
                      currentUserId: nat, now: Time): (r: Result<Task, Error>)
    ensures taskId !in tasks ==> r == Failure(EntityNotFound(TaskNotFound))
    ensures taskId in tasks && tasks[taskId].user.Some? && !OwnedBy(tasks[taskId], Some(currentUserId)) ==>
      r == Failure(Security(NotAllowedToUpdate))
    ensures (taskId in tasks && OwnedBy(tasks[taskId], Some(currentUserId)) && updated.category.Some?
             && updated.category.value !in categories) ==> r == Failure(EntityNotFound(CategoryNotFound))
    ensures r.Success? <==>
      taskId in tasks && OwnedBy(tasks[taskId], Some(currentUserId)) && (updated.category.None? || updated.category.value in categories)
    ensures r.Success? ==> taskId in tasks && OwnedBy(tasks[taskId], Some(currentUserId))
    ensures r.Success? ==> updated.category.None? || updated.category.value in categories
    ensures r.Success? ==>
      var old_ := tasks[taskId];
      && r.value.id == old_.id && r.value.user == old_.user
      && r.value.category == (if updated.category.Some? then updated.category else old_.category)
      && r.value.title == updated.title && r.value.description == updated.description
      && r.value.dueDate == updated.dueDate && r.value.priority == updated.priority
      && r.value.status == updated.status && r.value.updatedAt == Some(now)
      && r.value.createdAt == old_.createdAt && r.value.completedAt == old_.completedAt
  {
    if taskId !in tasks then Failure(EntityNotFound(TaskNotFound))
    else
      var task := tasks[taskId];
      var denied := TaskService.Authorize(task, Some(currentUserId), false, NotAllowedToUpdate);
      if denied.Some? then Failure(denied.value)
      else if updated.category.Some? && updated.category.value !in categories then Failure(EntityNotFound(CategoryNotFound))
      else
        var categorised := if updated.category.Some? then task.(category := updated.category) else task;
        Success(categorised.(title := updated.title, description := updated.description, dueDate := updated.dueDate,
                             priority := updated.priority, status := updated.status, updatedAt := Some(now)))
  }

  /** The row `updateStatus` hands to the repository: the status and `updatedAt` differ. */
  function StatusPlan(tasks: map<nat, Task>, taskId: nat, status: Status, currentUserId: nat, now: Time): (r: Result<Task, Error>)
    ensures taskId !in tasks ==> r == Failure(EntityNotFound(TaskNotFound))
    ensures taskId in tasks && tasks[taskId].user.Some? && !OwnedBy(tasks[taskId], Some(currentUserId)) ==>
      r == Failure(Security(NotAllowedToUpdate))
    ensures r.Success? <==> taskId in tasks && OwnedBy(tasks[taskId], Some(currentUserId))
    ensures r.Success? ==> r.value == tasks[taskId].(status := Some(status), updatedAt := Some(now))
  {
    if taskId !in tasks then Failure(EntityNotFound(TaskNotFound))
    else
      var denied := TaskService.Authorize(tasks[taskId], Some(currentUserId), false, NotAllowedToUpdate);
      if denied.Some? then Failure(denied.value)
      else Success(tasks[taskId].(status := Some(status), updatedAt := Some(now)))
  }

  /** Whether `deleteTask` may delete the row, or the error it throws. */
  function DeleteCheck(tasks: map<nat, Task>, taskId: nat, currentUserId: nat): (r: Option<Error>)
    ensures taskId !in tasks ==> r == Some(EntityNotFound(TaskNotFound))
    ensures taskId in tasks && tasks[taskId].user.Some? && !OwnedBy(tasks[taskId], Some(currentUserId)) ==>
      r == Some(Security(NotAllowedToDelete))
    ensures r.None? <==> taskId in tasks && OwnedBy(tasks[taskId], Some(currentUserId))
  {
    if taskId !in tasks then Some(EntityNotFound(TaskNotFound))
    else TaskService.Authorize(tasks[taskId], Some(currentUserId), false, NotAllowedToDelete)
  }

  /** The personal service never lets a non-owner change or delete a task,
      where the general one lets an administrator do both. */
  lemma NoAdminBypass(tasks: map<nat, Task>, taskId: nat, currentUserId: nat, status: Status, now: Time)
    requires taskId in tasks && tasks[taskId].user.Some? && tasks[taskId].user != Some(currentUserId)
    ensures StatusPlan(tasks, taskId, status, currentUserId, now).Failure?
    ensures DeleteCheck(tasks, taskId, currentUserId).Some?
    ensures TaskService.StatusPlan(tasks, taskId, status, Some(currentUserId), true).Success?
    ensures TaskService.DeleteCheck(tasks, taskId, Some(currentUserId), true).None?
  {
  }

  /** Every row after a category is deleted: rows that referenced it lose
      the reference and go through `preUpdate`; the others are unchanged. */
  function Unlinked(tasks: map<nat, Task>, categoryId: nat, now: Time): (r: map<nat, Task>)
    ensures r.Keys == tasks.Keys
    ensures forall k :: k in tasks && tasks[k].category == Some(categoryId) ==> r[k] == PreUpdated(tasks[k].(category := None), now)
    ensures forall k :: k in tasks && tasks[k].category != Some(categoryId) ==> r[k] == tasks[k]
    ensures forall k :: k in r ==> r[k].category != Some(categoryId)
  {
    map k | k in tasks :: if tasks[k].category == Some(categoryId) then PreUpdated(tasks[k].(category := None), now) else tasks[k]
  }

  method CreateTask(db: Db, currentUserId: nat, task: Task, now: Time) returns (r: Result<Task, Error>)
    requires db.Valid()
    modifies db`tasks, db`nextTaskId
    ensures db.Valid()
    ensures r == InsertOutcome(CreatePlan(db.users, db.categories, currentUserId, task, now), old(db.nextTaskId), now)
    ensures db.tasks == if r.Success? then old(db.tasks)[old(db.nextTaskId) := r.value] else old(db.tasks)
  {
    var plan := CreatePlan(db.users, db.categories, currentUserId, task, now);
    if plan.Failure? {
      return plan;
    }
    r := db.InsertTask(plan.value, now);
  }

  /** `createTaskCategory`: an unknown user fails; otherwise the category is
      stored under a new id, owned by that user. */
  method CreateTaskCategory(db: Db, currentUserId: nat, category: Category) returns (r: Result<Category, Error>)
    requires db.Valid()
    modifies db`categories, db`nextCategoryId
    ensures db.Valid()
    ensures currentUserId !in db.users ==>
      r == Failure(EntityNotFound(UserNotFound)) && db.categories == old(db.categories)
    ensures currentUserId in db.users ==>
      && r == Success(category.(id := old(db.nextCategoryId), user := Some(currentUserId)))
      && db.categories == old(db.categories)[old(db.nextCategoryId) := r.value]
  {
    if currentUserId !in db.users {
      return Failure(EntityNotFound(UserNotFound));
    }
    var saved := category.(id := db.nextCategoryId, user := Some(currentUserId));
    db.categories := db.categories[db.nextCategoryId := saved];
    db.nextCategoryId := db.nextCategoryId + 1;
    r := Success(saved);
  }

  /** `deleteTaskCategory`: unless the caller owns the category nothing
      changes; otherwise every task that references it is unlinked and saved,
      and then the category is removed. */
  method DeleteTaskCategory(db: Db, currentUserId: nat, categoryId: nat, now: Time) returns (r: Option<Error>)
    requires db.Valid()
    modifies db`tasks, db`categories
    ensures db.Valid()
    ensures !(categoryId in old(db.categories) && old(db.categories)[categoryId].user == Some(currentUserId)) ==>
      r == Some(EntityNotFound(CategoryNotOwned)) && db.tasks == old(db.tasks) && db.categories == old(db.categories)
    ensures categoryId in old(db.categories) && old(db.categories)[categoryId].user == Some(currentUserId) ==>
      && r == None
      && db.tasks == Unlinked(old(db.tasks), categoryId, now)
      && db.categories == old(db.categories) - {categoryId}
  {
    if !(categoryId in db.categories && db.categories[categoryId].user == Some(currentUserId)) {
      return Some(EntityNotFound(CategoryNotOwned));
    }
    var start := db.tasks;
    var rows := UnlinkAll(start, categoryId, now);
    UnlinkedValid(start, db.nextTaskId, categoryId, now);
    db.tasks := rows;
    db.categories := db.categories - {categoryId};
    r := None;
  }

  /** The loop of `deleteTaskCategory` over the category's tasks and the
      `saveAll` after it: each task loses the category and is stamped by
      `@PreUpdate` when saved. */
  method UnlinkAll(start: map<nat, Task>, categoryId: nat, now: Time) returns (rows: map<nat, Task>)
    ensures rows == Unlinked(start, categoryId, now)
  {
    var linked := TasksInCategory(start, categoryId);
    rows := start;
    var remaining := linked;
    while remaining != {}
      invariant remaining <= linked
      invariant rows.Keys == start.Keys
      invariant forall k :: k in rows ==>
        rows[k] == if k in linked && k !in remaining then PreUpdated(start[k].(category := None), now) else start[k]
      decreases remaining
    {
      var k :| k in remaining;
      rows := rows[k := PreUpdated(rows[k].(category := None), now)];
      remaining := remaining - {k};
    }
    assert rows == Unlinked(start, categoryId, now);
  }

  method UpdateTask(db: Db, taskId: nat, updated: Task, currentUserId: nat, now: Time) returns (r: Result<Task, Error>)
    requires db.Valid()
    modifies db`tasks
    ensures db.Valid()
    ensures r == SaveOutcome(old(db.tasks), UpdatePlan(old(db.tasks), db.categories, taskId, updated, currentUserId, now), now)
    ensures db.tasks == if r.Success? then old(db.tasks)[taskId := r.value] else old(db.tasks)
  {
    var plan := UpdatePlan(db.tasks, db.categories, taskId, updated, currentUserId, now);
    if plan.Failure? {
      return plan;
    }
    r := db.UpdateTask(plan.value, now);
  }

  method UpdateStatus(db: Db, taskId: nat, status: Status, currentUserId: nat, now: Time) returns (r: Result<Task, Error>)
    requires db.Valid()
    modifies db`tasks
    ensures db.Valid()
    ensures r == SaveOutcome(old(db.tasks), StatusPlan(old(db.tasks), taskId, status, currentUserId, now), now)
    ensures db.tasks == if r.Success? then old(db.tasks)[taskId := r.value] else old(db.tasks)
  {
    var plan := StatusPlan(db.tasks, taskId, status, currentUserId, now);
    if plan.Failure? {
      return plan;
    }
    r := db.UpdateTask(plan.value, now);
  }

  method DeleteTask(db: Db, taskId: nat, currentUserId: nat) returns (r: Option<Error>)
    requires db.Valid()
    modifies db`tasks
    ensures db.Valid()
    ensures r == DeleteCheck(old(db.tasks), taskId, currentUserId)
    ensures db.tasks == if r.None? then old(db.tasks) - {taskId} else old(db.tasks)
  {
    r := DeleteCheck(db.tasks, taskId, currentUserId);
    if r.None? {
      db.DeleteTask(taskId);
    }
  }

  /** Unlinking keeps every row under its id with its required columns set. */
  lemma UnlinkedValid(tasks: map<nat, Task>, nextTaskId: nat, categoryId: nat, now: Time)
    requires TasksValid(tasks, nextTaskId)
    ensures TasksValid(Unlinked(tasks, categoryId, now), nextTaskId)
  {
    var r := Unlinked(tasks, categoryId, now);
    forall k | k in r
      ensures r[k].id == Some(k) && k < nextTaskId && NonNullColumns(r[k])
    {
      assert NonNullColumns(tasks[k]);
    }
  }
}
