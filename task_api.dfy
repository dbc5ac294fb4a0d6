/** The request shaping of the client's task APIs: the form data a page hands
    over, the JSON bodies built from it and the URLs requested. A body field
    that is `undefined` is left out of the JSON. */
module TaskApi {
  import opened Wrappers
  import opened Text
  import opened Js

  /** The form data the pages pass in. */
  datatype TaskData = TaskData(
    title: JsValue, description: JsValue,
    statusId: JsValue, priorityId: JsValue, status: JsValue, priority: JsValue,
    dueDate: JsValue, dueAt: JsValue,
    categoryId: JsValue, category: JsValue,
    userId: JsValue, user: JsValue)

  /** A JSON request body for a task. */
  datatype TaskBody = TaskBody(
    id: JsValue, title: JsValue, description: JsValue, status: JsValue, priority: JsValue,
    dueDate: JsValue, userId: JsValue, user: JsValue, categoryId: JsValue, category: JsValue)

  /** `{ id: v }` */
  function Ref(v: JsValue): JsValue {
    Obj(v, None)
  }

  /** `taskData.categoryId ? { id: taskData.categoryId } : null` */
  function CategoryRefOrNull(d: TaskData): (r: JsValue)
    ensures Truthy(d.categoryId) ==> r == Ref(d.categoryId)
    ensures !Truthy(d.categoryId) ==> r == Null
  {
    if Truthy(d.categoryId) then Ref(d.categoryId) else Null
  }

  /** `createGeneralTask`: the body posted to `/api/tasks`. */
  function GeneralCreateBody(d: TaskData): (r: TaskBody)
    ensures r.status == d.statusId && r.priority == d.priorityId
    ensures r.dueDate == Or(d.dueDate, d.dueAt)
    ensures r.categoryId == d.categoryId && r.category == CategoryRefOrNull(d)
    ensures r.id == Undefined && r.user == Undefined && r.userId == Undefined
    ensures r.title == d.title && r.description == d.description
  {
    TaskBody(Undefined, d.title, d.description, d.statusId, d.priorityId,
             Or(d.dueDate, d.dueAt), Undefined, Undefined, d.categoryId, CategoryRefOrNull(d))
  }

  /** `updateGeneralTask`: the create body, plus `id = taskId`, put to `/api/tasks/{taskId}`. */
  function GeneralUpdateBody(taskId: JsValue, d: TaskData): (r: TaskBody)
    ensures r.id == taskId
    ensures r.(id := Undefined) == GeneralCreateBody(d)
  {
    GeneralCreateBody(d).(id := taskId)
  }

  function GeneralTaskUrl(taskId: JsValue): string {
    "/api/tasks/" + TemplateText(taskId)
  }

  /** `user` in the personal bodies: set only for a truthy `userId` other than the caller's. */
  function AssigneeOrNull(currentUserId: JsValue, d: TaskData): (r: JsValue)
    ensures r != Null <==> Truthy(d.userId) && !StrictEquals(d.userId, currentUserId)
    ensures r != Null ==> r == Ref(d.userId)
  {
    if Truthy(d.userId) && !StrictEquals(d.userId, currentUserId) then Ref(d.userId) else Null
  }

  /** `createTask` and `updateTask`: the body sent to `/api/my-tasks`. The
      due date comes from `dueAt` alone. */
  function PersonalBody(currentUserId: JsValue, d: TaskData): (r: TaskBody)
    ensures r.status == d.statusId && r.priority == d.priorityId
    ensures r.dueDate == d.dueAt
    ensures r.category == CategoryRefOrNull(d) && r.categoryId == Undefined
    ensures r.user == AssigneeOrNull(currentUserId, d)
    ensures r.id == Undefined && r.userId == Undefined
    ensures r.title == d.title && r.description == d.description
  {
    TaskBody(Undefined, d.title, d.description, d.statusId, d.priorityId, d.dueAt,
             Undefined, AssigneeOrNull(currentUserId, d), Undefined, CategoryRefOrNull(d))
  }

  /** The two builders differ in where the due date comes from: a form
      that fills only `dueDate` loses it on the personal endpoints. */
  lemma PersonalBodyIgnoresDueDate(currentUserId: JsValue, d: TaskData)
    requires Truthy(d.dueDate) && d.dueAt == Undefined
    ensures GeneralCreateBody(d).dueDate == d.dueDate
    ensures PersonalBody(currentUserId, d).dueDate == Undefined
  {
  }

  const MyTasksPath: string := "/api/my-tasks"

  function CreateTaskUrl(currentUserId: JsValue): string {
    MyTasksPath + "?currentUserId=" + TemplateText(currentUserId)
  }

  function TaskUrl(taskId: JsValue, currentUserId: JsValue): string {
    MyTasksPath + "/" + TemplateText(taskId) + "?currentUserId=" + TemplateText(currentUserId)
  }

  function TaskStatusUrl(taskId: JsValue, status: JsValue, currentUserId: JsValue): string {
    MyTasksPath + "/" + TemplateText(taskId) + "/status?status=" + TemplateText(status)
      + "&currentUserId=" + TemplateText(currentUserId)
  }

  /** `getMyTasks`: no request for a falsy user id; otherwise the caller's
      URL, with `&categoryId=C` appended exactly when C is truthy and not "all". */
  function MyTasksUrl(userId: JsValue, categoryId: JsValue): (r: Option<string>)
    ensures r.None? <==> !Truthy(userId)
    ensures r.Some? ==> StartsWith(r.value, CreateTaskUrl(userId))
    ensures r.Some? ==> (|r.value| > |CreateTaskUrl(userId)| <==> Truthy(categoryId) && !StrictEquals(categoryId, Str("all")))
    ensures r.Some? && |r.value| > |CreateTaskUrl(userId)| ==>
      r.value[|CreateTaskUrl(userId)|..] == "&categoryId=" + TemplateText(categoryId)
  {
    if !Truthy(userId) then None
    else
      var url := CreateTaskUrl(userId);
      if Truthy(categoryId) && !StrictEquals(categoryId, Str("all")) then
        var tail := "&categoryId=" + TemplateText(categoryId);
        assert |tail| > 0;
        assert (url + tail)[..|url|] == url && (url + tail)[|url|..] == tail;
        Some(url + tail)
      else
        assert url[..|url|] == url;
        Some(url)
  }

  /** `getMyTasks` as a whole: `[]` without a request for a falsy user id,
      otherwise the reply to the request. */
  function MyTasks<T>(userId: JsValue, categoryId: JsValue, reply: Result<seq<T>, string>): (r: Result<seq<T>, string>)
    ensures !Truthy(userId) ==> r == Success([])
    ensures Truthy(userId) ==> r == reply
  {
    if MyTasksUrl(userId, categoryId).None? then Success([]) else reply
  }

  /** `deleteTask` (and the admin `deleteTaskAsAdmin`) resolve to `true` once the request succeeds. */
  function DeleteResult(reply: Result<(), string>): (r: Result<bool, string>)
    ensures reply.Success? ==> r == Success(true)
    ensures reply.Failure? ==> r == Failure(reply.error)
  {
    if reply.Success? then Success(true) else Failure(reply.error)
  }
}
