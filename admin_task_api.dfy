/** The request shaping of the administrator's task API. It reads `status`
    and `priority` from the form data (not `statusId`/`priorityId`). */
module AdminTaskApi {
  import opened Wrappers
  import opened Js
  import opened TaskApi

  /** `id ? { id } : given ? given : undefined` */
  function IdOrObject(id: JsValue, given: JsValue): (r: JsValue)
    ensures Truthy(id) ==> r == Ref(id)
    ensures !Truthy(id) && Truthy(given) ==> r == given
    ensures !Truthy(id) && !Truthy(given) ==> r == Undefined
  {
    if Truthy(id) then Ref(id) else if Truthy(given) then given else Undefined
  }

  /** `updateTaskAsAdmin`: the body put to `/api/admin/tasks/{taskId}`. */
  function AdminUpdateBody(d: TaskData): (r: TaskBody)
    ensures r.status == d.status && r.priority == d.priority
    ensures r.dueDate == Or(d.dueDate, d.dueAt)
    ensures r.userId == d.userId && r.user == IdOrObject(d.userId, d.user)
    ensures r.categoryId == d.categoryId && r.category == IdOrObject(d.categoryId, d.category)
    ensures r.id == Undefined && r.title == d.title && r.description == d.description
  {
    TaskBody(Undefined, d.title, d.description, d.status, d.priority, Or(d.dueDate, d.dueAt),
             d.userId, IdOrObject(d.userId, d.user), d.categoryId, IdOrObject(d.categoryId, d.category))
  }

  /** `createTaskForUser`: the body posted to `/api/admin/tasks/user/{userId}`;
      the target user is in the path and not in the body, and the category
      comes from `categoryId` alone. */
  function AdminCreateBody(d: TaskData): (r: TaskBody)
    ensures r.status == d.status && r.priority == d.priority
    ensures r.dueDate == Or(d.dueDate, d.dueAt)
    ensures r.user == Undefined && r.userId == Undefined && r.categoryId == Undefined
    ensures r.category == (if Truthy(d.categoryId) then Ref(d.categoryId) else Undefined)
    ensures r.id == Undefined && r.title == d.title && r.description == d.description
  {
    TaskBody(Undefined, d.title, d.description, d.status, d.priority, Or(d.dueDate, d.dueAt),
             Undefined, Undefined, Undefined, if Truthy(d.categoryId) then Ref(d.categoryId) else Undefined)
  }

  function AdminTaskUrl(taskId: JsValue): string {
    "/api/admin/tasks/" + TemplateText(taskId)
  }

  function CreateForUserUrl(userId: JsValue): string {
    "/api/admin/tasks/user/" + TemplateText(userId)
  }

  /** The two admin builders agree on everything but the user and category
      fields: creation never carries a user, and ignores a category object. */
  lemma AdminBuildersAgree(d: TaskData)
    ensures AdminCreateBody(d).(user := Undefined, userId := Undefined, categoryId := Undefined, category := Undefined)
         == AdminUpdateBody(d).(user := Undefined, userId := Undefined, categoryId := Undefined, category := Undefined)
    ensures !Truthy(d.categoryId) && Truthy(d.category) ==>
      AdminUpdateBody(d).category == d.category && AdminCreateBody(d).category == Undefined
  {
  }
}
