/** The colours of a task card's priority and status tags, and whether the
    card is marked overdue. */
module TaskItem {
  import opened Wrappers
  import opened Text
  import opened Js

  /** The lower-cased name a tag is chosen by: an object's truthy `name`, a
      string itself, and "default" for anything else. */
  function TagName(v: JsValue): string {
    match v
    case Obj(_, name) => if name.Some? && name.value != "" then Lower(name.value) else "default"
    case Str(s) => Lower(s)
    case _ => "default"
  }

  /** `getPriorityColor` */
  function PriorityColor(priority: JsValue): (r: string)
    ensures priority.Num? ==> r == "default"
    ensures !priority.Num? ==>
      (r == "red" <==> TagName(priority) in {"extreme", "high"}) &&
      (r == "blue" <==> TagName(priority) in {"moderate", "medium"}) &&
      (r == "green" <==> TagName(priority) == "low")
    ensures r in {"red", "blue", "green", "default"}
  {
    if priority.Num? then "default"
    else
      match TagName(priority)
      case "extreme" => "red"
      case "high" => "red"
      case "moderate" => "blue"
      case "medium" => "blue"
      case "low" => "green"
      case _ => "default"
  }

  /** `getStatusColor` */
  function StatusColor(status: JsValue): (r: string)
    ensures status.Num? ==> r == "default"
    ensures !status.Num? ==>
      (r == "success" <==> TagName(status) in {"completed", "done"}) &&
      (r == "processing" <==> TagName(status) == "in progress") &&
      (r == "error" <==> TagName(status) in {"not started", "todo"})
    ensures r in {"success", "processing", "error", "default"}
  {
    if status.Num? then "default"
    else
      match TagName(status)
      case "completed" => "success"
      case "done" => "success"
      case "in progress" => "processing"
      case "not started" => "error"
      case "todo" => "error"
      case _ => "default"
  }

  /** The tag colours ignore case, and an object with a name is coloured as
      that name would be. */
  lemma ColoursIgnoreCase(s: string, id: JsValue)
    ensures PriorityColor(Str(Upper(s))) == PriorityColor(Str(s))
    ensures StatusColor(Str(Upper(s))) == StatusColor(Str(s))
    ensures s != "" ==> PriorityColor(Obj(id, Some(s))) == PriorityColor(Str(s))
    ensures s != "" ==> StatusColor(Obj(id, Some(s))) == StatusColor(Str(s))
  {
    LowerOfUpper(s);
  }

  /** The name `isOverdue` tests for completion: a truthy object name or a
      string, lower-cased; "" otherwise. */
  function OverdueStatusName(status: JsValue): string {
    match status
    case Obj(_, name) => if name.Some? && name.value != "" then Lower(name.value) else ""
    case Str(s) => Lower(s)
    case _ => ""
  }

  /** `isOverdue`, with dates as day numbers: never without a due date, never
      for a completed or done task, and otherwise exactly when the due day
      is before today. */
  function IsOverdue(dueDay: Option<nat>, status: JsValue, today: nat): (r: bool)
    ensures dueDay.None? ==> !r
    ensures Truthy(status) && OverdueStatusName(status) in {"completed", "done"} ==> !r
    ensures dueDay.Some? && !(Truthy(status) && OverdueStatusName(status) in {"completed", "done"}) ==>
      (r <==> dueDay.value < today)
  {
    if dueDay.None? then false
    else if Truthy(status) && OverdueStatusName(status) in {"completed", "done"} then false
    else dueDay.value < today
  }

  /** A card with the success status colour is never overdue. */
  lemma SuccessIsNeverOverdue(dueDay: Option<nat>, status: JsValue, today: nat)
    requires StatusColor(status) == "success"
    ensures !IsOverdue(dueDay, status, today)
  {
    assert TagName(status) in {"completed", "done"};
    assert OverdueStatusName(status) == TagName(status);
  }
}
