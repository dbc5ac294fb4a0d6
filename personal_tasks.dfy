/** The personal tasks page: its task list with sequence numbers, the
    category and search filter, and the state changes made by marking a
    task done, deleting a task, ticking a habit day, merging the users list
    and deleting a category. */
module PersonalTasks {
  import opened Wrappers
  import opened Text
  import opened Js
  import opened Seqs

  /** A task as the page holds it; `category` is `{ id, name }` or missing. */
  datatype PageTask = PageTask(
    id: JsValue, title: Option<string>, description: Option<string>,
    category: JsValue, status: JsValue, sequenceNumber: nat)

  datatype Habit = Habit(id: JsValue, completedDays: Option<seq<string>>)

  datatype PageUser = PageUser(id: JsValue, username: JsValue)

  /** What the users request produced: nothing, a single object or a list. */
  datatype UsersData = NoUsers | OneUser(user: PageUser) | UserList(users: seq<PageUser>)

  datatype CategoryItem = CategoryItem(id: JsValue, name: JsValue)

  const All: JsValue := Str("all")

  /** `tasks.map((task, index) => ({ ...task, sequenceNumber: index + 1 }))` */
  function Numbered(ts: seq<PageTask>): (r: seq<PageTask>)
    ensures |r| == |ts|
    ensures forall i :: 0 <= i < |r| ==> r[i].sequenceNumber == i + 1
    ensures forall i :: 0 <= i < |r| ==> r[i].(sequenceNumber := ts[i].sequenceNumber) == ts[i]
  {
    seq(|ts|, i requires 0 <= i < |ts| => ts[i].(sequenceNumber := i + 1))
  }

  /** `task.category?.id` */
  function CategoryId(t: PageTask): JsValue {
    if t.category.Obj? then t.category.id else Undefined
  }

  predicate CategoryMatch(t: PageTask, selected: JsValue) {
    StrictEquals(selected, All) || StrictEquals(CategoryId(t), selected)
  }

  /** `field?.toLowerCase().includes(query.toLowerCase())` */
  predicate FieldMatches(field: Option<string>, query: string) {
    field.Some? && Contains(Lower(field.value), Lower(query))
  }

  predicate SearchMatch(t: PageTask, query: string) {
    query == "" || FieldMatches(t.title, query) || FieldMatches(t.description, query)
  }

  /** The tasks shown, before numbering: those in the selected category (or
      any, for "all") whose title or description contains the query, ignoring
      case (any, for an empty query), in list order. */
  function FilteredTasks(tasks: seq<PageTask>, selected: JsValue, query: string): (r: seq<PageTask>)
    ensures forall t :: t in r <==> t in tasks && CategoryMatch(t, selected) && SearchMatch(t, query)
    ensures |r| <= |tasks|
  {
    Filter(tasks, (t: PageTask) => CategoryMatch(t, selected) && SearchMatch(t, query))
  }

  /** The table rows: the filtered tasks numbered 1..n. */
  function TasksWithSequence(tasks: seq<PageTask>, selected: JsValue, query: string): seq<PageTask> {
    Numbered(FilteredTasks(tasks, selected, query))
  }

  /** With "all" selected and no query every task is shown, in order. */
  lemma {:induction false} NoFilterShowsAll(tasks: seq<PageTask>)
    ensures FilteredTasks(tasks, All, "") == tasks
    decreases |tasks|
  {
    if tasks != [] {
      NoFilterShowsAll(tasks[1..]);
    }
  }

  /** The list after a delete: every task with another id, renumbered. */
  function WithoutTask(tasks: seq<PageTask>, taskId: JsValue): (r: seq<PageTask>)
    ensures forall i :: 0 <= i < |r| ==> !StrictEquals(r[i].id, taskId) && r[i].sequenceNumber == i + 1
    ensures forall t :: t in tasks && !StrictEquals(t.id, taskId) ==> t.(sequenceNumber := 0) in Unnumbered(r)
    ensures |r| <= |tasks|
    ensures Unnumbered(r) == Filter(Unnumbered(tasks), (t: PageTask) => !StrictEquals(t.id, taskId))
  {
    var keep := (t: PageTask) => !StrictEquals(t.id, taskId);
    var kept := Filter(tasks, keep);
    var r := Numbered(kept);
    UnnumberedNumbered(kept);
    UnnumberedFilter(tasks, keep);
    assert forall t :: t in kept ==> t.(sequenceNumber := 0) in Unnumbered(r) by {
      forall t | t in kept ensures t.(sequenceNumber := 0) in Unnumbered(r) {
        var i :| 0 <= i < |kept| && kept[i] == t;
        assert Unnumbered(r)[i] == t.(sequenceNumber := 0);
      }
    }
    r
  }

  /** The tasks with their sequence numbers cleared, to compare contents. */
  function Unnumbered(ts: seq<PageTask>): (r: seq<PageTask>)
    ensures |r| == |ts| && forall i :: 0 <= i < |ts| ==> r[i] == ts[i].(sequenceNumber := 0)
  {
    seq(|ts|, i requires 0 <= i < |ts| => ts[i].(sequenceNumber := 0))
  }

  /** Renumbering changes nothing but the sequence numbers. */
  lemma UnnumberedNumbered(ts: seq<PageTask>)
    ensures Unnumbered(Numbered(ts)) == Unnumbered(ts)
  {
    assert forall i :: 0 <= i < |ts| ==> Unnumbered(Numbered(ts))[i] == Unnumbered(ts)[i];
  }

  lemma UnnumberedCons(x: PageTask, xs: seq<PageTask>)
    ensures Unnumbered([x] + xs) == [x.(sequenceNumber := 0)] + Unnumbered(xs)
  {
    var l := Unnumbered([x] + xs);
    var m := [x.(sequenceNumber := 0)] + Unnumbered(xs);
    forall i | 0 <= i < |l|
      ensures l[i] == m[i]
    {
      if i > 0 {
        assert ([x] + xs)[i] == xs[i - 1];
      }
    }
  }

  /** A filter that ignores sequence numbers commutes with clearing them. */
  lemma {:induction false} UnnumberedFilter(ts: seq<PageTask>, p: PageTask -> bool)
    requires forall t: PageTask :: p(t.(sequenceNumber := 0)) == p(t)
    ensures Unnumbered(Filter(ts, p)) == Filter(Unnumbered(ts), p)
    decreases |ts|
  {
    if ts != [] {
      var u := Unnumbered(ts);
      assert u[1..] == Unnumbered(ts[1..]);
      UnnumberedFilter(ts[1..], p);
      if p(ts[0]) {
        assert Filter(u, p) == [u[0]] + Filter(u[1..], p);
        UnnumberedCons(ts[0], Filter(ts[1..], p));
      } else {
        assert Filter(u, p) == Filter(u[1..], p);
      }
    }
  }

  /** The status name the toggle sends. */
  function ToggledStatus(completed: bool): string {
    if completed then "COMPLETED" else "PENDING"
  }

  /** The list after a status change: the tasks with that id get the new
      status, every other task is unchanged. */
  function WithStatus(tasks: seq<PageTask>, taskId: JsValue, status: string): (r: seq<PageTask>)
    ensures |r| == |tasks|
    ensures forall i :: 0 <= i < |tasks| && StrictEquals(tasks[i].id, taskId) ==>
      r[i] == tasks[i].(status := Str(status))
    ensures forall i :: 0 <= i < |tasks| && !StrictEquals(tasks[i].id, taskId) ==> r[i] == tasks[i]
  {
    seq(|tasks|, i requires 0 <= i < |tasks| => if StrictEquals(tasks[i].id, taskId) then tasks[i].(status := Str(status)) else tasks[i])
  }

  /** `habit.completedDays` after ticking (`completed`) or unticking a day:
      a ticked day is appended unless present, an unticked day is removed
      wherever it occurs. */
  function ToggledDays(days: seq<string>, day: string, completed: bool): (r: seq<string>)
    ensures completed ==> day in r && multiset(r) == multiset(days) + (if day in days then multiset{} else multiset{day})
    ensures !completed ==> day !in r && forall d :: d in days && d != day ==> d in r
    ensures forall d :: d in r ==> d in days || d == day
  {
    if completed then (if day in days then days else days + [day])
    else
      UntickKeepsOthers(days, day);
      Filter(days, (d: string) => d != day)
  }

  /** The toggle as the page runs it: a copy of the days, then `push` or a reassignment. */
  method ToggleDay(days: seq<string>, day: string, completed: bool) returns (r: seq<string>)
    ensures r == ToggledDays(days, day, completed)
  {
    r := days;
    if completed && day !in r {
      r := r + [day];
    } else if !completed {
      r := Filter(r, (d: string) => d != day);
    }
  }

  predicate NoDuplicates(days: seq<string>) {
    forall i, j :: 0 <= i < j < |days| ==> days[i] != days[j]
  }

  /** Ticking a day never introduces a duplicate; unticking keeps every other day. */
  lemma {:induction false} UntickKeepsOthers(days: seq<string>, day: string)
    ensures forall d :: d in days && d != day ==> d in Filter(days, (e: string) => e != day)
    ensures NoDuplicates(days) ==> NoDuplicates(Filter(days, (e: string) => e != day))
    decreases |days|
  {
    if days != [] {
      UntickKeepsOthers(days[1..], day);
      var rest := Filter(days[1..], (e: string) => e != day);
      if NoDuplicates(days) {
        assert NoDuplicates(days[1..]) by {
          forall i, j | 0 <= i < j < |days[1..]| ensures days[1..][i] != days[1..][j] {
            assert days[1..][i] == days[i + 1] && days[1..][j] == days[j + 1];
          }
        }
        if days[0] != day {
          assert days[0] !in rest;
          assert Filter(days, (e: string) => e != day) == [days[0]] + rest;
        }
      }
    }
  }

  /** Toggling a day never introduces a duplicate. */
  lemma ToggleKeepsNoDuplicates(days: seq<string>, day: string, completed: bool)
    requires NoDuplicates(days)
    ensures NoDuplicates(ToggledDays(days, day, completed))
  {
    if !completed {
      UntickKeepsOthers(days, day);
    }
  }

  /** The users list: a single object is wrapped in a list, and the current
      user is put first exactly when no entry has its id; without data it is
      just the current user. */
  method MergeUsers(data: UsersData, currentUser: PageUser) returns (users: seq<PageUser>)
    ensures data.NoUsers? ==> users == [currentUser]
    ensures data.OneUser? && StrictEquals(data.user.id, currentUser.id) ==> users == [data.user]
    ensures data.OneUser? && !StrictEquals(data.user.id, currentUser.id) ==> users == [currentUser, data.user]
    ensures data.UserList? && (exists i :: 0 <= i < |data.users| && StrictEquals(data.users[i].id, currentUser.id)) ==>
      users == data.users
    ensures data.UserList? && !(exists i :: 0 <= i < |data.users| && StrictEquals(data.users[i].id, currentUser.id)) ==>
      users == [currentUser] + data.users
  {
    if data.NoUsers? {
      return [currentUser];
    }
    var processed := if data.OneUser? then [data.user] else data.users;
    var exists_ := false;
    var i := 0;
    while i < |processed|
      invariant 0 <= i <= |processed|
      invariant exists_ <==> exists j :: 0 <= j < i && StrictEquals(processed[j].id, currentUser.id)
    {
      if StrictEquals(processed[i].id, currentUser.id) {
        exists_ := true;
      }
      i := i + 1;
    }
    if data.OneUser? {
      assert processed[0] == data.user;
    }
    if !exists_ {
      processed := [currentUser] + processed;
    }
    users := processed;
  }

  /** The page state that the handlers below change. */
  class Page {
    const currentUser: Option<PageUser>
    var tasks: seq<PageTask>
    var habits: seq<Habit>
    var categories: seq<CategoryItem>
    var selectedCategory: JsValue
    var users: seq<PageUser>
    /** The status-change requests sent, each as its path and query text. */
    var sent: seq<string>

    constructor (currentUser: Option<PageUser>)
      ensures this.currentUser == currentUser
      ensures tasks == [] && habits == [] && categories == [] && users == [] && sent == []
      ensures selectedCategory == All
    {
      this.currentUser := currentUser;
      tasks := [];
      habits := [];
      categories := [];
      selectedCategory := All;
      users := [];
      sent := [];
    }

    /** Shows the fetched tasks, numbered; a reply that is not an array shows none. */
    method ShowTasks(tasksData: Option<seq<PageTask>>)
      modifies this`tasks
      ensures tasks == Numbered(tasksData.GetOr([]))
    {
      tasks := Numbered(tasksData.GetOr([]));
    }

    /** `handleTaskStatusChange`: nothing happens when no task has the id;
        otherwise the status request is sent and, once it succeeds, the
        task shows the new status. */
    method ChangeStatus(taskId: JsValue, completed: bool, reply: Result<(), string>) returns (requested: bool)
      requires currentUser.Some?
      modifies this`tasks, this`sent
      ensures requested <==> exists i :: 0 <= i < |old(tasks)| && StrictEquals(old(tasks)[i].id, taskId)
      ensures requested ==> sent == old(sent) + [StatusRequest(taskId, completed)]
      ensures !requested ==> sent == old(sent)
      ensures requested && reply.Success? ==> tasks == WithStatus(old(tasks), taskId, ToggledStatus(completed))
      ensures !requested || reply.Failure? ==> tasks == old(tasks)
    {
      var found := FirstIndex(tasks, (t: PageTask) => StrictEquals(t.id, taskId));
      if found.None? {
        return false;
      }
      sent := sent + [StatusRequest(taskId, completed)];
      if reply.Success? {
        tasks := WithStatus(tasks, taskId, ToggledStatus(completed));
      }
      return true;
    }

    function StatusRequest(taskId: JsValue, completed: bool): string
      reads this
      requires currentUser.Some?
    {
      "/api/my-tasks/" + TemplateText(taskId) + "/status?status=" + ToggledStatus(completed)
        + "&currentUserId=" + TemplateText(currentUser.value.id)
    }

    /** `handleDeleteTask`: refused without a user id; otherwise, once the
        delete succeeds, every task with that id is gone and the rest are
        renumbered. */
    method DeleteTask(taskId: JsValue, reply: Result<(), string>)
      modifies this`tasks
      ensures currentUser.None? || !Truthy(currentUser.value.id) || reply.Failure? ==> tasks == old(tasks)
      ensures currentUser.Some? && Truthy(currentUser.value.id) && reply.Success? ==>
        tasks == WithoutTask(old(tasks), taskId)
    {
      if currentUser.None? || !Truthy(currentUser.value.id) {
        return;
      }
      if reply.Success? {
        tasks := WithoutTask(tasks, taskId);
      }
    }

    /** `handleHabitProgressUpdate`: nothing happens for an unknown habit or
        when a request fails; otherwise the first habit with that id gets the
        toggled days. */
    method UpdateHabitProgress(habitId: JsValue, day: string, completed: bool, progressReply: Result<(), string>, markReply: Result<(), string>)
      modifies this`habits
      ensures (forall i :: 0 <= i < |old(habits)| ==> !StrictEquals(old(habits)[i].id, habitId)) ==> habits == old(habits)
      ensures progressReply.Failure? || (completed && markReply.Failure?) ==> habits == old(habits)
      ensures |habits| == |old(habits)|
      ensures forall i :: 0 <= i < |habits| && !StrictEquals(old(habits)[i].id, habitId) ==> habits[i] == old(habits)[i]
      ensures progressReply.Success? && (!completed || markReply.Success?) ==>
        forall i :: 0 <= i < |habits| && StrictEquals(old(habits)[i].id, habitId) ==>
          exists k :: 0 <= k < |old(habits)| && StrictEquals(old(habits)[k].id, habitId) &&
            (forall j :: 0 <= j < k ==> !StrictEquals(old(habits)[j].id, habitId)) &&
            habits[i] == old(habits)[i].(completedDays := Some(ToggledDays(old(habits)[k].completedDays.GetOr([]), day, completed)))
    {
      var found := FirstIndex(habits, (h: Habit) => StrictEquals(h.id, habitId));
      if found.None? {
        return;
      }
      var days := ToggleDay(habits[found.value].completedDays.GetOr([]), day, completed);
      if progressReply.Failure? || (completed && markReply.Failure?) {
        return;
      }
      var hs := habits;
      habits := seq(|hs|, i requires 0 <= i < |hs| =>
        if StrictEquals(hs[i].id, habitId) then hs[i].(completedDays := Some(days)) else hs[i]);
    }

    /** Sets the users list from the fetched data. */
    method ShowUsers(data: UsersData)
      requires currentUser.Some?
      modifies this`users
      ensures data.UserList? ==>
        (users == [currentUser.value] + data.users <==>
          !exists i :: 0 <= i < |data.users| && StrictEquals(data.users[i].id, currentUser.value.id))
      ensures data.UserList? ==> users == data.users || users == [currentUser.value] + data.users
      ensures data.NoUsers? ==> users == [currentUser.value]
      ensures data.OneUser? ==>
        users == if StrictEquals(data.user.id, currentUser.value.id) then [data.user] else [currentUser.value, data.user]
    {
      users := MergeUsers(data, currentUser.value);
    }

    /** `handleDeleteCategory`: refused without a user id; once the delete
        succeeds the category leaves the list and, if it was selected, the
        selection goes back to "all". */
    method DeleteCategory(categoryId: JsValue, reply: Result<(), string>)
      modifies this`categories, this`selectedCategory
      ensures currentUser.None? || !Truthy(currentUser.value.id) || reply.Failure? ==>
        categories == old(categories) && selectedCategory == old(selectedCategory)
      ensures currentUser.Some? && Truthy(currentUser.value.id) && reply.Success? ==>
        categories == Filter(old(categories), (c: CategoryItem) => !StrictEquals(c.id, categoryId))
        && selectedCategory == (if StrictEquals(old(selectedCategory), categoryId) then All else old(selectedCategory))
    {
      if currentUser.None? || !Truthy(currentUser.value.id) || reply.Failure? {
        return;
      }
      categories := Filter(categories, (c: CategoryItem) => !StrictEquals(c.id, categoryId));
      if StrictEquals(selectedCategory, categoryId) {
        selectedCategory := All;
      }
    }
  }
}
