/** The `/api/tasks` controller: how each endpoint finds the caller and which
    user id and admin flag it hands to the task service. */
module TaskController {
  import opened Wrappers
  import opened Entities
  import opened TaskLifecycle
  import opened Database
  import TaskService

  const UserNotFound: string := "User not found"
  const AdminAuthority: string := "ROLE_ADMIN"

  /** `isAdmin(authentication)`: some granted authority is exactly "ROLE_ADMIN". */
  function IsAdmin(authorities: seq<string>): (r: bool)
    ensures r <==> exists i :: 0 <= i < |authorities| && authorities[i] == AdminAuthority
    decreases |authorities|
  {
    if authorities == [] then false
    else authorities[0] == AdminAuthority || IsAdmin(authorities[1..])
  }

  /** Every user ahead of position `i` has a username. */
  predicate UsernamesBefore(all: seq<User>, i: nat)
    requires i <= |all|
  {
    forall j :: 0 <= j < i ==> all[j].username.Some?
  }

  /** No user ahead of position `i` has the username `username`. */
  predicate NoMatchBefore(all: seq<User>, username: string, i: nat)
    requires i <= |all|
  {
    forall j :: 0 <= j < i ==> all[j].username != Some(username)
  }

  /** `getCurrentUser()`: the first user, in table order, whose username is
      the authenticated name. A user without a username met before the match
      throws a NullPointerException. */
  function CurrentUser(all: seq<User>, username: string): (r: Result<User, Error>)
    ensures r.Success? ==> r.value.username == Some(username)
    ensures r.Success? ==>
      exists i :: 0 <= i < |all| && all[i] == r.value
        && (forall j :: 0 <= j < i ==> all[j].username.Some? && all[j].username != Some(username))
    ensures r == Failure(Runtime(UserNotFound)) <==> forall i :: 0 <= i < |all| ==> all[i].username.Some? && all[i].username != Some(username)
    decreases |all|
  {
    if all == [] then Failure(Runtime(UserNotFound))
    else if all[0].username.None? then Failure(NullPointer)
    else if all[0].username == Some(username) then Success(all[0])
    else CurrentUser(all[1..], username)
  }

  /** Past a first user who has a username other than `username`, the
      positions of the rest shift down by one. */
  lemma ShiftPastOther(all: seq<User>, username: string, i: nat)
    requires all != [] && all[0].username.Some? && all[0].username != Some(username)
    requires 1 <= i <= |all|
    ensures i < |all| ==> all[i] == all[1..][i - 1]
    ensures UsernamesBefore(all, i) <==> UsernamesBefore(all[1..], i - 1)
    ensures NoMatchBefore(all, username, i) <==> NoMatchBefore(all[1..], username, i - 1)
  {
    assert forall j :: 1 <= j < i ==> all[j] == all[1..][j - 1];
  }

  /** A user with the name is found when every user ahead of them has a
      username, whatever usernames those are. */
  lemma {:induction false} CurrentUserFindsReachable(all: seq<User>, username: string, i: nat)
    requires i < |all| && all[i].username == Some(username) && UsernamesBefore(all, i)
    ensures CurrentUser(all, username).Success?
    decreases i
  {
    if all[0].username != Some(username) {
      ShiftPastOther(all, username, i);
      CurrentUserFindsReachable(all[1..], username, i - 1);
    }
  }

  /** A user without a username ahead of every user with the name makes the
      lookup throw a NullPointerException. */
  lemma {:induction false} CurrentUserThrowsOnNull(all: seq<User>, username: string, i: nat)
    requires i < |all| && all[i].username.None? && NoMatchBefore(all, username, i)
    ensures CurrentUser(all, username) == Failure(NullPointer)
    decreases i
  {
    if all[0].username.Some? {
      ShiftPastOther(all, username, i);
      CurrentUserThrowsOnNull(all[1..], username, i - 1);
    }
  }

  /** An endpoint of the controller, with its path and query parameters. */
  datatype Endpoint =
    | Post(task: Task)
    | Put(taskId: nat, request: TaskService.UpdateRequest)
    | Patch(taskId: nat, status: Status)
    | Delete(taskId: nat)
    | GetAll
    | GetByStatus(status: Status)

  /** The service call an endpoint makes, with the arguments it passes. */
  datatype ServiceCall =
    | CreateCall(userId: nat, task: Task, isAdmin: bool)
    | UpdateCall(taskId: nat, request: TaskService.UpdateRequest, currentUserId: Option<nat>, isAdmin: bool)
    | StatusCall(taskId: nat, status: Status, currentUserId: Option<nat>, isAdmin: bool)
    | DeleteCall(taskId: nat, currentUserId: Option<nat>, isAdmin: bool)
    | ListCall(userId: nat)
    | ListByStatusCall(userId: nat, status: Status)

  /** The controller as written: every endpoint but PUT looks the caller up
      first; PUT passes no user id and `isAdmin = false`. */
  function Dispatch(e: Endpoint, all: seq<User>, username: string, authorities: seq<string>): (r: Result<ServiceCall, Error>)
    ensures e.Put? ==> r == Success(UpdateCall(e.taskId, e.request, None, false))
    ensures !e.Put? && CurrentUser(all, username).Failure? ==> r == Failure(CurrentUser(all, username).error)
    ensures e.Post? && r.Success? ==> r.value == CreateCall(CurrentUser(all, username).value.id, e.task, false)
    ensures e.Patch? && r.Success? ==>
      r.value == StatusCall(e.taskId, e.status, Some(CurrentUser(all, username).value.id), IsAdmin(authorities))
    ensures e.Delete? && r.Success? ==>
      r.value == DeleteCall(e.taskId, Some(CurrentUser(all, username).value.id), IsAdmin(authorities))
    ensures !e.Put? ==> (r.Success? <==> CurrentUser(all, username).Success?)
  {
    if e.Put? then Success(UpdateCall(e.taskId, e.request, None, false))
    else
      var current := CurrentUser(all, username);
      if current.Failure? then Failure(current.error)
      else
        var id := current.value.id;
        match e
        case Post(task) => Success(CreateCall(id, task, false))
        case Patch(taskId, status) => Success(StatusCall(taskId, status, Some(id), IsAdmin(authorities)))
        case Delete(taskId) => Success(DeleteCall(taskId, Some(id), IsAdmin(authorities)))
        case GetAll => Success(ListCall(id))
        case GetByStatus(status) => Success(ListByStatusCall(id, status))
  }

  /** As written, PUT can never update anything: with no caller id and no
      admin flag the ownership check rejects every stored task. */
  lemma PutNeverUpdates(e: Endpoint, all: seq<User>, username: string, authorities: seq<string>,
                        tasks: map<nat, Task>, nextTaskId: nat, users: map<nat, User>,
                        categories: map<nat, Category>, now: Time)
    requires e.Put? && TasksValid(tasks, nextTaskId)
    ensures var call := Dispatch(e, all, username, authorities).value;
      var plan := TaskService.UpdatePlan(tasks, users, categories, call.taskId, call.request, call.currentUserId, call.isAdmin, now);
      && plan.Failure?
      && (e.taskId in tasks ==> plan.error == Security(TaskService.NotAllowedToUpdate))
  {
    if e.taskId in tasks {
      assert NonNullColumns(tasks[e.taskId]);
    }
  }

  /** PUT as evidently intended, the same way PATCH and DELETE are wired:
      the caller is looked up and its id and admin flag are passed. */
  function DispatchCorrected(e: Endpoint, all: seq<User>, username: string, authorities: seq<string>): (r: Result<ServiceCall, Error>)
    ensures !e.Put? ==> r == Dispatch(e, all, username, authorities)
    ensures e.Put? && CurrentUser(all, username).Failure? ==> r == Failure(CurrentUser(all, username).error)
    ensures e.Put? && r.Success? ==>
      r.value == UpdateCall(e.taskId, e.request, Some(CurrentUser(all, username).value.id), IsAdmin(authorities))
  {
    if !e.Put? then Dispatch(e, all, username, authorities)
    else
      var current := CurrentUser(all, username);
      if current.Failure? then Failure(current.error)
      else Success(UpdateCall(e.taskId, e.request, Some(current.value.id), IsAdmin(authorities)))
  }

  /** With the corrected wiring the owner of a task, and an administrator,
      get past the ownership check of an update. */
  lemma CorrectedPutLetsOwnerThrough(e: Endpoint, all: seq<User>, username: string, authorities: seq<string>,
                                     tasks: map<nat, Task>, users: map<nat, User>,
                                     categories: map<nat, Category>, now: Time)
    requires e.Put? && e.taskId in tasks && CurrentUser(all, username).Success?
    requires OwnedBy(tasks[e.taskId], Some(CurrentUser(all, username).value.id)) || IsAdmin(authorities)
    ensures var call := DispatchCorrected(e, all, username, authorities).value;
      TaskService.Authorize(tasks[call.taskId], call.currentUserId, call.isAdmin, TaskService.NotAllowedToUpdate).None?
  {
  }
}
