# TodoApp core, modelled in Dafny

TodoApp is a task manager with two halves. BE_Todo is a Spring back end that
stores tasks, task categories, roles and users. FE_Todo is a React client that
shows them. This project models the logic of both halves and proves what the
code promises about it.

**Client session and token refresh**
- `AxiosInstance` is the shared HTTP client. The token interceptor is a
  function. The response-error interceptor is the class `Client`, which holds
  the refresh gate, the queue of waiting requests, the default header and the
  redirect flag. Its two event methods are one failed request and one
  settled refresh call.
- `LocalStorage` is the browser's key/value store as a class.
- `AuthService` holds login, logout, the authentication check and token
  refresh over that store.
- `AuthContext.AuthProvider` holds the user, role and loading state of the
  React context.
- `RouteGuards` holds the two route guards as pure decision functions.
- `SessionScenarios` drives the client through a few event sequences.

**Back end**
- `Entities` defines the table rows as values.
- `TaskLifecycle` holds the non-null columns and the `prePersist`/`preUpdate`
  hooks, plus a `TaskEntity` class whose hooks update fields in place.
- `Database` is the class `Db`, with one map per table. Its repository
  `save` applies the hooks and the non-null check.
- The service modules are imperative methods that change `Db`:
  - `TaskService`;
  - `PersonalTaskService`;
  - `RoleService`;
  - `UserService`.

  Each method is proved equal to a plan function of the old state, and
  lemmas about those functions give the ownership and error rules.
- `TaskController` is the request-to-service dispatch. It carries a defect,
  described under "Findings".

**Client data transforms**
- `EnumDisplay` holds the status and priority display names.
- `TaskApi` and `AdminTaskApi` hold the request bodies and URLs.
- `Dashboard` holds the lookups, the task normalisation, the completed/active
  split and the chart counts. The counts are built by loops over a
  dictionary kept in insertion order.
- `PersonalTasks` holds the filter and numbering, habit days, the users list,
  and the page handlers as the class `Page`.
- `TaskItem` holds the tag colours and the overdue check.
- `StatusChart` holds the chart normalisation, colours, total and per-status
  lookup.

**Helper modules**
- `Wrappers`, `Js` (JavaScript truthiness, `||`, `===`, template text) and
  `Text` (ASCII case mapping, `includes`, split/join) are shared helpers.
- `Seqs` and `Sorting` are generic helpers: filter, sum, and a stable
  descending insertion sort.

**Inputs to the model**
- Network replies, the fetched current user, the authenticated name and
  authorities, and the current time (`now`, or a day number `today`) are
  parameters.
- Repositories are maps keyed by id.

## Model

Source paths are relative to the repository root.

| member | source | states |
|---|---|---|
| AxiosInstance.AttachToken | FE_Todo/src/api/axiosInstance.js:31-38 | the request gets `Authorization: Bearer <token>` exactly when a non-empty token is stored; otherwise it is unchanged |
| AxiosInstance.ExpiredIff | FE_Todo/src/api/axiosInstance.js:53-71 | a failure counts as an expired token iff it has a 401 or 403 response, is not yet marked `_retry`, and "JWT expired" appears in the string body, the body's `message` or `error`, the error message or the error's string form; the `data.toString()` test adds nothing |
| AxiosInstance.ContainsFirstChar | FE_Todo/src/api/axiosInstance.js:53-71 | a string that contains the marker contains its first character; used to show that `"[object Object]"` and `""` cannot match |
| AxiosInstance.ObjectTextLacksMarker | FE_Todo/src/api/axiosInstance.js:68-70 | `"[object Object]"`, the string form of a JSON body, never contains the expiry marker |
| AxiosInstance.EmptyLacksMarker | FE_Todo/src/api/axiosInstance.js:66 | an empty body or message never matches the marker |
| AxiosInstance.SettleAll | FE_Todo/src/api/axiosInstance.js:18-28 | one settlement per queued request, in order: all rejected with the error when there is one, otherwise all replayed with `Bearer <token>` |
| AxiosInstance.SettleAllAppend | FE_Todo/src/api/axiosInstance.js:18-28 | settling a queue with one more entry settles the old queue and then that entry |
| AxiosInstance.Client.constructor | FE_Todo/src/api/axiosInstance.js:14-16 | the gate is open, the queue is empty, and there is no header, redirect or refresh call |
| AxiosInstance.Client.ProcessQueue | FE_Todo/src/api/axiosInstance.js:18-28 | the settlements of the whole old queue are appended and the queue is emptied |
| AxiosInstance.Client.ClearSession | FE_Todo/src/api/axiosInstance.js:90-93 | both tokens are removed, every other stored key is kept, and the page goes to `/login` |
| AxiosInstance.Client.ClearIfUnauthenticated | FE_Todo/src/api/axiosInstance.js:120-129 | a 401 whose URL is not under `/api/auth/` clears the session and redirects; any other error changes nothing |
| AxiosInstance.Client.OnResponseError | FE_Todo/src/api/axiosInstance.js:49-131 | during a refresh, an expired failure is queued and no second refresh starts. Otherwise: without a refresh token, the queue is rejected and the session cleared; with one, a single refresh call is sent, the request is marked `_retry` and the gate closes. A non-expired error is rejected after the 401 check. The gate is set exactly while a refresh is in flight |
| AxiosInstance.Client.OnRefreshReply | FE_Todo/src/api/axiosInstance.js:95-131 | a thrown refresh rejects the queue, clears the session and rejects the caller. A 200 reply with data stores both tokens, sets the default header, replays the queue with the new token and retries the original. Any other reply leaves the queue as it was and rejects the original error after the 401 check. The gate is reopened on every path |
| SessionScenarios.ExpiredFailureIsExpired | FE_Todo/src/api/axiosInstance.js:53-71 | a 401 whose body is "JWT expired" is classified as expired |
| LocalStorage.Storage.GetItem | FE_Todo/src/api/authService.js:31-33 | returns the stored value exactly when the key is present |
| LocalStorage.Storage.SetItem | FE_Todo/src/api/authService.js:16-17 | the key maps to the value and nothing else changes |
| LocalStorage.Storage.RemoveItem | FE_Todo/src/api/authService.js:27-28 | only that key is removed |
| LocalStorage.WithoutTokens | FE_Todo/src/api/authService.js:26-29 | neither token key remains and every other entry is kept |
| LocalStorage.WithTokens | FE_Todo/src/api/authService.js:16-17 | both token keys hold the new values and every other entry is kept |
| LocalStorage.WithoutTokensIdempotent | FE_Todo/src/api/authService.js:26-29 | logging out twice leaves the same store as logging out once |
| AuthService.Login | FE_Todo/src/api/authService.js:12-23 | the reply is returned unchanged; both tokens are stored only for a reply with data; a failure or an empty reply stores nothing |
| AuthService.Logout | FE_Todo/src/api/authService.js:26-29 | the store afterwards is the old store without the two tokens |
| AuthService.IsAuthenticated | FE_Todo/src/api/authService.js:31-33 | true iff the "token" key is present |
| AuthService.RefreshToken | FE_Todo/src/api/authService.js:35-55 | without a refresh token it fails with "No refresh token available", sends nothing and removes both tokens; otherwise it calls the refresh path with the stored token; a failed call removes both tokens; a reply with data stores both and returns the access token; an empty reply returns null and changes nothing |
| AuthContext.RoleNames | FE_Todo/src/context/AuthContext.js:27 | the role names in order, or none when `roles` is absent |
| AuthContext.IsAdmin | FE_Todo/src/context/AuthContext.js:43-50 | true iff some role is exactly "ADMIN" or "ROLE_ADMIN"; false for no roles |
| AuthContext.AuthProvider.constructor | FE_Todo/src/context/AuthContext.js:10-12 | no user, no roles, loading |
| AuthContext.AuthProvider.AdoptUser | FE_Todo/src/context/AuthContext.js:60-62 | the user and their role names become the state |
| AuthContext.AuthProvider.FetchUser | FE_Todo/src/context/AuthContext.js:14-37 | without a token nothing but `loading` changes; a fetched user and their role names are adopted; a null user clears the current user and removes both tokens; a failed fetch removes both tokens; `loading` ends false |
| AuthContext.AuthProvider.Login | FE_Todo/src/context/AuthContext.js:53-67 | a failed login propagates and a falsy reply returns null, both leaving the user and roles unchanged; otherwise the fetched user is adopted and returned |
| AuthContext.AuthProvider.Logout | FE_Todo/src/context/AuthContext.js:70-76 | both tokens are removed and the user and roles are cleared |
| RouteGuards.HoldsSomeRole | FE_Todo/src/components/ProtectedRoute.js:46-49 | true iff the user holds at least one required role |
| RouteGuards.ProtectedView | FE_Todo/src/components/ProtectedRoute.js:13-52 | the spinner while loading whatever else holds; `/login` without a user; children with no required roles or for an admin; otherwise children iff some required role is held, and `/dashboard` when none is |
| RouteGuards.AdminView | FE_Todo/src/components/AdminRoute.js:11-25 | `/login` without a user, `/dashboard` for a non-admin, children for an admin; loading is not an input |
| RouteGuards.AdminRouteIsProtectedForAdminRoles | FE_Todo/src/components/AdminRoute.js:11-25 | the admin guard decides as the protected guard does once loading is over, with the admin roles required |
| TaskLifecycle.PrePersisted | BE_Todo/src/main/java/com/example/be_todo/entity/Task.java:46-50 | both timestamps are the same now and nothing else changes |
| TaskLifecycle.PreUpdated | BE_Todo/src/main/java/com/example/be_todo/entity/Task.java:52-58 | `updatedAt` is always now; an existing `completedAt` is kept; a missing one is set iff the status is COMPLETED; nothing else changes |
| TaskLifecycle.StatusWritten | BE_Todo/src/main/java/com/example/be_todo/service/Impl/TaskServiceImpl.java:107-108 | a status write sets the status; when the status is unchanged the row is kept as stored and `preUpdate` does not run, otherwise the row is pre-updated |
| Database.StatusWriteIsMerge | BE_Todo/src/main/java/com/example/be_todo/service/Impl/TaskServiceImpl.java:107-108 | a status write in a series is exactly the repository save of the stored row with its status set |
| TaskLifecycle.FirstCompletion | BE_Todo/src/main/java/com/example/be_todo/entity/Task.java:55-57 | the index of the first write that moves the row into COMPLETED from another status, and none when no write does |
| TaskLifecycle.FirstCompletionFromOther | BE_Todo/src/main/java/com/example/be_todo/entity/Task.java:55-57 | for a row not yet COMPLETED, that index is the first write setting COMPLETED |
| TaskLifecycle.CompletedAtNeverOverwritten | BE_Todo/src/main/java/com/example/be_todo/entity/Task.java:52-58 | once set, `completedAt` survives any series of later writes, whatever status they set |
| TaskLifecycle.CompletedAtIsFirstCompletion | BE_Todo/src/main/java/com/example/be_todo/entity/Task.java:52-58 | starting unset, `completedAt` ends as the instant of the first write that moves the row into COMPLETED, and stays unset when none does; a COMPLETED write to a row already COMPLETED is a skipped save and stamps nothing |
| TaskLifecycle.TaskEntity.constructor | BE_Todo/src/main/java/com/example/be_todo/entity/Task.java:18-44 | the entity holds the given row |
| TaskLifecycle.TaskEntity.PrePersist | BE_Todo/src/main/java/com/example/be_todo/entity/Task.java:46-50 | the fields become the pre-persisted row |
| TaskLifecycle.TaskEntity.PreUpdate | BE_Todo/src/main/java/com/example/be_todo/entity/Task.java:52-58 | the fields become the pre-updated row |
| Database.Persisted | BE_Todo/src/main/java/com/example/be_todo/entity/Task.java:46-50 | a new row gets its id and both timestamps and keeps every other field |
| Database.Merged | BE_Todo/src/main/java/com/example/be_todo/entity/Task.java:52-58 | an unchanged row is left as stored; a changed row goes through `preUpdate` |
| Database.Checked | BE_Todo/src/main/java/com/example/be_todo/entity/Task.java:22-40 | a save fails with a constraint violation exactly when title, status, priority or user is unset, and otherwise succeeds with the row unchanged |
| Database.Db.constructor | BE_Todo/src/main/java/com/example/be_todo/repository/TaskRepository.java:9 | the tables start empty and valid |
| Database.Db.InsertTask | BE_Todo/src/main/java/com/example/be_todo/entity/Task.java:46-50 | a successful save stores the persisted row under the next id and advances it; a failed one changes nothing |
| Database.Db.UpdateTask | BE_Todo/src/main/java/com/example/be_todo/entity/Task.java:52-58 | a successful save replaces the row under its id with the merged row; a failed one changes nothing |
| Database.Db.DeleteTask | BE_Todo/src/main/java/com/example/be_todo/repository/TaskRepository.java:9 | only that id is removed |
| Database.TasksOfUser | BE_Todo/src/main/java/com/example/be_todo/service/Impl/TaskServiceImpl.java:124-126 | exactly the rows owned by the user, unchanged |
| Database.TasksOfUserWithStatus | BE_Todo/src/main/java/com/example/be_todo/service/Impl/TaskServiceImpl.java:129-131 | exactly the rows owned by the user that have the status |
| Database.StatusQueriesPartitionUserTasks | BE_Todo/src/main/java/com/example/be_todo/service/Impl/TaskServiceImpl.java:124-131 | the three status queries are disjoint and together give all of a user's stored tasks |
| Database.TasksInCategory | BE_Todo/src/main/java/com/example/be_todo/repository/TaskRepository.java:14 | exactly the ids of the rows that reference the category, of any owner |
| TaskService.CreateOutcome | BE_Todo/src/main/java/com/example/be_todo/service/Impl/TaskServiceImpl.java:34-55 | "User not found" for an unknown user. Otherwise the row is owned by that user, a null priority becomes MEDIUM and a null status PENDING (given values are kept), both timestamps are now, the title, description, due date, category, `completedAt`, `startTime` and `endTime` of the request are kept, and a missing title fails at save |
| TaskService.CreateIgnoresAdminFlag | BE_Todo/src/main/java/com/example/be_todo/service/Impl/TaskServiceImpl.java:34-55 | the admin flag never changes the outcome of a create |
| TaskService.Authorize | BE_Todo/src/main/java/com/example/be_todo/service/Impl/TaskServiceImpl.java:62-64 | access is allowed iff the caller is an admin or owns the task; a refusal is a SecurityException |
| TaskService.UpdatePlan | BE_Todo/src/main/java/com/example/be_todo/service/Impl/TaskServiceImpl.java:58-94 | fails on a missing task, a non-owner without admin, an unknown new user or an unknown category, each with its own error, in that order. It succeeds exactly when the task exists, the caller is an admin or the owner, a new user is known (and the task has an owner), and a given category is known. Reassigning to a different user clears the category, and a given category id overrides that. Title, description, priority, status and due date are overwritten, even with null |
| TaskService.StatusPlan | BE_Todo/src/main/java/com/example/be_todo/service/Impl/TaskServiceImpl.java:99-109 | fails on a missing task or a non-owner without admin; otherwise only the status differs from the stored row |
| TaskService.DeleteCheck | BE_Todo/src/main/java/com/example/be_todo/service/Impl/TaskServiceImpl.java:112-121 | fails on a missing task or a non-owner without admin, and allows it otherwise |
| TaskService.StatusUpdateChangesOnlyStatus | BE_Todo/src/main/java/com/example/be_todo/service/Impl/TaskServiceImpl.java:107-108 | after a successful status update the saved row has the new status and equals the stored row apart from status and the hook timestamps, and a set `completedAt` is kept |
| TaskService.CreateTask | BE_Todo/src/main/java/com/example/be_todo/service/Impl/TaskServiceImpl.java:34-55 | returns the create outcome and stores the row under the next id exactly on success |
| TaskService.UpdateTask | BE_Todo/src/main/java/com/example/be_todo/service/Impl/TaskServiceImpl.java:58-94 | returns the save of the update plan and replaces only that row, exactly on success |
| TaskService.UpdateStatus | BE_Todo/src/main/java/com/example/be_todo/service/Impl/TaskServiceImpl.java:99-109 | returns the save of the status plan and replaces only that row, exactly on success |
| TaskService.DeleteTask | BE_Todo/src/main/java/com/example/be_todo/service/Impl/TaskServiceImpl.java:112-121 | removes exactly that row when allowed, and nothing otherwise |
| PersonalTaskService.AllCategories | BE_Todo/src/main/java/com/example/be_todo/service/Impl/PersonalTaskServiceImpl.java:31-33 | exactly the stored categories |
| PersonalTaskService.CategoriesOfUser | BE_Todo/src/main/java/com/example/be_todo/service/Impl/PersonalTaskServiceImpl.java:80-85 | exactly the caller's categories, as (id, name, color) |
| PersonalTaskService.CreatePlan | BE_Todo/src/main/java/com/example/be_todo/service/Impl/PersonalTaskServiceImpl.java:36-53 | fails for an unknown user or an unknown given category. Otherwise the row is owned by the caller, has that category (none when none is given) and a null status becomes PENDING; the priority is not defaulted |
| PersonalTaskService.CreateWithoutPriorityFails | BE_Todo/src/main/java/com/example/be_todo/service/Impl/PersonalTaskServiceImpl.java:47-52 | a personal task created without a priority fails the non-null check at save |
| PersonalTaskService.UpdatePlan | BE_Todo/src/main/java/com/example/be_todo/service/Impl/PersonalTaskServiceImpl.java:89-111 | fails on a missing task, a non-owner or an unknown category, each with its own error; it succeeds exactly when the task exists, the caller owns it and a given category is known. Keeps the category when none is given. Overwrites title, description, due date, priority and status, and sets `updatedAt` |
| PersonalTaskService.StatusPlan | BE_Todo/src/main/java/com/example/be_todo/service/Impl/PersonalTaskServiceImpl.java:114-125 | fails on a missing task or a non-owner; otherwise only status and `updatedAt` change |
| PersonalTaskService.DeleteCheck | BE_Todo/src/main/java/com/example/be_todo/service/Impl/PersonalTaskServiceImpl.java:128-137 | allowed iff the task exists and the caller owns it |
| PersonalTaskService.NoAdminBypass | BE_Todo/src/main/java/com/example/be_todo/service/Impl/PersonalTaskServiceImpl.java:114-137 | another user's task is refused here for status change and delete, while the general service lets an admin through |
| PersonalTaskService.Unlinked | BE_Todo/src/main/java/com/example/be_todo/service/Impl/PersonalTaskServiceImpl.java:70-74 | every task that referenced the category loses it (and is pre-updated); every other task is unchanged; no task references it afterwards |
| PersonalTaskService.UnlinkedValid | BE_Todo/src/main/java/com/example/be_todo/service/Impl/PersonalTaskServiceImpl.java:70-74 | unlinking a category keeps every stored row valid |
| PersonalTaskService.CreateTask | BE_Todo/src/main/java/com/example/be_todo/service/Impl/PersonalTaskServiceImpl.java:36-53 | returns the insert of the create plan and stores it under the next id exactly on success |
| PersonalTaskService.CreateTaskCategory | BE_Todo/src/main/java/com/example/be_todo/service/Impl/PersonalTaskServiceImpl.java:56-62 | fails for an unknown user, changing nothing; otherwise stores the category owned by that user under the next id |
| PersonalTaskService.UnlinkAll | BE_Todo/src/main/java/com/example/be_todo/service/Impl/PersonalTaskServiceImpl.java:70-74 | the loop over the category's tasks leaves exactly the unlinked rows: the referencing tasks without the category and pre-updated, every other task as it was |
| PersonalTaskService.DeleteTaskCategory | BE_Todo/src/main/java/com/example/be_todo/service/Impl/PersonalTaskServiceImpl.java:65-77 | fails, changing nothing, unless the category exists and belongs to the caller; otherwise every referencing task is unlinked and the category is removed |
| PersonalTaskService.UpdateTask | BE_Todo/src/main/java/com/example/be_todo/service/Impl/PersonalTaskServiceImpl.java:89-111 | returns the save of the update plan and replaces only that row, exactly on success |
| PersonalTaskService.UpdateStatus | BE_Todo/src/main/java/com/example/be_todo/service/Impl/PersonalTaskServiceImpl.java:114-125 | returns the save of the status plan and replaces only that row, exactly on success |
| PersonalTaskService.DeleteTask | BE_Todo/src/main/java/com/example/be_todo/service/Impl/PersonalTaskServiceImpl.java:128-137 | removes exactly that row when the caller owns it, and nothing otherwise |
| RoleService.RolesNamed | BE_Todo/src/main/java/com/example/be_todo/service/Impl/RoleServiceImpl.java:61-62 | exactly the ids of the roles with that name |
| RoleService.CreateRole | BE_Todo/src/main/java/com/example/be_todo/service/Impl/RoleServiceImpl.java:27-30 | stores the role under the next id and returns it |
| RoleService.UpdateRole | BE_Todo/src/main/java/com/example/be_todo/service/Impl/RoleServiceImpl.java:32-38 | "Role not found" and no change for a missing id; otherwise only that role's name changes |
| RoleService.DeleteRole | BE_Todo/src/main/java/com/example/be_todo/service/Impl/RoleServiceImpl.java:40-43 | only that id is removed |
| RoleService.GetRoleById | BE_Todo/src/main/java/com/example/be_todo/service/Impl/RoleServiceImpl.java:45-49 | the stored role iff the id is present, "Role not found" otherwise |
| Database.FindAll | BE_Todo/src/main/java/com/example/be_todo/service/Impl/RoleServiceImpl.java:51-54 | `findAll` on a table whose rows sit under their own id returns exactly the stored rows; the roles, users and categories are listed through it |
| RoleService.AllRoles | BE_Todo/src/main/java/com/example/be_todo/service/Impl/RoleServiceImpl.java:51-54 | exactly the stored roles |
| RoleService.AssignRoleToUser | BE_Todo/src/main/java/com/example/be_todo/service/Impl/RoleServiceImpl.java:56-66 | the user is checked first, then the role name (a missing name and an ambiguous one fail). On success the role is added to that user's roles only; on failure the users are unchanged |
| UserService.CreateUser | BE_Todo/src/main/java/com/example/be_todo/service/Impl/UserServiceImpl.java:22-24 | stores the user under the next id and returns it |
| UserService.GetUser | BE_Todo/src/main/java/com/example/be_todo/service/Impl/UserServiceImpl.java:27-30 | the stored user iff the id is present, "User not found" otherwise |
| UserService.GetUserById | BE_Todo/src/main/java/com/example/be_todo/service/Impl/UserServiceImpl.java:51-53 | the stored user iff the id is present, empty otherwise |
| UserService.AllUsers | BE_Todo/src/main/java/com/example/be_todo/service/Impl/UserServiceImpl.java:56-58 | exactly the stored users |
| UserService.GetUserByUsername | BE_Todo/src/main/java/com/example/be_todo/service/Impl/UserServiceImpl.java:61-63 | empty iff no user has that name; a single user with that name is returned; more than one fails as not unique; a user it returns is a stored user with that name |
| UserService.UpdateUser | BE_Todo/src/main/java/com/example/be_todo/service/Impl/UserServiceImpl.java:33-43 | fails and changes nothing for a missing id; otherwise overwrites username, password, email and roles of that user only, keeping the name and id |
| UserService.DeleteUser | BE_Todo/src/main/java/com/example/be_todo/service/Impl/UserServiceImpl.java:46-48 | only that id is removed |
| TaskController.IsAdmin | BE_Todo/src/main/java/com/example/be_todo/controller/TaskController.java:37-41 | true iff some authority is exactly "ROLE_ADMIN" |
| TaskController.CurrentUser | BE_Todo/src/main/java/com/example/be_todo/controller/TaskController.java:27-35 | a returned user has the authenticated name, and every user ahead of them has some other username; "User not found" iff every user has a username and none has that name |
| TaskController.CurrentUserFindsReachable | BE_Todo/src/main/java/com/example/be_todo/controller/TaskController.java:30-34 | a user with the name is found when every user ahead of them has a username |
| TaskController.CurrentUserThrowsOnNull | BE_Todo/src/main/java/com/example/be_todo/controller/TaskController.java:30-34 | a user without a username ahead of every user with the name makes the lookup throw a NullPointerException |
| TaskController.Dispatch | BE_Todo/src/main/java/com/example/be_todo/controller/TaskController.java:43-83 | POST creates for the current user with the admin flag false; PUT passes no user and false; PATCH and DELETE pass the current user's id and the authorities' admin flag; every endpoint but PUT fails iff there is no current user |
| TaskController.PutNeverUpdates | BE_Todo/src/main/java/com/example/be_todo/controller/TaskController.java:51-56 | as written, PUT on any stored task is refused with a SecurityException |
| TaskController.DispatchCorrected | BE_Todo/src/main/java/com/example/be_todo/controller/TaskController.java:51-56 | PUT passes the current user's id and admin flag as the other endpoints do; other endpoints are unchanged |
| TaskController.CorrectedPutLetsOwnerThrough | BE_Todo/src/main/java/com/example/be_todo/controller/TaskController.java:51-56 | with the correction, the owner or an admin passes the ownership check of an update |
| EnumDisplay.WordCase | FE_Todo/src/api/priorityService.js:10 | same length, first character kept, the rest lower-cased |
| EnumDisplay.CasedWords | FE_Todo/src/api/statusService.js:10-13 | each part word-cased, in order |
| EnumDisplay.StatusOptions | FE_Todo/src/api/statusService.js:3-18 | one option per status, in order, whose id is the enum string and whose name is the display name |
| EnumDisplay.PriorityOptions | FE_Todo/src/api/priorityService.js:3-14 | one option per priority, in order, with the enum value as id and the word-cased name, of the same length |
| EnumDisplay.WordCaseKeepsChar | FE_Todo/src/api/statusService.js:10-13 | word-casing introduces no character that no other character lower-cases to |
| EnumDisplay.StatusNameHasNoUnderscore | FE_Todo/src/api/statusService.js:10-13 | a status display name contains no "_" |
| EnumDisplay.StatusNameWords | FE_Todo/src/api/statusService.js:10-13 | for an id without spaces, the name's space-separated words are the word-cased "_"-separated parts of the id, as many of them |
| EnumDisplay.SplitPiecesInSource | FE_Todo/src/api/statusService.js:10-13 | every character of a split piece comes from the split string |
| EnumDisplay.OneWordName | FE_Todo/src/api/statusService.js:10-13 | an id without "_" is shown word-cased |
| EnumDisplay.TwoWordName | FE_Todo/src/api/statusService.js:10-13 | `A_B` is shown as the word-cased `A`, a space, and the word-cased `B` |
| EnumDisplay.PendingWord | FE_Todo/src/api/statusService.js:10-13 | PENDING is shown as "Pending" |
| EnumDisplay.CompletedWord | FE_Todo/src/api/statusService.js:10-13 | COMPLETED is shown as "Completed" |
| EnumDisplay.InProgressWords | FE_Todo/src/api/statusService.js:10-13 | the parts of IN_PROGRESS are shown as "In" and "Progress" |
| EnumDisplay.LowWord | FE_Todo/src/api/priorityService.js:10 | LOW is shown as "Low" |
| EnumDisplay.MediumWord | FE_Todo/src/api/priorityService.js:10 | MEDIUM is shown as "Medium" |
| EnumDisplay.HighWord | FE_Todo/src/api/priorityService.js:10 | HIGH is shown as "High" |
| EnumDisplay.ChangePriority | FE_Todo/src/api/priorityService.js:18-40 | create, update and delete of a priority always fail, each with its own message |
| TaskApi.CategoryRefOrNull | FE_Todo/src/api/taskService.js:23 | `{ id }` for a truthy category id, else null |
| TaskApi.GeneralCreateBody | FE_Todo/src/api/taskService.js:13-33 | status and priority come from their ids, the due date is `dueDate \|\| dueAt`, the category is a reference or null, and there is no id or user |
| TaskApi.GeneralUpdateBody | FE_Todo/src/api/taskService.js:36-60 | the create body with `id` set to the task id, and nothing else different |
| TaskApi.AssigneeOrNull | FE_Todo/src/api/taskService.js:119-122 | `user` is `{ id: userId }` iff the user id is truthy and not the caller's, else null |
| TaskApi.PersonalBody | FE_Todo/src/api/taskService.js:108-164 | status and priority from their ids, due date from `dueAt` only, the category reference or null, no `categoryId`, and the assignee rule for `user` |
| TaskApi.PersonalBodyIgnoresDueDate | FE_Todo/src/api/taskService.js:21 | a form with only `dueDate` keeps it in the general body and loses it in the personal one |
| TaskApi.MyTasksUrl | FE_Todo/src/api/taskService.js:72-95 | no request iff the user id is falsy; otherwise `/api/my-tasks?currentUserId=U`, with `&categoryId=C` appended iff C is truthy and not "all" |
| TaskApi.MyTasks | FE_Todo/src/api/taskService.js:72-95 | `[]` for a falsy user id, the reply otherwise |
| TaskApi.DeleteResult | FE_Todo/src/api/taskService.js:177-189 | `true` once the request succeeds, the error otherwise |
| AdminTaskApi.IdOrObject | FE_Todo/src/api/adminTaskService.js:49-61 | `{ id }` for a truthy id, else the given object when truthy, else undefined |
| AdminTaskApi.AdminUpdateBody | FE_Todo/src/api/adminTaskService.js:39-75 | status and priority taken as given, due date `dueDate \|\| dueAt`, `user` and `category` by the id/object rule, `userId` and `categoryId` passed through |
| AdminTaskApi.AdminCreateBody | FE_Todo/src/api/adminTaskService.js:103-127 | no user fields; the category only from a truthy category id |
| AdminTaskApi.AdminBuildersAgree | FE_Todo/src/api/adminTaskService.js:42-62 | the two admin bodies agree apart from user and category, and a category object alone is ignored on create |
| Dashboard.NameById | FE_Todo/src/pages/Dashboard.js:44-54 | "Unknown" without a list, a truthy id or a matching entry; otherwise the name of the first entry with that id |
| Dashboard.LoadField | FE_Todo/src/pages/Dashboard.js:118-143 | always an object: an object is kept, a truthy id becomes `{ id, name }` with the looked-up name, a falsy value becomes `{ id: null, name: default }` |
| Dashboard.LoadTasks | FE_Todo/src/pages/Dashboard.js:102-151 | non-array data gives no tasks; otherwise the normalised non-null tasks |
| Dashboard.LoadAll | FE_Todo/src/pages/Dashboard.js:109-151 | null entries are dropped, every non-null entry appears normalised, every result is normalised from some entry with object status and priority, and no entry is lost when none is null |
| Dashboard.LoadSplitPartitions | FE_Todo/src/pages/Dashboard.js:164-171 | on load, completed means the upper-cased name is COMPLETED or DONE, and the completed and active lists partition the tasks |
| Dashboard.RefreshField | FE_Todo/src/pages/Dashboard.js:321-370 | an object is kept; a number is looked up; a name keeps the name and takes the id of the first matching entry (exactly that entry's id), or null when nothing matches; anything else is `{ id: null, name: "Unknown" }` |
| Dashboard.RefreshTasks | FE_Todo/src/pages/Dashboard.js:311-377 | no list gives no tasks; a null entry makes the refresh fail; otherwise every task is refreshed in order |
| Dashboard.RefreshCompletedIff | FE_Todo/src/pages/Dashboard.js:392-412 | after a refresh a task is completed iff its lower-cased name contains "complete" or "done", and it is active iff it is not completed |
| Dashboard.RefreshSplitPartitions | FE_Todo/src/pages/Dashboard.js:392-412 | the refresh split's completed and active lists partition the tasks |
| Dashboard.LoadCompletedStaysCompleted | FE_Todo/src/pages/Dashboard.js:164-171 | a task completed under the load split is completed under the refresh split too |
| Dashboard.IndexOf | FE_Todo/src/pages/Dashboard.js:186-205 | the first position of a key, absent iff the key is not there |
| Dashboard.Put | FE_Todo/src/pages/Dashboard.js:186-205 | `counts[k] = v`: an existing key keeps its place, a new key is appended, the key now maps to v, and other entries are unchanged |
| Dashboard.Increment | FE_Todo/src/pages/Dashboard.js:208-227 | `counts[k]++` on an existing key: the same keys, only that entry grows, and the total rises by one |
| Dashboard.CountKey | FE_Todo/src/pages/Dashboard.js:208-227 | the counter a status name increments is always an existing key: the name itself when present, otherwise, for a name with `_`, its spaced form if that is a key and nothing else; for a name without `_`, the upper-cased name with `_` for spaces if that is a key; otherwise none |
| Dashboard.Tally | FE_Todo/src/pages/Dashboard.js:208-227 | counting one task keeps the keys |
| Dashboard.Counted | FE_Todo/src/pages/Dashboard.js:208-227 | counting keeps the keys, never lowers a count, raises each counter by the tasks that hit it, and raises the total by the number of tasks that matched |
| Dashboard.Matched | FE_Todo/src/pages/Dashboard.js:208-227 | at most one hit per task |
| Dashboard.SeedName | FE_Todo/src/pages/Dashboard.js:186-192 | seeding adds the status name, its upper-case form and (on refresh) its spaced form, all at zero |
| Dashboard.Seeded | FE_Todo/src/pages/Dashboard.js:186-192 | all counts zero, and exactly the keys seeded by some status name |
| Dashboard.WithCommon | FE_Todo/src/pages/Dashboard.js:195-205 | the existing entries are kept, every common name becomes a key, and the new entries are zero |
| Dashboard.SeedKeys | FE_Todo/src/pages/Dashboard.js:183-205 | every status name, its upper-case form, its spaced form on refresh, and every common name is a key; all start at 0 |
| Dashboard.CountsBounded | FE_Todo/src/pages/Dashboard.js:208-234 | every count is at least 0 and the counts add up to at most the number of tasks |
| Dashboard.SeedCounts | FE_Todo/src/pages/Dashboard.js:183-205 | the loops build the seeded dictionary |
| Dashboard.SeedStatuses | FE_Todo/src/pages/Dashboard.js:186-192 | the loop over the statuses builds the seeded statuses |
| Dashboard.SeedStatus | FE_Todo/src/pages/Dashboard.js:187-191 | the three assignments for one status seed its keys |
| Dashboard.AddCommon | FE_Todo/src/pages/Dashboard.js:195-205 | the loop adds the missing common names |
| Dashboard.Count | FE_Todo/src/pages/Dashboard.js:208-227 | the loop over the tasks computes the counts |
| Dashboard.LoadChart | FE_Todo/src/pages/Dashboard.js:183-234 | the load-time counts are the seeded dictionary counted over the task status names; it fails iff a status or task has no name |
| Dashboard.TruthyNames | FE_Todo/src/pages/Dashboard.js:602-614 | exactly the non-empty status names |
| Dashboard.RefreshStatusName | FE_Todo/src/pages/Dashboard.js:631-660 | the status name a refreshed task contributes: an object's name, a string as it is, a number's looked-up name; none for no task, for any other status and for an empty name |
| Dashboard.UpdateChartData | FE_Todo/src/pages/Dashboard.js:588-687 | nothing for non-array inputs; otherwise the refresh counts, without blank names, sorted by count |
| Dashboard.ChartRowsCorrect | FE_Todo/src/pages/Dashboard.js:663-672 | the chart rows are sorted by count, descending, are a permutation of the named entries, and every count is at least 0 |
| PersonalTasks.Numbered | FE_Todo/src/pages/PersonalTasks.js:167-176 | the same tasks in order, numbered 1..n |
| PersonalTasks.FilteredTasks | FE_Todo/src/pages/PersonalTasks.js:1005-1017 | a task is shown iff it is in the selected category (or "all") and the query is empty or found in its title or description, ignoring case |
| PersonalTasks.NoFilterShowsAll | FE_Todo/src/pages/PersonalTasks.js:1005-1023 | with "all" and no query every task is shown in order |
| PersonalTasks.WithoutTask | FE_Todo/src/pages/PersonalTasks.js:482-489 | apart from the sequence numbers, the result is exactly the input filtered to the tasks with another id, in their order; it is renumbered 1..n |
| PersonalTasks.UnnumberedFilter | FE_Todo/src/pages/PersonalTasks.js:482-489 | a filter that ignores sequence numbers gives the same tasks before or after the numbers are cleared |
| Seqs.FilterAppend | FE_Todo/src/pages/PersonalTasks.js:482-489 | filtering a concatenation is the concatenation of the filtered parts, so the filter keeps order |
| Seqs.FilterSubMultiset | FE_Todo/src/pages/PersonalTasks.js:482-489 | a filter never adds an element or keeps one more often than the input holds it |
| PersonalTasks.WithStatus | FE_Todo/src/pages/PersonalTasks.js:395-404 | the tasks with the id get the new status; the others are unchanged |
| PersonalTasks.ToggledDays | FE_Todo/src/pages/PersonalTasks.js:424-430 | ticking adds the day once, only when absent; unticking removes every occurrence and keeps the other days |
| PersonalTasks.ToggleDay | FE_Todo/src/pages/PersonalTasks.js:424-430 | the copy-then-push-or-filter code computes the toggled days |
| PersonalTasks.UntickKeepsOthers | FE_Todo/src/pages/PersonalTasks.js:428-430 | unticking keeps every other day and introduces no duplicate |
| PersonalTasks.ToggleKeepsNoDuplicates | FE_Todo/src/pages/PersonalTasks.js:424-430 | toggling a day never introduces a duplicate |
| PersonalTasks.MergeUsers | FE_Todo/src/pages/PersonalTasks.js:179-201 | a single user is wrapped in a list, and the current user is prepended iff no entry has their id; without data the list is the current user |
| PersonalTasks.Page.constructor | FE_Todo/src/pages/PersonalTasks.js:167-176 | an empty page with "all" selected |
| PersonalTasks.Page.ShowTasks | FE_Todo/src/pages/PersonalTasks.js:167-176 | the shown tasks are the fetched array numbered, or none for a non-array |
| PersonalTasks.Page.ChangeStatus | FE_Todo/src/pages/PersonalTasks.js:376-416 | a request is sent iff some task has the id; on success the tasks with the id get COMPLETED when checked, PENDING otherwise; nothing else changes |
| PersonalTasks.Page.DeleteTask | FE_Todo/src/pages/PersonalTasks.js:468-489 | refused without a user id; once the delete succeeds the list is `WithoutTask` of the old list: the other tasks in their order, renumbered |
| PersonalTasks.Page.UpdateHabitProgress | FE_Todo/src/pages/PersonalTasks.js:419-465 | nothing for an unknown habit or a failed request; otherwise every habit with the id gets the toggled days and the others are unchanged |
| PersonalTasks.Page.ShowUsers | FE_Todo/src/pages/PersonalTasks.js:179-201 | the shown users are the merged list: the current user alone without data; a single user wrapped, after the current user unless their ids are equal; a list kept, with the current user prepended exactly when no entry has their id |
| PersonalTasks.Page.DeleteCategory | FE_Todo/src/pages/PersonalTasks.js:854-873 | refused without a user id; on success the category is removed and the selection resets to "all" iff it was selected |
| TaskItem.PriorityColor | FE_Todo/src/components/TaskItem.js:15-40 | "default" for a number; otherwise, ignoring case, extreme/high is red, moderate/medium blue, low green, anything else default |
| TaskItem.StatusColor | FE_Todo/src/components/TaskItem.js:43-68 | "default" for a number; otherwise completed/done is success, in progress processing, not started/todo error, anything else default |
| TaskItem.ColoursIgnoreCase | FE_Todo/src/components/TaskItem.js:15-68 | upper-casing a name never changes its colours, and an object with a name is coloured as that name |
| TaskItem.IsOverdue | FE_Todo/src/components/TaskItem.js:75-93 | never without a due date or for a completed/done status; otherwise overdue iff the due day is before today |
| TaskItem.SuccessIsNeverOverdue | FE_Todo/src/components/TaskItem.js:43-93 | a card with the success colour is never overdue |
| StatusChart.SliceColor | FE_Todo/src/components/StatusChart.js:103-106 | always a colour of the table: the name's entry, else the normalised name's, else the entry for the name with spaces for underscores, else the default |
| StatusChart.ColorForStatus | FE_Todo/src/components/StatusChart.js:147-156 | always a colour of the table: the name's entry, else the upper-cased name's, else the normalised name's, else the spaced name's, else the default |
| StatusChart.ChartData | FE_Todo/src/components/StatusChart.js:73-84 | the data, or the single "No Data" row with value 1 when there is none |
| StatusChart.Slices | FE_Todo/src/components/StatusChart.js:96-113 | one coloured slice per item, in order |
| StatusChart.ProcessedCorrect | FE_Todo/src/components/StatusChart.js:94-115 | no slices without data; otherwise exactly the positive items, coloured from the table with their normalised names, sorted by value, descending |
| StatusChart.SlicesSum | FE_Todo/src/components/StatusChart.js:96-113 | colouring keeps the values |
| StatusChart.TotalTasksOfData | FE_Todo/src/components/StatusChart.js:231-234 | 1 without data, the sum of the positive values when there are any, else the sum of all values |
| StatusChart.CountBy | FE_Todo/src/components/StatusChart.js:237-259 | the value of the first slice with the name ignoring case; with none, of the first with the normalised name; with neither, of the first whose lower-cased name contains it; 0 when none matches, and (all values being positive, as processed slices are) 0 only then; always some slice's value or 0 |
| StatusChart.StatusCountIgnoresCase | FE_Todo/src/components/StatusChart.js:237-259 | the count looked up for a status does not depend on its case |

## Left out

- HTTP, JSON and persistence are not modelled. Replies are inputs, repositories are maps, and `save`/`saveAll`/`findAll` are map updates. Foreign-key effects of deleting a user or role are not modelled.
- Authentication on the server (JWT, the authentication manager, AuthController.java) is not part of this model; the authenticated name and authorities are inputs.
- Asynchrony is not modelled. Each handler runs its awaits in order with the replies as inputs; the token refresh is two events on one client. `window.location` is a flag.
- Timers, clocks and dates are not modelled. `LocalDateTime.now()` is one time parameter per operation, and the overdue check uses day numbers; invalid dates are left out.
- Floating point is not modelled: habit progress percentages and chart percentages and geometry.
- Rendering is not modelled: JSX, forms, modals, tables, chart animation and `animatedData`.
- Case mapping is ASCII only; there is no Unicode case mapping of the Vietnamese colour keys.
- JavaScript object key order is insertion order in the model. Integer-like keys, which JavaScript lists first, and prototype keys of the colour table are not modelled.
- Results that the source returns from unordered maps or sets are sets in the model: all categories, roles, users, and the category DTOs.
- RoleService.AssignRoleToUser: a role name held by two roles fails as a non-unique result, since the repository returns an Optional.
- UserService.GetUserByUsername: a username held by two users fails in the same way; a single matching user is returned. It is a ghost function because it chooses among matching users.
- TaskService.CreateOutcome: the id in the request body is ignored; a new id is always assigned. A category reference naming no stored category is kept and the create succeeds; the foreign-key failure the database would raise on insert is not modelled, since the schema is not part of this model.
- PersonalTaskService.CreateTask: an id in the body is ignored; the source would update that row.
- PersonalTaskService.CreateTaskCategory: an id in the body is ignored; the source would update that row.
- RoleService.CreateRole: an id in the body is ignored; the source would update that row.
- UserService.CreateUser: an id in the body is ignored; the source would update that row.
- Database.Checked: a save with an unset `nullable = false` column fails with a constraint violation; which column the error names is not modelled, since it depends on the persistence provider or the database.
- EnumDisplay.StatusOptions: assumes string elements; non-string enum values are not modelled.
- Dashboard.LoadChart: a status without a name or a task whose status has no name is a failure. In the page these make the dictionary key "undefined" or throw; that coincidence is not modelled.
- Dashboard.RefreshField: an option without a name never matches a status given by name. The page would throw on it.
- Dashboard.SeedKeys: states which keys are seeded, not their order. The order is fixed by `Seed`.
- Dashboard.UpdateChartData: the `JSON.stringify` comparison before setting the chart state is left out. Setting equal data is the same as not setting it.
- PersonalTasks.Page.UpdateHabitProgress: only `completedDays` is modelled, not the progress percentage.
- Two parts of PersonalTasks.js are not modelled: the "all" category option built at lines 138-145, and which of `getMyTasks` and the admin list is fetched.
- The session scenarios in `SessionScenarios` are checked only against the client's contracts. They stand for documented behaviour, not for a source function.

## Findings

| source | as written | input that shows it | evidently intended | confidence | as-written member | corrected member |
|---|---|---|---|---|---|---|
| BE_Todo/src/main/java/com/example/be_todo/controller/TaskController.java:51-56 | PUT `/api/tasks/{id}` calls `updateTask(id, request, null, false)` | any stored task with an owner, updated by its owner or an admin | pass the current user's id and `isAdmin(auth)`, as PATCH and DELETE do | not executed | TaskController.PutNeverUpdates | TaskController.DispatchCorrected |
