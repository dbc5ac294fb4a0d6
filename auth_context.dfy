/** The authentication context shared by the pages: the current user, the
    names of that user's roles and the loading flag, with the role tests, the
    login and logout actions and the start-up user fetch. The reply of
    "GET /api/users/me" is a parameter. */
module AuthContext {
  import opened Wrappers
  import opened LocalStorage
  import opened AxiosInstance
  import AuthService

  /** What JavaScript throws when `user.roles` is read on a `null` user. */
  const NullUserError: string := "TypeError: Cannot read properties of null (reading 'roles')"

  datatype RoleRef = RoleRef(id: int, name: string)

  /** The user object returned by the backend; `roles` may be absent. */
  datatype User = User(id: int, username: string, roles: Option<seq<RoleRef>>)

  /** `user.roles ? user.roles.map((role) => role.name) : []` */
  function RoleNames(user: User): (r: seq<string>)
    ensures user.roles.None? ==> r == []
    ensures user.roles.Some? ==> |r| == |user.roles.value|
    ensures user.roles.Some? ==> forall i :: 0 <= i < |r| ==> r[i] == user.roles.value[i].name
  {
    match user.roles
    case None => []
    case Some(rs) => seq(|rs|, i requires 0 <= i < |rs| => rs[i].name)
  }

  /** `hasRole(role)`: `userRoles.includes(role)`. */
  predicate HasRole(userRoles: seq<string>, role: string) {
    role in userRoles
  }

  predicate IsAdminName(role: string) {
    role == "ADMIN" || role == "ROLE_ADMIN"
  }

  /** `isAdmin()`: some role is exactly "ADMIN" or "ROLE_ADMIN". */
  function IsAdmin(userRoles: seq<string>): (r: bool)
    ensures r <==> exists i :: 0 <= i < |userRoles| && IsAdminName(userRoles[i])
    ensures r <==> HasRole(userRoles, "ADMIN") || HasRole(userRoles, "ROLE_ADMIN")
    ensures userRoles == [] ==> !r
    decreases |userRoles|
  {
    if userRoles == [] then false
    else IsAdminName(userRoles[0]) || IsAdmin(userRoles[1..])
  }

  class AuthProvider {
    const store: Storage
    var currentUser: Option<User>
    var userRoles: seq<string>
    var loading: bool

    constructor (store: Storage)
      ensures this.store == store
      ensures currentUser == None && userRoles == [] && loading
    {
      this.store := store;
      currentUser := None;
      userRoles := [];
      loading := true;
    }

    /** Sets the current user and its role names, as both `fetchUser` and `login` do. */
    method AdoptUser(user: User)
      modifies this`currentUser, this`userRoles
      ensures currentUser == Some(user) && userRoles == RoleNames(user)
    {
      currentUser := Some(user);
      userRoles := if user.roles.Some? then RoleNames(user) else [];
    }

    /** The start-up effect. Without a stored token nothing is fetched. With
        one, a fetched user becomes the current user; a failed fetch, or a
        `null` user (whose `roles` cannot be read), removes both tokens.
        `loading` ends false on every path. */
    method FetchUser(fetched: Result<Option<User>, Failure>)
      modifies this, store
      ensures !loading
      ensures TokenKey !in old(store.entries) ==>
        currentUser == old(currentUser) && userRoles == old(userRoles) && store.entries == old(store.entries)
      ensures TokenKey in old(store.entries) && fetched.Success? && fetched.value.Some? ==>
        && currentUser == fetched.value && userRoles == RoleNames(fetched.value.value)
        && store.entries == old(store.entries)
      ensures TokenKey in old(store.entries) && fetched.Success? && fetched.value.None? ==>
        currentUser == None && userRoles == old(userRoles) && store.entries == WithoutTokens(old(store.entries))
      ensures TokenKey in old(store.entries) && fetched.Failure? ==>
        currentUser == old(currentUser) && userRoles == old(userRoles) && store.entries == WithoutTokens(old(store.entries))
    {
      loading := true;
      if AuthService.IsAuthenticated(store) {
        match fetched {
          case Failure(_) =>
            AuthService.Logout(store);
          case Success(user) =>
            if user.Some? {
              AdoptUser(user.value);
            } else {
              // `setCurrentUser(null)` runs, then reading `user.roles` throws into the catch block
              currentUser := None;
              AuthService.Logout(store);
            }
        }
      }
      loading := false;
    }

    /** `login(credentials)`: a failing login call is propagated and changes
        nothing; a reply without data yields `null` and changes nothing; after
        a successful login the user is fetched, failures of that fetch being
        propagated, and the fetched user becomes the current user. */
    method Login(loginReply: Result<Option<TokenPair>, Failure>, fetched: Result<Option<User>, Failure>)
      returns (r: Result<Option<User>, Failure>)
      modifies this, store
      ensures loading == old(loading)
      ensures loginReply.Failure? ==>
        && r == Failure(loginReply.error)
        && currentUser == old(currentUser) && userRoles == old(userRoles)
        && store.entries == old(store.entries)
      ensures loginReply.Success? && loginReply.value.None? ==>
        && r == Success(None)
        && currentUser == old(currentUser) && userRoles == old(userRoles)
        && store.entries == old(store.entries)
      ensures loginReply.Success? && loginReply.value.Some? ==>
        var pair := loginReply.value.value;
        && store.entries == WithTokens(old(store.entries), pair.accessToken, pair.refreshToken)
        && (fetched.Failure? ==>
              r == Failure(fetched.error) && currentUser == old(currentUser) && userRoles == old(userRoles))
        && (fetched.Success? && fetched.value.None? ==>
              r == Failure(Thrown(NullUserError)) && currentUser == None && userRoles == old(userRoles))
        && (fetched.Success? && fetched.value.Some? ==>
              r == Success(fetched.value) && currentUser == fetched.value
              && userRoles == RoleNames(fetched.value.value))
    {
      var response := AuthService.Login(store, loginReply);
      if response.Failure? {
        return Failure(response.error);
      }
      if response.value.None? {
        return Success(None);
      }
      match fetched {
        case Failure(f) =>
          return Failure(f);
        case Success(user) =>
          if user.None? {
            currentUser := None;
            return Failure(Thrown(NullUserError));
          }
          AdoptUser(user.value);
          return Success(user);
      }
    }

    /** `logout()`: removes both tokens and forgets the user and its roles. */
    method Logout()
      modifies this, store
      ensures store.entries == WithoutTokens(old(store.entries))
      ensures currentUser == None && userRoles == [] && loading == old(loading)
    {
      AuthService.Logout(store);
      currentUser := None;
      userRoles := [];
    }
  }
}
