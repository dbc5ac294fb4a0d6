/** The user service over the user table. */
module UserService {
  import opened Wrappers
  import opened Text
  import opened Entities
  import opened Database

  const UserNotFound: string := "User not found"
  const NotUnique: string := "query did not return a unique result"

  function UserNotFoundWithId(id: nat): string {
    "User not found with id: " + NatToDecimal(id)
  }

  /** `createUser`: the user is stored under a new id. */
  method CreateUser(db: Db, user: User) returns (r: User)
    requires db.Valid()
    modifies db`users, db`nextUserId
    ensures db.Valid()
    ensures r == user.(id := old(db.nextUserId)) && db.users == old(db.users)[r.id := r]
  {
    r := user.(id := db.nextUserId);
    db.users := db.users[r.id := r];
    db.nextUserId := db.nextUserId + 1;
  }

  /** `getUser` */
  function GetUser(users: map<nat, User>, id: nat): (r: Result<User, Error>)
    ensures id in users <==> r.Success?
    ensures r.Success? ==> r.value == users[id]
    ensures r.Failure? ==> r.error == EntityNotFound(UserNotFound)
  {
    if id in users then Success(users[id]) else Failure(EntityNotFound(UserNotFound))
  }

  /** `getUserById` */
  function GetUserById(users: map<nat, User>, id: nat): (r: Option<User>)
    ensures id in users <==> r.Some?
    ensures r.Some? ==> r.value == users[id]
  {
    if id in users then Some(users[id]) else None
  }

  /** `getAllUsers` */
  function AllUsers(users: map<nat, User>): (r: set<User>)
    requires forall k :: k in users ==> users[k].id == k
    ensures forall k :: k in users ==> users[k] in r
    ensures forall x :: x in r ==> x.id in users && users[x.id] == x
  {
    FindAll(users, (x: User) => x.id)
  }

  /** `getUserByUsername`: the one user with that username, if any. */
  ghost function GetUserByUsername(users: map<nat, User>, username: string): (r: Result<Option<User>, Error>)
    ensures r == Success(None) <==> forall k :: k in users ==> users[k].username != Some(username)
    ensures r.Success? && r.value.Some? ==>
      exists k :: k in users && users[k] == r.value.value && users[k].username == Some(username)
    ensures |set k | k in users && users[k].username == Some(username)| == 1 ==> r.Success? && r.value.Some?
    ensures |set k | k in users && users[k].username == Some(username)| > 1 ==> r == Failure(Runtime(NotUnique))
  {
    var matching := set k | k in users && users[k].username == Some(username);
    assert forall k :: k in users && users[k].username == Some(username) ==> k in matching;
    if matching == {} then Success(None)
    else if |matching| > 1 then Failure(Runtime(NotUnique))
    else var k :| k in matching; Success(Some(users[k]))
  }

  /** `updateUser`: username, password, email and roles are overwritten,
      even with absent values; id and name are kept. A missing id fails
      and nothing changes. */
  method UpdateUser(db: Db, id: nat, user: User) returns (r: Result<User, Error>)
    requires db.Valid()
    modifies db`users
    ensures db.Valid()
    ensures id !in old(db.users) ==> r == Failure(Runtime(UserNotFoundWithId(id))) && db.users == old(db.users)
    ensures id in old(db.users) ==>
      var existing := old(db.users)[id];
      && r.Success? && db.users == old(db.users)[id := r.value]
      && r.value.id == existing.id && r.value.name == existing.name
      && r.value.username == user.username && r.value.password == user.password
      && r.value.email == user.email && r.value.roles == user.roles
  {
    if id !in db.users {
      return Failure(Runtime(UserNotFoundWithId(id)));
    }
    var existing := db.users[id];
    var updated := existing.(username := user.username, password := user.password,
                             email := user.email, roles := user.roles);
    db.users := db.users[id := updated];
    r := Success(updated);
  }

  /** `deleteUser`: removes that id only; an absent id is ignored. */
  method DeleteUser(db: Db, id: nat)
    requires db.Valid()
    modifies db`users
    ensures db.Valid()
    ensures db.users == old(db.users) - {id}
  {
    db.users := db.users - {id};
  }
}
