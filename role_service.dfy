/** The role service over the role and user tables. */
module RoleService {
  import opened Wrappers
  import opened Entities
  import opened Database

  const RoleNotFound: string := "Role not found"
  const UserNotFound: string := "User not found"
  /** What a derived single-result query throws when several rows match. */
  const NotUnique: string := "query did not return a unique result"

  /** The ids of the roles with the given name. */
  function RolesNamed(roles: map<nat, Role>, name: string): (r: set<nat>)
    ensures forall k :: k in r <==> k in roles && roles[k].name == Some(name)
  {
    set k | k in roles && roles[k].name == Some(name)
  }

  /** `createRole`: the role is stored under a new id. */
  method CreateRole(db: Db, role: Role) returns (r: Role)
    requires db.Valid()
    modifies db`roles, db`nextRoleId
    ensures db.Valid()
    ensures r == role.(id := old(db.nextRoleId)) && db.roles == old(db.roles)[r.id := r]
  {
    r := role.(id := db.nextRoleId);
    db.roles := db.roles[r.id := r];
    db.nextRoleId := db.nextRoleId + 1;
  }

  /** `updateRole`: an existing role gets the new name and keeps its id; a
      missing one fails and nothing changes. */
  method UpdateRole(db: Db, id: nat, role: Role) returns (r: Result<Role, Error>)
    requires db.Valid()
    modifies db`roles
    ensures db.Valid()
    ensures id !in old(db.roles) ==> r == Failure(Runtime(RoleNotFound)) && db.roles == old(db.roles)
    ensures id in old(db.roles) ==>
      r == Success(old(db.roles)[id].(name := role.name)) && db.roles == old(db.roles)[id := r.value]
  {
    if id !in db.roles {
      return Failure(Runtime(RoleNotFound));
    }
    var updated := db.roles[id].(name := role.name);
    db.roles := db.roles[id := updated];
    r := Success(updated);
  }

  /** `deleteRole`: removes that id only; an absent id is ignored. */
  method DeleteRole(db: Db, id: nat)
    requires db.Valid()
    modifies db`roles
    ensures db.Valid()
    ensures db.roles == old(db.roles) - {id}
  {
    db.roles := db.roles - {id};
  }

  /** `getRoleById` */
  function GetRoleById(roles: map<nat, Role>, id: nat): (r: Result<Role, Error>)
    ensures id in roles <==> r.Success?
    ensures r.Success? ==> r.value == roles[id]
    ensures r.Failure? ==> r.error == Runtime(RoleNotFound)
  {
    if id in roles then Success(roles[id]) else Failure(Runtime(RoleNotFound))
  }

  /** `getAllRoles` */
  function AllRoles(roles: map<nat, Role>): (r: set<Role>)
    requires forall k :: k in roles ==> roles[k].id == k
    ensures forall k :: k in roles ==> roles[k] in r
    ensures forall x :: x in r ==> x.id in roles && roles[x.id] == x
  {
    FindAll(roles, (x: Role) => x.id)
  }

  /** `assignRoleToUser`: the user is looked up first, then the role by
      name; on success the role joins that user's roles and no other user
      changes. */
  method AssignRoleToUser(db: Db, userId: nat, roleName: string) returns (r: Result<User, Error>)
    requires db.Valid()
    modifies db`users
    ensures db.Valid()
    ensures userId !in old(db.users) ==> r == Failure(EntityNotFound(UserNotFound))
    ensures userId in old(db.users) && RolesNamed(db.roles, roleName) == {} ==> r == Failure(EntityNotFound(RoleNotFound))
    ensures userId in old(db.users) && |RolesNamed(db.roles, roleName)| > 1 ==> r == Failure(Runtime(NotUnique))
    ensures r.Failure? ==> db.users == old(db.users)
    ensures r.Success? <==> userId in old(db.users) && |RolesNamed(db.roles, roleName)| == 1
    ensures r.Success? ==>
      exists roleId :: roleId in db.roles && db.roles[roleId].name == Some(roleName)
        && r.value == old(db.users)[userId].(roles := old(db.users)[userId].roles + {roleId})
        && db.users == old(db.users)[userId := r.value]
  {
    if userId !in db.users {
      return Failure(EntityNotFound(UserNotFound));
    }
    var matching := RolesNamed(db.roles, roleName);
    if matching == {} {
      return Failure(EntityNotFound(RoleNotFound));
    }
    if |matching| > 1 {
      return Failure(Runtime(NotUnique));
    }
    var roleId :| roleId in matching;
    var user := db.users[userId];
    var updated := user.(roles := user.roles + {roleId});
    db.users := db.users[userId := updated];
    r := Success(updated);
  }
}
