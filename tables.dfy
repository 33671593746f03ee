/** The gorm tables the RBAC services read and write (roles, role bindings, users, groups).
    A query that finds no row leaves the zero row, as gorm's `Find` does; a call whose kind is
    in the database's `faults` fails and changes nothing. Reads are functions of the table
    contents; writes are methods of the `Database` object holding them. */
module Tables {
  import opened Base
  import opened Models

  const RolesTable := "roles"
  const BindingsTable := "role_bindings"
  const UsersTable := "users"
  const GroupsTable := "groups"

  const EmptyUser := User("", "", "", [], false)
  const EmptyBinding := RoleBinding("", "", "", "", "", "", "", "", false)

  /** `Updates` with a zero primary key (gorm's ErrMissingWhereClause). */
  const MissingWhere := Failed("WHERE conditions required")

  /** A primary key gorm treats as unset. */
  predicate ZeroKey(id: string) {
    id == "" || id == NilUuid
  }

  // ---------------------------------------------------------------------
  // First-match-or-zero queries
  // ---------------------------------------------------------------------

  /** `Where("name = ?", name).Find(&role)` on the rows. */
  function FirstRoleNamed(rows: seq<Role>, name: string): (r: Role)
    ensures r != EmptyRole ==> r in rows && r.name == name
    ensures (exists i :: 0 <= i < |rows| && rows[i].name == name && rows[i] != EmptyRole) ==> r != EmptyRole
  {
    if rows == [] then EmptyRole
    else if rows[0].name == name && rows[0] != EmptyRole then rows[0]
    else
      assert forall i :: 1 <= i < |rows| ==> rows[i] == rows[1..][i - 1];
      FirstRoleNamed(rows[1..], name)
  }

  /** `Find(&role)` by primary key on the rows. */
  function FirstRoleWithId(rows: seq<Role>, id: string): (r: Role)
    ensures r != EmptyRole ==> r in rows && r.id == id
  {
    if rows == [] then EmptyRole
    else if rows[0].id == id then rows[0]
    else FirstRoleWithId(rows[1..], id)
  }

  function FirstBindingNamed(rows: seq<RoleBinding>, name: string): (r: RoleBinding)
    ensures r != EmptyBinding ==> r in rows && r.name == name
  {
    if rows == [] then EmptyBinding
    else if rows[0].name == name then rows[0]
    else FirstBindingNamed(rows[1..], name)
  }

  function FirstUserWithId(rows: seq<User>, id: string): (r: User)
    ensures r != EmptyUser ==> r in rows && r.id == id
  {
    if rows == [] then EmptyUser
    else if rows[0].id == id then rows[0]
    else FirstUserWithId(rows[1..], id)
  }

  function FirstGroupNamed(rows: seq<Group>, name: string): (r: Group)
    ensures r != EmptyGroup ==> r in rows && r.name == name
    ensures (exists i :: 0 <= i < |rows| && rows[i].name == name && rows[i] != EmptyGroup) ==> r != EmptyGroup
  {
    if rows == [] then EmptyGroup
    else if rows[0].name == name && rows[0] != EmptyGroup then rows[0]
    else
      assert forall i :: 1 <= i < |rows| ==> rows[i] == rows[1..][i - 1];
      FirstGroupNamed(rows[1..], name)
  }

  /** The rows whose primary key (read by `key`) is one of `ids`, in table order
      (`Find(&rows, ids)` on any table). */
  function RowsWithIds<T(!new)>(rows: seq<T>, key: T -> string, ids: seq<string>): (r: seq<T>)
    ensures forall x :: x in r <==> x in rows && key(x) in ids
  {
    if rows == [] then []
    else (if key(rows[0]) in ids then [rows[0]] else []) + RowsWithIds(rows[1..], key, ids)
  }

  // ---------------------------------------------------------------------
  // The lookups the RBAC services share
  // ---------------------------------------------------------------------

  function UserNotFound(id: string): Error {
    Failed("user " + id + " not found, please check uuid")
  }

  function BindingNotFound(name: string): Error {
    Failed("role_binding " + name + " not found, please check id")
  }

  /** `UserService.GetUser` (services/users_svc.go:57-69): by primary key; a row without a
      username is not found. */
  function GetUser(faults: set<Api>, rows: seq<User>, id: string): (r: Result<User>)
    ensures TableRead(UsersTable) in faults ==> r == Err(Unavailable(TableRead(UsersTable)))
    ensures TableRead(UsersTable) !in faults && r.Err? ==> r.error == UserNotFound(id)
    ensures r.Ok? ==> r.value in rows && r.value.id == id && r.value.username != ""
  {
    if TableRead(UsersTable) in faults then Err(Unavailable(TableRead(UsersTable)))
    else
      var user := FirstUserWithId(rows, id);
      if user.username == "" then Err(UserNotFound(id)) else Ok(user)
  }

  /** `RoleBindingService.GetRoleBinding` (services/role_bindings_svc.go:63-75): by name. */
  function GetRoleBinding(faults: set<Api>, rows: seq<RoleBinding>, name: string): (r: Result<RoleBinding>)
    ensures TableRead(BindingsTable) in faults ==> r == Err(Unavailable(TableRead(BindingsTable)))
    ensures TableRead(BindingsTable) !in faults && r.Err? ==> r.error == BindingNotFound(name)
    ensures r.Ok? ==> r.value in rows && r.value.name == name && name != ""
  {
    if TableRead(BindingsTable) in faults then Err(Unavailable(TableRead(BindingsTable)))
    else
      var binding := FirstBindingNamed(rows, name);
      if binding.name == "" then Err(BindingNotFound(name)) else Ok(binding)
  }

  // ---------------------------------------------------------------------
  // What `Updates` and `Delete` do to the rows
  // ---------------------------------------------------------------------

  /** The fields `Updates(role)` writes on the matching row: the non-zero ones, except the name,
      which is written only on creation. A Go slice is zero only when nil, so the request's
      list is written whenever `idsGiven` holds (the JSON field was present, `[]` included),
      and an empty list then clears the stored one. */
  function PatchRole(row: Role, role: Role, idsGiven: bool): (r: Role)
    ensures r.id == row.id && r.name == row.name
    ensures r.resource == (if role.resource != "" then role.resource else row.resource)
    ensures r.resourcesIds == (if idsGiven then role.resourcesIds else row.resourcesIds)
    ensures r.access == (if role.access != "" then role.access else row.access)
  {
    row.(resource := if role.resource != "" then role.resource else row.resource,
         resourcesIds := if idsGiven then role.resourcesIds else row.resourcesIds,
         access := if role.access != "" then role.access else row.access,
         builtin := row.builtin || role.builtin)
  }

  /** Every row with the role's primary key patched, the others untouched. */
  function PatchRoles(rows: seq<Role>, role: Role, idsGiven: bool): (r: seq<Role>)
    ensures |r| == |rows|
    ensures forall i :: 0 <= i < |rows| ==>
      r[i] == if rows[i].id == role.id then PatchRole(rows[i], role, idsGiven) else rows[i]
  {
    if rows == [] then []
    else [if rows[0].id == role.id then PatchRole(rows[0], role, idsGiven) else rows[0]] +
         PatchRoles(rows[1..], role, idsGiven)
  }

  /** The fields `Updates(group)` writes: the member list whenever `usersGiven` holds (a
      non-nil slice, `[]` included), the provider when non-empty. */
  function PatchGroup(row: Group, group: Group, usersGiven: bool): (r: Group)
    ensures r.id == row.id && r.name == row.name
    ensures r.users == (if usersGiven then group.users else row.users)
    ensures r.provider == (if group.provider != "" then group.provider else row.provider)
  {
    row.(provider := if group.provider != "" then group.provider else row.provider,
         users := if usersGiven then group.users else row.users,
         builtin := row.builtin || group.builtin)
  }

  function PatchGroups(rows: seq<Group>, group: Group, usersGiven: bool): (r: seq<Group>)
    ensures |r| == |rows|
    ensures forall i :: 0 <= i < |rows| ==>
      r[i] == if rows[i].id == group.id then PatchGroup(rows[i], group, usersGiven) else rows[i]
  {
    if rows == [] then []
    else [if rows[0].id == group.id then PatchGroup(rows[0], group, usersGiven) else rows[0]] +
         PatchGroups(rows[1..], group, usersGiven)
  }

  /** The rows without a given primary key. */
  function WithoutRole(rows: seq<Role>, id: string): (r: seq<Role>)
    ensures forall x :: x in r <==> x in rows && x.id != id
  {
    if rows == [] then []
    else (if rows[0].id == id then [] else [rows[0]]) + WithoutRole(rows[1..], id)
  }

  class Database {
    const faults: set<Api>
    /** `UserService.AddGroup` (its body is not part of this model): its verdict for a user and a group id. */
    const addGroup: (User, string) -> Option<Error>

    var roles: seq<Role>
    var roleBindings: seq<RoleBinding>
    var users: seq<User>
    var groups: seq<Group>
    /** The (user id, group id) pairs `AddGroup` has recorded, in call order. */
    var memberships: seq<(string, string)>

    constructor(faults: set<Api>, addGroup: (User, string) -> Option<Error>, roles: seq<Role>,
                roleBindings: seq<RoleBinding>, users: seq<User>, groups: seq<Group>)
      ensures this.faults == faults && this.addGroup == addGroup
      ensures this.roles == roles && this.roleBindings == roleBindings
      ensures this.users == users && this.groups == groups && this.memberships == []
    {
      this.faults := faults;
      this.addGroup := addGroup;
      this.roles := roles;
      this.roleBindings := roleBindings;
      this.users := users;
      this.groups := groups;
      this.memberships := [];
    }

    /** `Create(&role)`: the name is a unique index, and so is a primary key that is set. */
    method CreateRole(role: Role) returns (err: Option<Error>)
      modifies this
      ensures TableWrite(RolesTable) in faults ==> err == Some(Unavailable(TableWrite(RolesTable)))
      ensures TableWrite(RolesTable) !in faults ==>
        err == if exists i :: 0 <= i < |old(roles)| && (old(roles)[i].name == role.name || (!ZeroKey(role.id) && old(roles)[i].id == role.id))
               then Some(Conflict(role.name)) else None
      ensures err.None? ==> roles == old(roles) + [role]
      ensures err.Some? ==> roles == old(roles)
      ensures roleBindings == old(roleBindings) && users == old(users) && groups == old(groups)
      ensures memberships == old(memberships)
    {
      if TableWrite(RolesTable) in faults {
        return Some(Unavailable(TableWrite(RolesTable)));
      }
      if exists i :: 0 <= i < |roles| && (roles[i].name == role.name || (!ZeroKey(role.id) && roles[i].id == role.id)) {
        return Some(Conflict(role.name));
      }
      roles := roles + [role];
      err := None;
    }

    /** `Updates(role)`: the row with the role's primary key gets its non-zero fields;
        `idsGiven` says whether the role's id list is a non-nil slice. */
    method UpdateRole(role: Role, idsGiven: bool) returns (err: Option<Error>)
      modifies this
      ensures TableWrite(RolesTable) in faults ==> err == Some(Unavailable(TableWrite(RolesTable)))
      ensures TableWrite(RolesTable) !in faults && ZeroKey(role.id) ==> err == Some(MissingWhere)
      ensures err.None? <==> TableWrite(RolesTable) !in faults && !ZeroKey(role.id)
      ensures roles == if err.None? then PatchRoles(old(roles), role, idsGiven) else old(roles)
      ensures roleBindings == old(roleBindings) && users == old(users) && groups == old(groups)
      ensures memberships == old(memberships)
    {
      if TableWrite(RolesTable) in faults {
        return Some(Unavailable(TableWrite(RolesTable)));
      }
      if ZeroKey(role.id) {
        return Some(MissingWhere);
      }
      roles := PatchRoles(roles, role, idsGiven);
      err := None;
    }

    /** `Unscoped().Delete(&role)`: removes the rows with the role's primary key; without a
        primary key gorm refuses to delete every row. */
    method DeleteRole(role: Role) returns (err: Option<Error>)
      modifies this
      ensures TableWrite(RolesTable) in faults ==> err == Some(Unavailable(TableWrite(RolesTable)))
      ensures TableWrite(RolesTable) !in faults && ZeroKey(role.id) ==> err == Some(MissingWhere)
      ensures err.None? <==> TableWrite(RolesTable) !in faults && !ZeroKey(role.id)
      ensures roles == if err.None? then WithoutRole(old(roles), role.id) else old(roles)
      ensures roleBindings == old(roleBindings) && users == old(users) && groups == old(groups)
      ensures memberships == old(memberships)
    {
      if TableWrite(RolesTable) in faults {
        return Some(Unavailable(TableWrite(RolesTable)));
      }
      if ZeroKey(role.id) {
        return Some(MissingWhere);
      }
      roles := WithoutRole(roles, role.id);
      err := None;
    }

    /** `Updates(group)`; `usersGiven` says whether the member list is a non-nil slice. */
    method UpdateGroup(group: Group, usersGiven: bool) returns (err: Option<Error>)
      modifies this
      ensures TableWrite(GroupsTable) in faults ==> err == Some(Unavailable(TableWrite(GroupsTable)))
      ensures TableWrite(GroupsTable) !in faults && ZeroKey(group.id) ==> err == Some(MissingWhere)
      ensures err.None? <==> TableWrite(GroupsTable) !in faults && !ZeroKey(group.id)
      ensures groups == if err.None? then PatchGroups(old(groups), group, usersGiven) else old(groups)
      ensures roles == old(roles) && roleBindings == old(roleBindings) && users == old(users)
      ensures memberships == old(memberships)
    {
      if TableWrite(GroupsTable) in faults {
        return Some(Unavailable(TableWrite(GroupsTable)));
      }
      if ZeroKey(group.id) {
        return Some(MissingWhere);
      }
      groups := PatchGroups(groups, group, usersGiven);
      err := None;
    }

    /** `UserService.AddGroup(user, groupID)`: recorded when the service accepts it. */
    method AddGroup(user: User, groupId: string) returns (err: Option<Error>)
      modifies this
      ensures err == addGroup(user, groupId)
      ensures memberships == if err.None? then old(memberships) + [(user.id, groupId)] else old(memberships)
      ensures roles == old(roles) && roleBindings == old(roleBindings) && users == old(users) && groups == old(groups)
    {
      err := addGroup(user, groupId);
      if err.None? {
        memberships := memberships + [(user.id, groupId)];
      }
    }
  }
}
