/** services/roles_svc.go: listing and looking up roles, the referential check every
    role's resource ids must pass before a write, and the guards before a role is deleted. */
module Roles {
  import opened Base
  import opened Models
  import opened Kube
  import opened Tables

  function RoleNotFound(name: string): Error {
    Failed("role " + name + " not found, please check id")
  }

  function RoleBound(bindingId: string): Error {
    Failed("role is bound via role_binding: " + bindingId + " , please delete that first")
  }

  const BuiltinRole := Failed("cannot delete builtin resource")

  /** The resource kinds whose ids name database rows; every other kind names a ConfigMap. */
  const StoredKinds: set<string> := {"users", "roles", "role_bindings"}

  /** `ListRoles` (services/roles_svc.go:40-56): nothing for an empty list, every row when the
      list holds "*" anywhere, otherwise the rows whose primary key the list holds. */
  function ListRoles(faults: set<Api>, rows: seq<Role>, authList: seq<string>): (r: Result<seq<Role>>)
    ensures |authList| == 0 ==> r == Ok([])
    ensures |authList| > 0 ==> (r.Err? <==> TableRead(RolesTable) in faults)
    ensures r.Ok? && "*" in authList ==> r.value == rows
    ensures r.Ok? ==> forall x :: x in r.value <==> |authList| > 0 && x in rows && ("*" in authList || x.id in authList)
  {
    if |authList| == 0 then Ok([])
    else if TableRead(RolesTable) in faults then Err(Unavailable(TableRead(RolesTable)))
    else if "*" in authList then Ok(rows)
    else Ok(RowsWithIds(rows, (role: Role) => role.id, authList))
  }

  /** `GetRole` (services/roles_svc.go:58-70): by NAME, whatever the parameter is called; a
      zero row (empty name) is not found. */
  function GetRole(faults: set<Api>, rows: seq<Role>, name: string): (r: Result<Role>)
    ensures TableRead(RolesTable) in faults ==> r == Err(Unavailable(TableRead(RolesTable)))
    ensures TableRead(RolesTable) !in faults ==>
      (r.Ok? <==> name != "" && exists i :: 0 <= i < |rows| && rows[i].name == name)
    ensures TableRead(RolesTable) !in faults && r.Err? ==> r.error == RoleNotFound(name)
    ensures r.Ok? ==> r.value in rows && r.value.name == name
  {
    if TableRead(RolesTable) in faults then Err(Unavailable(TableRead(RolesTable)))
    else
      var role := FirstRoleNamed(rows, name);
      if role.name == "" then Err(RoleNotFound(name)) else Ok(role)
  }

  // ---------------------------------------------------------------------
  // CheckRole
  // ---------------------------------------------------------------------

  /** What a ConfigMap must hold to be the kind of resource a role names: runners carry an
      image, tasks and jobs a runner. */
  predicate Describes(resource: string, data: Record) {
    && (resource == "runners" ==> Get(data, "image") != "")
    && (resource == "tasks" ==> Get(data, "runner") != "")
    && (resource == "jobs" ==> Get(data, "runner") != "")
  }

  function KindMismatch(resource: string, id: string): Error {
    Failed((if resource == "runners" then "runner" else if resource == "tasks" then "task" else "job") + " " + id + " not found")
  }

  /** The check one resource id of a role must pass (one iteration of services/roles_svc.go:126-174). */
  function CheckId(db: Database, kube: Cluster, resource: string, id: string): (r: Option<Error>)
    reads db, kube
    ensures resource == "users" ==> (r.None? <==> GetUser(db.faults, db.users, id).Ok?)
    ensures resource == "roles" ==> (r.None? <==> GetRole(db.faults, db.roles, id).Ok?)
    ensures resource == "role_bindings" ==> (r.None? <==> GetRoleBinding(db.faults, db.roleBindings, id).Ok?)
    ensures resource !in StoredKinds ==>
      (r.None? <==> kube.GetConfigMap(id).Ok? && Describes(resource, kube.GetConfigMap(id).value))
    ensures resource !in StoredKinds && kube.GetConfigMap(id).Ok? && r.Some? ==> r.value == KindMismatch(resource, id)
  {
    if resource == "users" then
      match GetUser(db.faults, db.users, id)
      case Err(e) => Some(e)
      case Ok(_) => None
    else if resource == "roles" then
      match GetRole(db.faults, db.roles, id)
      case Err(e) => Some(e)
      case Ok(_) => None
    else if resource == "role_bindings" then
      match GetRoleBinding(db.faults, db.roleBindings, id)
      case Err(e) => Some(e)
      case Ok(_) => None
    else
      match kube.GetConfigMap(id)
      case Err(e) => Some(e)
      case Ok(data) => if Describes(resource, data) then None else Some(KindMismatch(resource, id))
  }

  /** The first failing check over a role's resource ids, in order. */
  function FirstFailure(db: Database, kube: Cluster, resource: string, ids: seq<string>): (r: Option<Error>)
    reads db, kube
    ensures r.None? <==> forall i :: 0 <= i < |ids| ==> CheckId(db, kube, resource, ids[i]).None?
    ensures r.Some? ==> exists i :: 0 <= i < |ids| && CheckId(db, kube, resource, ids[i]) == r &&
                                   forall j :: 0 <= j < i ==> CheckId(db, kube, resource, ids[j]).None?
  {
    if ids == [] then None
    else
      assert forall i :: 1 <= i < |ids| ==> ids[i] == ids[1..][i - 1];
      match CheckId(db, kube, resource, ids[0])
      case Some(e) => Some(e)
      case None =>
        var rest := FirstFailure(db, kube, resource, ids[1..]);
        if rest.Some? then
          var k :| 0 <= k < |ids[1..]| && CheckId(db, kube, resource, ids[1..][k]) == rest &&
            forall j :: 0 <= j < k ==> CheckId(db, kube, resource, ids[1..][j]).None?;
          assert CheckId(db, kube, resource, ids[k + 1]) == rest;
          rest
        else rest
  }

  /** `CheckRole` (services/roles_svc.go:126-174): every resource id must resolve for its kind;
      the first failure is returned. */
  method CheckRole(db: Database, kube: Cluster, role: Role) returns (err: Option<Error>)
    ensures err == FirstFailure(db, kube, role.resource, role.resourcesIds)
  {
    var ids := role.resourcesIds;
    for i := 0 to |ids|
      invariant FirstFailure(db, kube, role.resource, ids) == FirstFailure(db, kube, role.resource, ids[i..])
    {
      assert ids[i..][1..] == ids[i + 1..];
      var id := ids[i];
      if role.resource == "users" {
        var user := GetUser(db.faults, db.users, id);
        if user.Err? {
          return Some(user.error);
        }
      } else if role.resource == "roles" {
        var found := GetRole(db.faults, db.roles, id);
        if found.Err? {
          return Some(found.error);
        }
      } else if role.resource == "role_bindings" {
        var binding := GetRoleBinding(db.faults, db.roleBindings, id);
        if binding.Err? {
          return Some(binding.error);
        }
      } else {
        var configMap := kube.GetConfigMap(id);
        if configMap.Err? {
          return Some(configMap.error);
        }
        if role.resource == "runners" {
          if Get(configMap.value, "image") == "" {
            return Some(KindMismatch(role.resource, id));
          }
        } else if role.resource == "tasks" {
          if Get(configMap.value, "runner") == "" {
            return Some(KindMismatch(role.resource, id));
          }
        } else if role.resource == "jobs" {
          if Get(configMap.value, "runner") == "" {
            return Some(KindMismatch(role.resource, id));
          }
        }
      }
    }
    assert ids[|ids|..] == [];
    err := None;
  }

  /** `CreateRole` (services/roles_svc.go:72-80): nothing is written unless every resource id
      checks out. */
  method CreateRole(db: Database, kube: Cluster, role: Role) returns (r: Result<Role>)
    modifies db
    ensures old(FirstFailure(db, kube, role.resource, role.resourcesIds)).Some? ==>
      r == Err(old(FirstFailure(db, kube, role.resource, role.resourcesIds)).value) && db.roles == old(db.roles)
    ensures r.Ok? ==> r.value == role && old(FirstFailure(db, kube, role.resource, role.resourcesIds)).None?
    ensures db.roles == if r.Ok? then old(db.roles) + [role] else old(db.roles)
    ensures old(FirstFailure(db, kube, role.resource, role.resourcesIds)).None? && TableWrite(RolesTable) !in db.faults &&
      (forall i :: 0 <= i < |old(db.roles)| ==> old(db.roles)[i].name != role.name && (ZeroKey(role.id) || old(db.roles)[i].id != role.id))
      ==> r == Ok(role)
    ensures db.roleBindings == old(db.roleBindings) && db.users == old(db.users) && db.groups == old(db.groups)
    ensures db.memberships == old(db.memberships)
  {
    var err := CheckRole(db, kube, role);
    if err.Some? {
      return Err(err.value);
    }
    err := db.CreateRole(role);
    r := if err.None? then Ok(role) else Err(err.value);
  }

  // ---------------------------------------------------------------------
  // UpdateRole
  // ---------------------------------------------------------------------

  /** The error `Updates` reports for a role, if any. */
  function UpdateFailure(faults: set<Api>, role: Role): Option<Error> {
    if TableWrite(RolesTable) in faults then Some(Unavailable(TableWrite(RolesTable)))
    else if ZeroKey(role.id) then Some(MissingWhere)
    else None
  }

  /** `UpdateRole` as written (services/roles_svc.go:82-98): after the update it re-reads the
      role with `GetRole(role.ID.String())`, a lookup by NAME with the role's uuid. `idsGiven`
      says whether the request's `resources_ids` decoded to a non-nil slice. */
  method UpdateRoleAsWritten(db: Database, kube: Cluster, role: Role, idsGiven: bool) returns (r: Result<Role>)
    modifies db
    ensures old(FirstFailure(db, kube, role.resource, role.resourcesIds)).Some? ==>
      r == Err(old(FirstFailure(db, kube, role.resource, role.resourcesIds)).value) && db.roles == old(db.roles)
    ensures old(FirstFailure(db, kube, role.resource, role.resourcesIds)).None? && UpdateFailure(db.faults, role).Some? ==>
      r == Err(UpdateFailure(db.faults, role).value) && db.roles == old(db.roles)
    ensures old(FirstFailure(db, kube, role.resource, role.resourcesIds)).None? && UpdateFailure(db.faults, role).None? ==>
      db.roles == PatchRoles(old(db.roles), role, idsGiven) && r == GetRole(db.faults, db.roles, role.id)
    ensures db.roleBindings == old(db.roleBindings) && db.users == old(db.users) && db.groups == old(db.groups)
    ensures db.memberships == old(db.memberships)
  {
    var err := CheckRole(db, kube, role);
    if err.Some? {
      return Err(err.value);
    }
    err := db.UpdateRole(role, idsGiven);
    if err.Some? {
      return Err(err.value);
    }
    r := GetRole(db.faults, db.roles, role.id);
  }

  /** A concrete run of the code as written: the update is applied, yet the caller is told the
      role does not exist, because no role is named after its own uuid. */
  lemma UpdateRoleReportsNotFound()
    ensures var id := "6f0c8a4e-0d3b-4c1e-9a57-2b8f1d9c3e10";
      var rows := [Role(id, "ops", "tasks", ["*"], "read", false)];
      var role := Role(id, "ops", "tasks", ["build"], "write", false);
      && PatchRoles(rows, role, true) == [Role(id, "ops", "tasks", ["build"], "write", false)]
      && GetRole({}, PatchRoles(rows, role, true), id) == Err(RoleNotFound(id))
  {
    var id := "6f0c8a4e-0d3b-4c1e-9a57-2b8f1d9c3e10";
    var rows := [Role(id, "ops", "tasks", ["*"], "read", false)];
    var role := Role(id, "ops", "tasks", ["build"], "write", false);
    var patched := PatchRoles(rows, role, true);
    assert patched[0] == Role(id, "ops", "tasks", ["build"], "write", false);
    assert patched[0].name != id;
    assert FirstRoleNamed(patched, id) == EmptyRole;
  }

  /** The corrected re-read: by primary key, as the update itself. */
  function RoleWithId(faults: set<Api>, rows: seq<Role>, id: string): (r: Result<Role>)
    ensures TableRead(RolesTable) in faults ==> r == Err(Unavailable(TableRead(RolesTable)))
    ensures TableRead(RolesTable) !in faults && FirstRoleWithId(rows, id).name != "" ==> r == Ok(FirstRoleWithId(rows, id))
    ensures r.Ok? ==> r.value in rows && r.value.id == id
  {
    if TableRead(RolesTable) in faults then Err(Unavailable(TableRead(RolesTable)))
    else
      var role := FirstRoleWithId(rows, id);
      if role.name == "" then Err(RoleNotFound(id)) else Ok(role)
  }

  /** After the patch, the first row with the role's key is the patched first row. */
  lemma {:induction false} PatchedRowFirst(rows: seq<Role>, role: Role, idsGiven: bool)
    requires FirstRoleWithId(rows, role.id).name != ""
    ensures FirstRoleWithId(PatchRoles(rows, role, idsGiven), role.id) == PatchRole(FirstRoleWithId(rows, role.id), role, idsGiven)
  {
    var patched := PatchRoles(rows, role, idsGiven);
    assert patched[1..] == PatchRoles(rows[1..], role, idsGiven);
    if rows[0].id != role.id {
      PatchedRowFirst(rows[1..], role, idsGiven);
    }
  }

  /** The corrected re-read answers the row the update wrote. */
  lemma UpdateRoleReturnsPatched(faults: set<Api>, rows: seq<Role>, role: Role, idsGiven: bool)
    requires TableRead(RolesTable) !in faults
    requires FirstRoleWithId(rows, role.id).name != ""
    ensures RoleWithId(faults, PatchRoles(rows, role, idsGiven), role.id) ==
      Ok(PatchRole(FirstRoleWithId(rows, role.id), role, idsGiven))
  {
    PatchedRowFirst(rows, role, idsGiven);
  }

  /** `UpdateRole` with the re-read by primary key: when the row exists, the caller gets the
      row as updated. */
  method UpdateRole(db: Database, kube: Cluster, role: Role, idsGiven: bool) returns (r: Result<Role>)
    modifies db
    ensures old(FirstFailure(db, kube, role.resource, role.resourcesIds)).Some? ==>
      r == Err(old(FirstFailure(db, kube, role.resource, role.resourcesIds)).value) && db.roles == old(db.roles)
    ensures old(FirstFailure(db, kube, role.resource, role.resourcesIds)).None? && UpdateFailure(db.faults, role).Some? ==>
      r == Err(UpdateFailure(db.faults, role).value) && db.roles == old(db.roles)
    ensures old(FirstFailure(db, kube, role.resource, role.resourcesIds)).None? && UpdateFailure(db.faults, role).None? ==>
      db.roles == PatchRoles(old(db.roles), role, idsGiven) && r == RoleWithId(db.faults, db.roles, role.id)
    ensures (old(FirstFailure(db, kube, role.resource, role.resourcesIds)).None? && UpdateFailure(db.faults, role).None? &&
             TableRead(RolesTable) !in db.faults && FirstRoleWithId(old(db.roles), role.id).name != "") ==>
      r == Ok(PatchRole(FirstRoleWithId(old(db.roles), role.id), role, idsGiven))
    ensures db.roleBindings == old(db.roleBindings) && db.users == old(db.users) && db.groups == old(db.groups)
    ensures db.memberships == old(db.memberships)
  {
    var err := CheckRole(db, kube, role);
    if err.Some? {
      return Err(err.value);
    }
    ghost var before := db.roles;
    err := db.UpdateRole(role, idsGiven);
    if err.Some? {
      return Err(err.value);
    }
    r := RoleWithId(db.faults, db.roles, role.id);
    if TableRead(RolesTable) !in db.faults && FirstRoleWithId(before, role.id).name != "" {
      UpdateRoleReturnsPatched(db.faults, before, role, idsGiven);
    }
  }

  // ---------------------------------------------------------------------
  // DeleteRole
  // ---------------------------------------------------------------------

  /** Every role binding names a role that exists. */
  ghost predicate BindingsResolve(roles: seq<Role>, bindings: seq<RoleBinding>) {
    forall b :: b in bindings ==> exists r :: r in roles && r.id == b.roleId
  }

  /** The first binding of a role, in table order. */
  function FirstBoundTo(bindings: seq<RoleBinding>, roleId: string): (r: Option<RoleBinding>)
    ensures r.None? <==> forall i :: 0 <= i < |bindings| ==> bindings[i].roleId != roleId
    ensures r.Some? ==> r.value in bindings && r.value.roleId == roleId
  {
    if bindings == [] then None
    else if bindings[0].roleId == roleId then Some(bindings[0])
    else
      assert forall i :: 1 <= i < |bindings| ==> bindings[i] == bindings[1..][i - 1];
      FirstBoundTo(bindings[1..], roleId)
  }

  /** A forward scan that stops at index `i` has found the first binding. */
  lemma {:induction false} FirstBoundAt(bindings: seq<RoleBinding>, roleId: string, i: nat)
    requires i < |bindings| && bindings[i].roleId == roleId
    requires forall j :: 0 <= j < i ==> bindings[j].roleId != roleId
    ensures FirstBoundTo(bindings, roleId) == Some(bindings[i])
  {
    if i > 0 {
      FirstBoundAt(bindings[1..], roleId, i - 1);
    }
  }

  /** The role `DeleteRole` as written removes, or its error (services/roles_svc.go:100-122):
      the bindings are listed, any binding whose role id equals the PARAMETER refuses, then the
      role is looked up by NAME with that same parameter, and a builtin role is refused. */
  function DeleteTargetAsWritten(faults: set<Api>, roles: seq<Role>, bindings: seq<RoleBinding>, id: string): (r: Result<Role>)
    ensures TableRead(BindingsTable) in faults ==> r == Err(Unavailable(TableRead(BindingsTable)))
    ensures r.Ok? ==> r.value in roles && r.value.name == id && !r.value.builtin
    ensures r.Ok? ==> forall b :: b in bindings ==> b.roleId != id
  {
    if TableRead(BindingsTable) in faults then Err(Unavailable(TableRead(BindingsTable)))
    else match FirstBoundTo(bindings, id)
      case Some(b) => Err(RoleBound(b.id))
      case None =>
        match GetRole(faults, roles, id)
        case Err(e) => Err(e)
        case Ok(role) => if role.builtin then Err(BuiltinRole) else Ok(role)
  }

  /** Asked by name, the code as written removes a role that a binding still refers to,
      whenever the role's name is not its uuid. */
  lemma DeleteByNameOrphans(role: Role, binding: RoleBinding)
    requires role.name != "" && role.name != role.id && !role.builtin && binding.roleId == role.id
    ensures BindingsResolve([role], [binding])
    ensures DeleteTargetAsWritten({}, [role], [binding], role.name) == Ok(role)
    ensures !BindingsResolve(WithoutRole([role], role.id), [binding])
  {
    assert role in [role];
    assert FirstRoleNamed([role], role.name) == role;
    assert WithoutRole([role], role.id) == [];
  }

  /** A concrete run of that: deleting "ops" leaves "ops-binding" dangling. */
  lemma DeleteRoleOrphansBinding()
    ensures var id := "6f0c8a4e-0d3b-4c1e-9a57-2b8f1d9c3e10";
      var role := Role(id, "ops", "tasks", ["*"], "read", false);
      var binding := RoleBinding("0d9e1b7a", "ops-binding", id, "ops", "groups", "local", "8c3f2e1d", "operators", false);
      && BindingsResolve([role], [binding])
      && DeleteTargetAsWritten({}, [role], [binding], "ops") == Ok(role)
      && !BindingsResolve(WithoutRole([role], id), [binding])
  {
    var id := "6f0c8a4e-0d3b-4c1e-9a57-2b8f1d9c3e10";
    var role := Role(id, "ops", "tasks", ["*"], "read", false);
    var binding := RoleBinding("0d9e1b7a", "ops-binding", id, "ops", "groups", "local", "8c3f2e1d", "operators", false);
    assert role.name != role.id by {
      assert role.name[0] != role.id[0];
    }
    DeleteByNameOrphans(role, binding);
  }

  /** And asked by uuid, it cannot find the role at all. */
  lemma DeleteRoleByIdNotFound()
    ensures var id := "6f0c8a4e-0d3b-4c1e-9a57-2b8f1d9c3e10";
      DeleteTargetAsWritten({}, [Role(id, "ops", "tasks", ["*"], "read", false)], [], id) == Err(RoleNotFound(id))
  {
    var id := "6f0c8a4e-0d3b-4c1e-9a57-2b8f1d9c3e10";
    var role := Role(id, "ops", "tasks", ["*"], "read", false);
    assert role.name != id by {
      assert role.name[0] != id[0];
    }
    assert FirstRoleNamed([role], id) == EmptyRole by {
      assert [role][1..] == [];
    }
  }

  /** The corrected guard: the role is looked up first and the bindings are compared with its
      primary key. */
  function DeleteTarget(faults: set<Api>, roles: seq<Role>, bindings: seq<RoleBinding>, name: string): (r: Result<Role>)
    ensures TableRead(BindingsTable) in faults ==> r == Err(Unavailable(TableRead(BindingsTable)))
    ensures r.Ok? ==> r.value in roles && r.value.name == name && !r.value.builtin
    ensures r.Ok? ==> forall b :: b in bindings ==> b.roleId != r.value.id
  {
    if TableRead(BindingsTable) in faults then Err(Unavailable(TableRead(BindingsTable)))
    else match GetRole(faults, roles, name)
      case Err(e) => Err(e)
      case Ok(role) =>
        match FirstBoundTo(bindings, role.id)
        case Some(b) => Err(RoleBound(b.id))
        case None => if role.builtin then Err(BuiltinRole) else Ok(role)
  }

  /** Deleting the corrected target never leaves a binding without its role. */
  lemma DeleteKeepsBindingsResolved(faults: set<Api>, roles: seq<Role>, bindings: seq<RoleBinding>, name: string)
    requires BindingsResolve(roles, bindings)
    requires DeleteTarget(faults, roles, bindings, name).Ok?
    ensures BindingsResolve(WithoutRole(roles, DeleteTarget(faults, roles, bindings, name).value.id), bindings)
  {
    var target := DeleteTarget(faults, roles, bindings, name).value;
    forall b | b in bindings
      ensures exists r :: r in WithoutRole(roles, target.id) && r.id == b.roleId
    {
      var r :| r in roles && r.id == b.roleId;
      assert r in WithoutRole(roles, target.id);
    }
  }

  /** `DeleteRole` as written. */
  method DeleteRoleAsWritten(db: Database, id: string) returns (err: Option<Error>)
    modifies db
    ensures match DeleteTargetAsWritten(db.faults, old(db.roles), old(db.roleBindings), id)
      case Err(e) => err == Some(e) && db.roles == old(db.roles)
      case Ok(role) =>
        && (err.None? <==> TableWrite(RolesTable) !in db.faults && !ZeroKey(role.id))
        && db.roles == if err.None? then WithoutRole(old(db.roles), role.id) else old(db.roles)
    ensures db.roleBindings == old(db.roleBindings) && db.users == old(db.users) && db.groups == old(db.groups)
    ensures db.memberships == old(db.memberships)
  {
    // ListRoleBindings([]string{"*"}, nil): every row
    if TableRead(BindingsTable) in db.faults {
      return Some(Unavailable(TableRead(BindingsTable)));
    }
    var roleBindings := db.roleBindings;
    for i := 0 to |roleBindings|
      invariant forall j :: 0 <= j < i ==> roleBindings[j].roleId != id
    {
      if roleBindings[i].roleId == id {
        FirstBoundAt(roleBindings, id, i);
        return Some(RoleBound(roleBindings[i].id));
      }
    }
    var role := GetRole(db.faults, db.roles, id);
    if role.Err? {
      return Some(role.error);
    }
    if role.value.builtin {
      return Some(BuiltinRole);
    }
    err := db.DeleteRole(role.value);
  }

  /** `DeleteRole` with the corrected guard: a role still bound is never removed. */
  method DeleteRole(db: Database, name: string) returns (err: Option<Error>)
    modifies db
    ensures match DeleteTarget(db.faults, old(db.roles), old(db.roleBindings), name)
      case Err(e) => err == Some(e) && db.roles == old(db.roles)
      case Ok(role) =>
        && (err.None? <==> TableWrite(RolesTable) !in db.faults && !ZeroKey(role.id))
        && db.roles == if err.None? then WithoutRole(old(db.roles), role.id) else old(db.roles)
    ensures BindingsResolve(old(db.roles), old(db.roleBindings)) ==> BindingsResolve(db.roles, db.roleBindings)
    ensures db.roleBindings == old(db.roleBindings) && db.users == old(db.users) && db.groups == old(db.groups)
    ensures db.memberships == old(db.memberships)
  {
    if TableRead(BindingsTable) in db.faults {
      return Some(Unavailable(TableRead(BindingsTable)));
    }
    var role := GetRole(db.faults, db.roles, name);
    if role.Err? {
      return Some(role.error);
    }
    var roleBindings := db.roleBindings;
    for i := 0 to |roleBindings|
      invariant forall j :: 0 <= j < i ==> roleBindings[j].roleId != role.value.id
    {
      if roleBindings[i].roleId == role.value.id {
        FirstBoundAt(roleBindings, role.value.id, i);
        return Some(RoleBound(roleBindings[i].id));
      }
    }
    if role.value.builtin {
      return Some(BuiltinRole);
    }
    if BindingsResolve(db.roles, db.roleBindings) {
      DeleteKeepsBindingsResolved(db.faults, db.roles, db.roleBindings, name);
    }
    err := db.DeleteRole(role.value);
  }
}
