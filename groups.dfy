/** services/groups_svc.go: listing and looking up groups, and adding users to a group
    with the duplicate-free membership list `RemoveDuplicates` builds. */
module Groups {
  import opened Base
  import opened Models
  import opened Tables

  function GroupNotFound(name: string): Error {
    Failed("group " + name + " not found, please check name")
  }

  /** `ListGroups` (services/groups_svc.go:37-55): nothing for an empty list, every row when the
      list holds "*" anywhere, otherwise the rows whose primary key the list holds. */
  function ListGroups(faults: set<Api>, rows: seq<Group>, authList: seq<string>): (r: Result<seq<Group>>)
    ensures |authList| == 0 ==> r == Ok([])
    ensures |authList| > 0 ==> (r.Err? <==> TableRead(GroupsTable) in faults)
    ensures r.Ok? && "*" in authList ==> r.value == rows
    ensures r.Ok? ==> forall x :: x in r.value <==> |authList| > 0 && x in rows && ("*" in authList || x.id in authList)
  {
    if |authList| == 0 then Ok([])
    else if TableRead(GroupsTable) in faults then Err(Unavailable(TableRead(GroupsTable)))
    else if "*" in authList then Ok(rows)
    else Ok(RowsWithIds(rows, (g: Group) => g.id, authList))
  }

  /** `GetGroup` (services/groups_svc.go:57-69): by name; a zero row is not found. */
  function GetGroup(faults: set<Api>, rows: seq<Group>, name: string): (r: Result<Group>)
    ensures TableRead(GroupsTable) in faults ==> r == Err(Unavailable(TableRead(GroupsTable)))
    ensures TableRead(GroupsTable) !in faults ==>
      (r.Ok? <==> name != "" && exists i :: 0 <= i < |rows| && rows[i].name == name)
    ensures TableRead(GroupsTable) !in faults && r.Err? ==> r.error == GroupNotFound(name)
    ensures r.Ok? ==> r.value == FirstGroupNamed(rows, name) && r.value in rows && r.value.name == name
  {
    if TableRead(GroupsTable) in faults then Err(Unavailable(TableRead(GroupsTable)))
    else
      var group := FirstGroupNamed(rows, name);
      if group.name == "" then Err(GroupNotFound(name)) else Ok(group)
  }

  // ---------------------------------------------------------------------
  // RemoveDuplicates
  // ---------------------------------------------------------------------

  /** Each element at its first occurrence only. */
  function Dedup(xs: seq<string>): seq<string> {
    if xs == [] then []
    else
      var init := xs[..|xs| - 1];
      Dedup(init) + (if xs[|xs| - 1] in init then [] else [xs[|xs| - 1]])
  }

  predicate Distinct(xs: seq<string>) {
    forall i, j :: 0 <= i < j < |xs| ==> xs[i] != xs[j]
  }

  /** `a` is `b` with some elements left out, the rest in the same order. */
  predicate Subsequence(a: seq<string>, b: seq<string>)
    decreases |b|
  {
    if a == [] then true
    else if b == [] then false
    else if a[0] == b[0] then Subsequence(a[1..], b[1..])
    else Subsequence(a, b[1..])
  }

  lemma {:induction false} DedupElements(xs: seq<string>)
    ensures forall x :: x in Dedup(xs) <==> x in xs
  {
    if xs != [] {
      var init := xs[..|xs| - 1];
      DedupElements(init);
      assert xs == init + [xs[|xs| - 1]];
    }
  }

  lemma {:induction false} DedupDistinct(xs: seq<string>)
    ensures Distinct(Dedup(xs))
  {
    if xs != [] {
      var init := xs[..|xs| - 1];
      DedupDistinct(init);
      DedupElements(init);
    }
  }

  lemma {:induction false} SubsequenceExtend(a: seq<string>, b: seq<string>, x: string)
    requires Subsequence(a, b)
    ensures Subsequence(a, b + [x])
    decreases |b|
  {
    if a != [] {
      assert (b + [x])[1..] == b[1..] + [x];
      if a[0] == b[0] {
        SubsequenceExtend(a[1..], b[1..], x);
      } else {
        SubsequenceExtend(a, b[1..], x);
      }
    }
  }

  lemma {:induction false} SubsequenceSnoc(a: seq<string>, b: seq<string>, x: string)
    requires Subsequence(a, b)
    ensures Subsequence(a + [x], b + [x])
    decreases |b|
  {
    if b == [] {
      assert a == [];
      var single: seq<string> := [x];
      assert single[1..] == [];
    } else if a == [] {
      assert (b + [x])[1..] == b[1..] + [x];
      if b[0] != x {
        SubsequenceSnoc(a, b[1..], x);
        assert a + [x] == [x];
      }
    } else {
      assert (a + [x])[1..] == a[1..] + [x];
      assert (b + [x])[1..] == b[1..] + [x];
      if a[0] == b[0] {
        SubsequenceSnoc(a[1..], b[1..], x);
      } else {
        SubsequenceSnoc(a, b[1..], x);
      }
    }
  }

  lemma {:induction false} DedupSubsequence(xs: seq<string>)
    ensures Subsequence(Dedup(xs), xs)
  {
    if xs != [] {
      var init := xs[..|xs| - 1];
      var last := xs[|xs| - 1];
      DedupSubsequence(init);
      assert xs == init + [last];
      if last in init {
        assert Dedup(xs) == Dedup(init) + [] == Dedup(init);
        SubsequenceExtend(Dedup(init), init, last);
      } else {
        SubsequenceSnoc(Dedup(init), init, last);
      }
    }
  }

  lemma {:induction false} DedupOfDistinct(xs: seq<string>)
    requires Distinct(xs)
    ensures Dedup(xs) == xs
  {
    if xs != [] {
      var init := xs[..|xs| - 1];
      assert Distinct(init);
      DedupOfDistinct(init);
      assert xs[|xs| - 1] !in init;
      assert xs == init + [xs[|xs| - 1]];
    }
  }

  /** Removing duplicates twice is removing them once. */
  lemma DedupIdempotent(xs: seq<string>)
    ensures Dedup(Dedup(xs)) == Dedup(xs)
  {
    DedupDistinct(xs);
    DedupOfDistinct(Dedup(xs));
  }

  /** `RemoveDuplicates` (services/groups_svc.go:145-155). */
  method RemoveDuplicates(strSlice: seq<string>) returns (list: seq<string>)
    ensures list == Dedup(strSlice)
    ensures Distinct(list) && Subsequence(list, strSlice)
    ensures forall x :: x in list <==> x in strSlice
  {
    var allKeys: map<string, bool> := map[];
    list := [];
    for i := 0 to |strSlice|
      invariant list == Dedup(strSlice[..i])
      invariant forall k :: k in allKeys <==> k in strSlice[..i]
    {
      assert strSlice[..i + 1][..i] == strSlice[..i];
      var item := strSlice[i];
      if item !in allKeys {
        allKeys := allKeys[item := true];
        list := list + [item];
      } else {
        assert list + [] == list;
      }
    }
    assert strSlice[..|strSlice|] == strSlice;
    DedupDistinct(strSlice);
    DedupSubsequence(strSlice);
    DedupElements(strSlice);
  }

  // ---------------------------------------------------------------------
  // UpdateGroup and AddUsers
  // ---------------------------------------------------------------------

  /** The error `Updates` reports for a group, if any. */
  function UpdateFailure(faults: set<Api>, group: Group): Option<Error> {
    if TableWrite(GroupsTable) in faults then Some(Unavailable(TableWrite(GroupsTable)))
    else if ZeroKey(group.id) then Some(MissingWhere)
    else None
  }

  /** After the patch, the first row with the group's name is the patched first row. */
  lemma {:induction false} PatchedGroupFirst(rows: seq<Group>, group: Group, usersGiven: bool)
    requires group.name != ""
    requires FirstGroupNamed(rows, group.name) != EmptyGroup
    requires FirstGroupNamed(rows, group.name).id == group.id
    ensures FirstGroupNamed(PatchGroups(rows, group, usersGiven), group.name) ==
      PatchGroup(FirstGroupNamed(rows, group.name), group, usersGiven)
  {
    var patched := PatchGroups(rows, group, usersGiven);
    assert patched[1..] == PatchGroups(rows[1..], group, usersGiven);
    if rows[0].name != group.name {
      PatchedGroupFirst(rows[1..], group, usersGiven);
    }
  }

  /** `UpdateGroup` (services/groups_svc.go:77-88): patch the row, then re-read it by name. */
  method UpdateGroup(db: Database, group: Group, usersGiven: bool) returns (r: Result<Group>)
    modifies db
    ensures UpdateFailure(db.faults, group).Some? ==> r == Err(UpdateFailure(db.faults, group).value) && db.groups == old(db.groups)
    ensures UpdateFailure(db.faults, group).None? ==>
      db.groups == PatchGroups(old(db.groups), group, usersGiven) && r == GetGroup(db.faults, db.groups, group.name)
    ensures (UpdateFailure(db.faults, group).None? && TableRead(GroupsTable) !in db.faults && group.name != "" &&
             FirstGroupNamed(old(db.groups), group.name) != EmptyGroup && FirstGroupNamed(old(db.groups), group.name).id == group.id) ==>
      r == Ok(PatchGroup(FirstGroupNamed(old(db.groups), group.name), group, usersGiven))
    ensures db.roles == old(db.roles) && db.roleBindings == old(db.roleBindings) && db.users == old(db.users)
    ensures db.memberships == old(db.memberships)
  {
    ghost var before := db.groups;
    var err := db.UpdateGroup(group, usersGiven);
    if err.Some? {
      return Err(err.value);
    }
    if TableRead(GroupsTable) !in db.faults && group.name != "" &&
       FirstGroupNamed(before, group.name) != EmptyGroup && FirstGroupNamed(before, group.name).id == group.id {
      PatchedGroupFirst(before, group, usersGiven);
    }
    r := GetGroup(db.faults, db.groups, group.name);
  }

  /** The memberships the loop of `AddUsers` records for `ids`, and the first failure, if any:
      each id is looked up and added in turn. */
  function Enrol(faults: set<Api>, users: seq<User>, addGroup: (User, string) -> Option<Error>, groupId: string, ids: seq<string>)
    : (r: (Option<Error>, seq<(string, string)>))
  {
    if ids == [] then (None, [])
    else match GetUser(faults, users, ids[0])
      case Err(e) => (Some(e), [])
      case Ok(user) =>
        match addGroup(user, groupId)
        case Some(e) => (Some(e), [])
        case None =>
          var rest := Enrol(faults, users, addGroup, groupId, ids[1..]);
          (rest.0, [(user.id, groupId)] + rest.1)
  }

  /** The memberships are recorded in request order, one per id up to the first failure,
      and one for every id when nothing fails. */
  lemma {:induction false} EnrolInOrder(faults: set<Api>, users: seq<User>, addGroup: (User, string) -> Option<Error>, groupId: string, ids: seq<string>)
    ensures var r := Enrol(faults, users, addGroup, groupId, ids);
      && |r.1| <= |ids|
      && (r.0.None? ==> |r.1| == |ids|)
      && forall k :: 0 <= k < |r.1| ==> r.1[k] == (ids[k], groupId)
  {
    if ids != [] {
      EnrolInOrder(faults, users, addGroup, groupId, ids[1..]);
    }
  }

  /** One iteration of the loop of `AddUsers`, as the recursion sees it. */
  lemma EnrolStep(faults: set<Api>, users: seq<User>, addGroup: (User, string) -> Option<Error>, groupId: string,
                  ids: seq<string>, i: nat)
    requires i < |ids|
    ensures var r := Enrol(faults, users, addGroup, groupId, ids[i..]);
      var rest := Enrol(faults, users, addGroup, groupId, ids[i + 1..]);
      var user := GetUser(faults, users, ids[i]);
      && (user.Err? ==> r == (Some(user.error), []))
      && (user.Ok? && addGroup(user.value, groupId).Some? ==> r == (addGroup(user.value, groupId), []))
      && (user.Ok? && addGroup(user.value, groupId).None? ==> r == (rest.0, [(user.value.id, groupId)] + rest.1))
  {
    assert ids[i..][1..] == ids[i + 1..];
    assert ids[i..][0] == ids[i];
  }

  /** The loop of `AddUsers` (services/groups_svc.go:97-107). */
  method EnrolEach(db: Database, groupId: string, ids: seq<string>) returns (err: Option<Error>)
    modifies db
    ensures err == Enrol(db.faults, old(db.users), db.addGroup, groupId, ids).0
    ensures db.memberships == old(db.memberships) + Enrol(db.faults, old(db.users), db.addGroup, groupId, ids).1
    ensures db.users == old(db.users) && db.groups == old(db.groups)
    ensures db.roles == old(db.roles) && db.roleBindings == old(db.roleBindings)
  {
    var faults, rows, addGroup := db.faults, db.users, db.addGroup;
    ghost var start := db.memberships;
    ghost var enrolled := Enrol(faults, rows, addGroup, groupId, ids);
    for i := 0 to |ids|
      invariant db.users == rows && db.groups == old(db.groups)
      invariant db.roles == old(db.roles) && db.roleBindings == old(db.roleBindings)
      invariant Enrol(faults, rows, addGroup, groupId, ids[i..]).0 == enrolled.0
      invariant db.memberships + Enrol(faults, rows, addGroup, groupId, ids[i..]).1 == start + enrolled.1
    {
      EnrolStep(faults, rows, addGroup, groupId, ids, i);
      var user := GetUser(faults, rows, ids[i]);
      if user.Err? {
        assert db.memberships + [] == db.memberships;
        return Some(user.error);
      }
      ghost var before := db.memberships;
      var added := db.AddGroup(user.value, groupId);
      if added.Some? {
        assert db.memberships + [] == db.memberships;
        return added;
      }
      ghost var rest := Enrol(faults, rows, addGroup, groupId, ids[i + 1..]);
      assert db.memberships + rest.1 == before + ([(user.value.id, groupId)] + rest.1);
    }
    assert ids[|ids|..] == [];
    assert db.memberships + [] == db.memberships;
    err := None;
  }

  /** `AddUsers` (services/groups_svc.go:90-117): every id is looked up and added to the group,
      in order, before the membership list becomes the old one and the new ids without
      duplicates; the first failure aborts (memberships already recorded stay). */
  method AddUsers(db: Database, groupName: string, users: seq<string>) returns (r: Result<Group>)
    modifies db
    ensures GetGroup(db.faults, old(db.groups), groupName).Err? ==>
      r == Err(GetGroup(db.faults, old(db.groups), groupName).error) && db.memberships == old(db.memberships) && db.groups == old(db.groups)
    ensures GetGroup(db.faults, old(db.groups), groupName).Ok? ==>
      var group := GetGroup(db.faults, old(db.groups), groupName).value;
      db.memberships == old(db.memberships) + Enrol(db.faults, old(db.users), db.addGroup, group.id, users).1
    ensures GetGroup(db.faults, old(db.groups), groupName).Ok? ==>
      var group := GetGroup(db.faults, old(db.groups), groupName).value;
      var enrolled := Enrol(db.faults, old(db.users), db.addGroup, group.id, users);
      enrolled.0.Some? ==> r == Err(enrolled.0.value) && db.groups == old(db.groups)
    ensures GetGroup(db.faults, old(db.groups), groupName).Ok? ==>
      var group := GetGroup(db.faults, old(db.groups), groupName).value;
      var enrolled := Enrol(db.faults, old(db.users), db.addGroup, group.id, users);
      var updated := group.(users := Dedup(group.users + users));
      enrolled.0.None? && UpdateFailure(db.faults, updated).Some? ==>
        r == Err(UpdateFailure(db.faults, updated).value) && db.groups == old(db.groups)
    ensures GetGroup(db.faults, old(db.groups), groupName).Ok? ==>
      var group := GetGroup(db.faults, old(db.groups), groupName).value;
      var enrolled := Enrol(db.faults, old(db.users), db.addGroup, group.id, users);
      var updated := group.(users := Dedup(group.users + users));
      enrolled.0.None? && UpdateFailure(db.faults, updated).None? ==>
        && db.groups == PatchGroups(old(db.groups), updated, true)
        && r == Ok(updated)
    ensures r.Ok? ==> Distinct(r.value.users) && forall id :: id in users ==> id in r.value.users
    ensures db.roles == old(db.roles) && db.roleBindings == old(db.roleBindings) && db.users == old(db.users)
  {
    var found := GetGroup(db.faults, db.groups, groupName);
    if found.Err? {
      return Err(found.error);
    }
    var group := found.value;
    var err := EnrolEach(db, group.id, users);
    if err.Some? {
      return Err(err.value);
    }
    var list := RemoveDuplicates(group.users + users);
    group := group.(users := list);
    DedupDistinct(found.value.users + users);
    DedupElements(found.value.users + users);
    assert PatchGroup(found.value, group, true) == group;
    r := UpdateGroup(db, group, true);
  }
}
