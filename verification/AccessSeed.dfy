/** The boot-time seed of permissions, built-in roles and their bindings, and of the administrator. */
module AccessSeed {
  import opened Common
  import opened AccessModel
  import opened AccessOps

  predicate HasCode(db: Db, p: Id, code: string) { p in db.permissions && db.permissions[p].code == code }

  predicate IsGlobal(db: Db, r: Id, code: string) {
    r in db.roles && db.roles[r].tenant == None && db.roles[r].code == code
  }

  /** Enables the permission with this code, or creates it. */
  function UpsertPermission(db: Db, code: string, newId: Id): (r: Db)
    ensures r == db.(permissions := r.permissions)
  {
    if exists p :: p in db.permissions && HasCode(db, p, code) then
      db.(permissions := map p | p in db.permissions ::
                           if db.permissions[p].code == code then Permission(code, true) else db.permissions[p])
    else db.(permissions := db.permissions[newId := Permission(code, true)])
  }

  /** Deletes permissions with any other code, and their bindings with them. */
  function PrunePermissions(db: Db, codes: seq<string>): Db {
    var kept := map p | p in db.permissions && db.permissions[p].code in codes :: db.permissions[p];
    db.(permissions := kept, bindings := map b | b in db.bindings && b.permission in kept :: db.bindings[b])
  }

  /** Restores the global role with this code, or creates it. */
  function UpsertRole(db: Db, code: string, newId: Id): (r: Db)
    ensures r == db.(roles := r.roles)
  {
    if exists r :: r in db.roles && IsGlobal(db, r, code) then
      db.(roles := map r | r in db.roles ::
                     if IsGlobal(db, r, code) then Role(None, code, true, true) else db.roles[r])
    else db.(roles := db.roles[newId := Role(None, code, true, true)])
  }

  /** `createMany` with `skipDuplicates`: binds what is missing, leaves switched-off rows off. */
  function GrantMissing(db: Db, code: string, ids: set<Id>): Db {
    var added := map r, p | r in db.roles && IsGlobal(db, r, code) && p in ids && Binding(r, p) !in db.bindings ::
                   Binding(r, p) := true;
    db.(bindings := db.bindings + added)
  }

  function UpsertPermissions(db: Db, codes: seq<string>, ids: seq<Id>): (r: Db)
    requires |ids| == |codes|
    ensures r == db.(permissions := r.permissions)
  {
    if codes == [] then db
    else
      var n := |codes| - 1;
      UpsertPermission(UpsertPermissions(db, codes[..n], ids[..n]), codes[n], ids[n])
  }

  function UpsertRoles(db: Db, codes: seq<string>, ids: seq<Id>): (r: Db)
    requires |ids| == |codes|
    ensures r == db.(roles := r.roles)
  {
    if codes == [] then db
    else
      var n := |codes| - 1;
      UpsertRole(UpsertRoles(db, codes[..n], ids[..n]), codes[n], ids[n])
  }

  function IdsWithCodes(db: Db, codes: seq<string>): set<Id> {
    set p | p in db.permissions && db.permissions[p].code in codes
  }

  /** `seedAccessModel`. */
  function Seed(db: Db, permissionIds: seq<Id>, roleIds: seq<Id>): (r: Db)
    requires |permissionIds| == |BUILT_IN_PERMISSIONS| && |roleIds| == |BUILT_IN_ROLES|
    ensures r == db.(permissions := r.permissions, roles := r.roles, bindings := r.bindings)
  {
    var db1 := PrunePermissions(UpsertPermissions(db, BUILT_IN_PERMISSIONS, permissionIds), BUILT_IN_PERMISSIONS);
    var db2 := UpsertRoles(db1, BUILT_IN_ROLES, roleIds);
    var db3 := GrantMissing(db2, SYSTEM_ADMIN, db2.permissions.Keys);
    GrantMissing(db3, ADMIN, IdsWithCodes(db3, TENANT_ADMIN_PERMISSIONS))
  }

  /** The administrator upserted after the seed: found by email, or created with `newUser`. */
  datatype AdminSeed = AdminSeed(email: string, existing: Option<Id>, defaultTenant: Option<Id>, newTenant: Id, newUser: Id)

  function SeedAdmin(s: Sys, a: AdminSeed, systemRole: Id): Sys {
    var s1 := DefaultTenant(s, a.defaultTenant, a.newTenant);
    var t := if a.defaultTenant.Some? then a.defaultTenant.value else a.newTenant;
    var user := if a.existing.Some? then a.existing.value else a.newUser;
    var row := if user in s1.db.users then s1.db.users[user].(active := true) else User(Some(a.email), true);
    s1.(db := Enroll(s1.db, user, row, t, {systemRole}), issued := s1.issued + {user})
  }

  function SeedAll(s: Sys, permissionIds: seq<Id>, roleIds: seq<Id>): Sys
    requires |permissionIds| == |BUILT_IN_PERMISSIONS| && |roleIds| == |BUILT_IN_ROLES|
  {
    InvalidateAll(s.(db := Seed(s.db, permissionIds, roleIds),
                     issued := s.issued + SetFrom(permissionIds) + SetFrom(roleIds)))
  }

  /** `onApplicationBootstrap`: seed, drop every cached access, then the administrator if configured. */
  function Boot(s: Sys, permissionIds: seq<Id>, roleIds: seq<Id>, admin: Option<AdminSeed>, systemRole: Id): Sys
    requires |permissionIds| == |BUILT_IN_PERMISSIONS| && |roleIds| == |BUILT_IN_ROLES|
  {
    var s1 := SeedAll(s, permissionIds, roleIds);
    if admin.Some? then SeedAdmin(s1, admin.value, systemRole) else s1
  }

  // ---------------------------------------------------------------- what seeding keeps

  /** Adding permissions, and enabling old ones, keeps the tables sound as long as codes stay unique. */
  lemma PermissionsWf(db: Db, db': Db)
    requires WfDb(db) && db' == db.(permissions := db'.permissions) && CodesUnique(db')
    requires forall p :: p in db.permissions ==> p in db'.permissions && db'.permissions[p].code == db.permissions[p].code
    ensures WfDb(db')
  {
  }

  lemma UpsertPermissionUnique(db: Db, code: string, newId: Id)
    requires CodesUnique(db) && newId !in db.permissions
    ensures CodesUnique(UpsertPermission(db, code, newId))
  {
  }

  lemma UpsertPermissionWf(db: Db, code: string, newId: Id)
    requires WfDb(db) && newId !in db.permissions
    ensures WfDb(UpsertPermission(db, code, newId))
    ensures UpsertPermission(db, code, newId).permissions.Keys <= db.permissions.Keys + {newId}
    ensures UpsertPermission(db, code, newId).roles == db.roles
  {
    UpsertPermissionUnique(db, code, newId);
    hide References, AssignmentsScoped, Confined, CodesReserved, CodesUnique;
    PermissionsWf(db, UpsertPermission(db, code, newId));
  }

  lemma {:induction false} UpsertPermissionsWf(db: Db, codes: seq<string>, ids: seq<Id>)
    requires WfDb(db) && |ids| == |codes| && Distinct(ids)
    requires forall i :: 0 <= i < |ids| ==> ids[i] !in db.permissions
    ensures WfDb(UpsertPermissions(db, codes, ids))
    ensures UpsertPermissions(db, codes, ids).permissions.Keys <= db.permissions.Keys + SetFrom(ids)
    ensures UpsertPermissions(db, codes, ids).roles == db.roles
  {
    if codes != [] {
      hide WfDb, UpsertPermission;
      var n := |codes| - 1;
      UpsertPermissionsWf(db, codes[..n], ids[..n]);
      assert ids[n] !in SetFrom(ids[..n]);
      UpsertPermissionWf(UpsertPermissions(db, codes[..n], ids[..n]), codes[n], ids[n]);
      assert SetFrom(ids) == SetFrom(ids[..n]) + {ids[n]};
    }
  }

  ghost predicate HasGlobal(db: Db, code: string) { exists r :: IsGlobal(db, r, code) }

  /** Adding roles, and changing old ones without moving them or demoting system_admin, keeps the
      tables sound as long as the codes stay reserved. */
  lemma RolesWf(db: Db, db': Db)
    requires WfDb(db) && db' == db.(roles := db'.roles) && CodesReserved(db')
    requires forall r :: r in db.roles ==> r in db'.roles && db'.roles[r].tenant == db.roles[r].tenant &&
                                           (IsSystemAdminRole(db.roles[r]) ==> IsSystemAdminRole(db'.roles[r]))
    requires forall r :: r in db'.roles && r !in db.roles ==> db'.roles[r].tenant == None
    ensures WfDb(db')
  {
  }

  lemma UpsertRoleReserved(db: Db, code: string, newId: Id)
    requires CodesReserved(db) && code in RESERVED && newId !in db.roles
    ensures CodesReserved(UpsertRole(db, code, newId))
  {
  }

  lemma UpsertRoleWf(db: Db, code: string, newId: Id)
    requires WfDb(db) && code in RESERVED && newId !in db.roles
    ensures WfDb(UpsertRole(db, code, newId))
    ensures UpsertRole(db, code, newId).roles.Keys <= db.roles.Keys + {newId}
    ensures UpsertRole(db, code, newId).permissions == db.permissions
  {
    UpsertRoleReserved(db, code, newId);
    hide References, AssignmentsScoped, Confined, CodesUnique, CodesReserved;
    RolesWf(db, UpsertRole(db, code, newId));
  }

  /** The upserted code has a global role afterwards, and no code loses its own. */
  lemma UpsertRoleGlobals(db: Db, code: string, newId: Id, c: string)
    requires newId !in db.roles
    requires c == code || HasGlobal(db, c)
    ensures HasGlobal(UpsertRole(db, code, newId), c)
  {
    var db' := UpsertRole(db, code, newId);
    if r :| IsGlobal(db, r, c) {
      assert IsGlobal(db', r, c);
    } else {
      assert IsGlobal(db', newId, code);
    }
  }

  ghost predicate AllReserved(codes: seq<string>) { forall i :: 0 <= i < |codes| ==> codes[i] in RESERVED }

  lemma {:induction false} UpsertRolesWf(db: Db, codes: seq<string>, ids: seq<Id>)
    requires WfDb(db) && |ids| == |codes| && Distinct(ids) && AllReserved(codes)
    requires SetFrom(ids) !! db.roles.Keys
    ensures WfDb(UpsertRoles(db, codes, ids))
    ensures UpsertRoles(db, codes, ids).roles.Keys <= db.roles.Keys + SetFrom(ids)
    ensures UpsertRoles(db, codes, ids).permissions == db.permissions
  {
    if codes != [] {
      var n := |codes| - 1;
      SplitIds(ids, codes);
      assert codes[n] in RESERVED;
      var mid := UpsertRoles(db, codes[..n], ids[..n]);
      hide WfDb, UpsertRole, UpsertRoles, AllReserved, SetFrom, Distinct;
      UnfoldRoles(db, codes, ids);
      UpsertRolesWf(db, codes[..n], ids[..n]);
      UpsertRoleWf(mid, codes[n], ids[n]);
    }
  }

  lemma {:induction false} UpsertRolesGlobals(db: Db, codes: seq<string>, ids: seq<Id>, i: nat)
    requires WfDb(db) && |ids| == |codes| && Distinct(ids) && AllReserved(codes)
    requires SetFrom(ids) !! db.roles.Keys
    requires i < |codes|
    ensures HasGlobal(UpsertRoles(db, codes, ids), codes[i])
  {
    hide WfDb, HasGlobal, UpsertRole, UpsertRoles, AllReserved, SetFrom, Distinct;
    var n := |codes| - 1;
    LastRole(db, codes, ids);
    if i < n { UpsertRolesGlobals(db, codes[..n], ids[..n], i); }
    UpsertRoleGlobals(UpsertRoles(db, codes[..n], ids[..n]), codes[n], ids[n], codes[i]);
  }

  /** The last upsert of several, and what holds before it. */
  lemma LastRole(db: Db, codes: seq<string>, ids: seq<Id>)
    requires WfDb(db) && |ids| == |codes| > 0 && Distinct(ids) && AllReserved(codes)
    requires SetFrom(ids) !! db.roles.Keys
    ensures var n := |codes| - 1;
            var mid := UpsertRoles(db, codes[..n], ids[..n]);
            && UpsertRoles(db, codes, ids) == UpsertRole(mid, codes[n], ids[n]) && ids[n] !in mid.roles
            && Distinct(ids[..n]) && AllReserved(codes[..n]) && SetFrom(ids[..n]) !! db.roles.Keys
  {
    hide WfDb, UpsertRole, UpsertRoles, SetFrom, Distinct, AllReserved;
    SplitIds(ids, codes);
    UnfoldRoles(db, codes, ids);
    UpsertRolesWf(db, codes[..|codes| - 1], ids[..|codes| - 1]);
  }

  lemma UnfoldRoles(db: Db, codes: seq<string>, ids: seq<Id>)
    requires |ids| == |codes| > 0
    ensures var n := |codes| - 1;
            UpsertRoles(db, codes, ids) == UpsertRole(UpsertRoles(db, codes[..n], ids[..n]), codes[n], ids[n])
  {
  }

  lemma SplitIds(ids: seq<Id>, codes: seq<string>)
    requires ids != [] && |codes| == |ids| && Distinct(ids)
    ensures var n := |ids| - 1;
            && SetFrom(ids) == SetFrom(ids[..n]) + {ids[n]} && ids[n] !in SetFrom(ids[..n]) && Distinct(ids[..n])
            && (AllReserved(codes) ==> AllReserved(codes[..n]))
  {
  }

  lemma PruneWf(db: Db, codes: seq<string>)
    requires WfDb(db)
    ensures WfDb(PrunePermissions(db, codes)) && PrunePermissions(db, codes).permissions.Keys <= db.permissions.Keys
    ensures PrunePermissions(db, codes).roles == db.roles
  {
  }

  lemma GrantMissingWf(db: Db, code: string, ids: set<Id>)
    requires WfDb(db) && ids <= db.permissions.Keys
    requires code == SYSTEM_ADMIN || forall p :: p in ids ==> db.permissions[p].code !in PLATFORM_PERMISSIONS
    ensures WfDb(GrantMissing(db, code, ids))
    ensures GrantMissing(db, code, ids).roles == db.roles && GrantMissing(db, code, ids).permissions == db.permissions
  {
  }

  lemma SeedWf(db: Db, permissionIds: seq<Id>, roleIds: seq<Id>)
    requires WfDb(db) && |permissionIds| == |BUILT_IN_PERMISSIONS| && |roleIds| == |BUILT_IN_ROLES|
    requires Distinct(permissionIds) && Distinct(roleIds)
    requires SetFrom(permissionIds) !! db.permissions.Keys && SetFrom(roleIds) !! db.roles.Keys
    ensures WfDb(Seed(db, permissionIds, roleIds))
    ensures Seed(db, permissionIds, roleIds).permissions.Keys <= db.permissions.Keys + SetFrom(permissionIds)
    ensures Seed(db, permissionIds, roleIds).roles.Keys <= db.roles.Keys + SetFrom(roleIds)
    ensures forall c :: c in BUILT_IN_ROLES ==> HasGlobal(Seed(db, permissionIds, roleIds), c)
  {
    ConstantLists();
    assert forall i :: 0 <= i < |permissionIds| ==> permissionIds[i] in SetFrom(permissionIds);
    hide WfDb, UpsertPermissions, PrunePermissions, UpsertRoles, GrantMissing, HasGlobal, AllReserved;
    UpsertPermissionsWf(db, BUILT_IN_PERMISSIONS, permissionIds);
    var db0 := UpsertPermissions(db, BUILT_IN_PERMISSIONS, permissionIds);
    PruneWf(db0, BUILT_IN_PERMISSIONS);
    var db1 := PrunePermissions(db0, BUILT_IN_PERMISSIONS);
    UpsertRolesWf(db1, BUILT_IN_ROLES, roleIds);
    var db2 := UpsertRoles(db1, BUILT_IN_ROLES, roleIds);
    GrantMissingWf(db2, SYSTEM_ADMIN, db2.permissions.Keys);
    var db3 := GrantMissing(db2, SYSTEM_ADMIN, db2.permissions.Keys);
    GrantMissingWf(db3, ADMIN, IdsWithCodes(db3, TENANT_ADMIN_PERMISSIONS));
    forall c | c in BUILT_IN_ROLES ensures HasGlobal(Seed(db, permissionIds, roleIds), c) {
      var i :| 0 <= i < |BUILT_IN_ROLES| && BUILT_IN_ROLES[i] == c;
      UpsertRolesGlobals(db1, BUILT_IN_ROLES, roleIds, i);
      SameRolesSameGlobals(db2, Seed(db, permissionIds, roleIds), c);
    }
  }

  lemma SameRolesSameGlobals(db: Db, db': Db, c: string)
    requires db.roles == db'.roles && HasGlobal(db, c)
    ensures HasGlobal(db', c)
  {
    var r :| IsGlobal(db, r, c);
    assert IsGlobal(db', r, c);
  }

  lemma ConstantLists()
    ensures AllReserved(BUILT_IN_ROLES)
    ensures forall c :: c in TENANT_ADMIN_PERMISSIONS ==> c !in PLATFORM_PERMISSIONS
  {
  }
}
