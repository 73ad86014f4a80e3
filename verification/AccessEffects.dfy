/** What the operations mean for people's access, and what seeding restores. */
module AccessEffects {
  import opened Common
  import opened AccessModel
  import opened AccessWrites
  import opened AccessCoherence
  import opened AccessRuns
  import Ops = AccessOps
  import Boots = AccessSeed

  /** The role counts for the user in the tenant. */
  predicate Carries(db: Db, user: Id, tenant: Id, r: Id) {
    Assignment(user, tenant, r) in db.assignments && r in db.roles && db.roles[r].enabled && InScope(db.roles[r], tenant)
  }

  /** The derived lists, spelled out row by row. */
  lemma AccessRowByRow(db: Db, user: Id, tenant: Id, code: string)
    ensures var a := AccessOf(db, user, tenant);
            && (code in a.roles <==> exists r :: Carries(db, user, tenant, r) && db.roles[r].code == code)
            && (code in a.permissions <==>
                  exists p :: p in db.permissions && db.permissions[p] == Permission(code, true) &&
                    exists r :: Carries(db, user, tenant, r) &&
                      (IsSystemAdminRole(db.roles[r]) || (Binding(r, p) in db.bindings && db.bindings[Binding(r, p)])))
  {
  }

  /** Setting roles replaces exactly that member's roles in that tenant. */
  lemma SetRolesEffect(s: Sys, tenant: Id, id: Id, roles: set<Id>, actor: Id, user: Id, t: Id)
    requires Good(s) && Ops.SetRoles(s, tenant, id, roles, actor).error.None?
    ensures var db := Ops.SetRoles(s, tenant, id, roles, actor).sys.db;
            && Assigned(db, id, tenant) == roles
            && (user != id || t != tenant ==> View(db, user, t) == View(s.db, user, t))
  {
    var db := Ops.SetRoles(s, tenant, id, roles, actor).sys.db;
    AssignableKeeps(s, actor, tenant, roles);
    assert db == Ops.SetAssignments(s.db, id, tenant, roles);
    forall r | r in roles ensures r in Assigned(db, id, tenant) {
      assert Assignment(id, tenant, r) in db.assignments;
    }
    if user != id || t != tenant { SameAssignmentsView(s.db, db, user, t); }
  }

  /** A removed member has no access to the tenant any more; nobody else is affected, and other
      memberships keep the user alive. */
  lemma RemoveUserEffect(s: Sys, tenant: Id, id: Id, hard: bool, user: Id, t: Id)
    requires Good(s) && Ops.RemoveUser(s, tenant, id, hard).error.None?
    ensures var db := Ops.RemoveUser(s, tenant, id, hard).sys.db;
            && View(db, id, tenant).None?
            && (user != id || t != tenant ==> View(db, user, t) == View(s.db, user, t))
            && (id in db.users <==> !hard || exists m :: m in s.db.memberships && m.user == id && m.tenant != tenant)
  {
    var db := Ops.RemoveUser(s, tenant, id, hard).sys.db;
    if hard {
      var left := s.db.memberships - {Member(id, tenant)};
      assert forall m :: m in left && m.user == id ==> m in s.db.memberships && m.tenant != tenant;
      assert forall m :: m in s.db.memberships && m.user == id && m.tenant != tenant ==> m in left;
    }
    if (user != id || t != tenant) && Belongs(s.db, user, t) { SameAssignmentsView(s.db, db, user, t); }
  }

  /** A removed tenant grants no access to anyone; other tenants are not affected. */
  lemma RemoveTenantEffect(s: Sys, id: Id, hard: bool, user: Id, t: Id)
    requires Ops.RemoveTenant(s, id, hard).error.None?
    ensures var db := Ops.RemoveTenant(s, id, hard).sys.db;
            View(db, user, id).None? && (t != id ==> View(db, user, t) == View(s.db, user, t))
  {
    var db := Ops.RemoveTenant(s, id, hard).sys.db;
    if t != id {
      if hard { DropTenantView(s.db, id, user, t); } else { SameAssignmentsView(s.db, db, user, t); }
    }
  }

  /** Enrolling gives the new member exactly the granted roles. Everyone else keeps their view; so does
      the user elsewhere, exactly unless they were deactivated and belong elsewhere: enrolment activates
      the account for all tenants. */
  lemma CreateUserEffect(s: Sys, tenant: Id, actor: Id, email: string, roles: set<Id>, existing: Option<Id>,
                         memberRole: Option<Id>, newId: Id, user: Id, t: Id)
    requires Good(s) && Legit(s, CreateUser(tenant, actor, email, roles, existing, memberRole, newId))
    requires Ops.CreateUser(s, tenant, actor, email, roles, existing, memberRole, newId).error.None?
    requires t in s.db.tenants && s.db.tenants[t].active
    ensures var db := Ops.CreateUser(s, tenant, actor, email, roles, existing, memberRole, newId).sys.db;
            var id := if existing.Some? then existing.value else newId;
            && Belongs(db, id, tenant)
            && (forall r :: Assignment(id, tenant, r) in db.assignments && Assignment(id, tenant, r) !in s.db.assignments <==>
                            r in (if roles != {} then roles else {memberRole.value}))
            && (user != id ==> View(db, user, t) == View(s.db, user, t))
            && (t != tenant ==> (View(db, id, t) == View(s.db, id, t) <==>
                                 !(id in s.db.users && !s.db.users[id].active && Ops.IsMember(s.db, id, t))))
  {
    var id := if existing.Some? then existing.value else newId;
    var granted := if roles != {} then roles else {memberRole.value};
    var row := if existing.Some? then s.db.users[id].(active := true) else User(Some(email), true);
    assert id !in s.db.users ==> !Ops.IsMember(s.db, id, t);
    hide Ops.CreateUser, Good;
    CreateUserWrites(s, tenant, actor, email, roles, existing, memberRole, newId);
    EnrollEffect(s.db, id, row, tenant, granted, user, t);
  }

  lemma CreateUserWrites(s: Sys, tenant: Id, actor: Id, email: string, roles: set<Id>, existing: Option<Id>,
                         memberRole: Option<Id>, newId: Id)
    requires Good(s) && Finds(existing, Ops.ByEmail(s.db, email))
    requires Ops.CreateUser(s, tenant, actor, email, roles, existing, memberRole, newId).error.None?
    ensures tenant in s.db.tenants && (roles == {} ==> memberRole.Some?)
    ensures var id := if existing.Some? then existing.value else newId;
            var granted := if roles != {} then roles else {memberRole.value};
            var row := if existing.Some? then s.db.users[id].(active := true) else User(Some(email), true);
            && Ops.CreateUser(s, tenant, actor, email, roles, existing, memberRole, newId).sys.db ==
               Ops.Enroll(s.db, id, row, tenant, granted)
            && forall r :: r in granted ==> Assignment(id, tenant, r) !in s.db.assignments
  {
    AssignableKeeps(s, actor, tenant, roles);
    hide Ops.RolesAssignable, Ops.Enroll, Good;
  }

  lemma EnrollEffect(db: Db, id: Id, row: User, tenant: Id, granted: set<Id>, user: Id, t: Id)
    requires row.active && tenant in db.tenants && t in db.tenants && db.tenants[t].active
    requires id !in db.users ==> !Ops.IsMember(db, id, t)
    ensures var db' := Ops.Enroll(db, id, row, tenant, granted);
            && Belongs(db', id, tenant)
            && (user != id ==> View(db', user, t) == View(db, user, t))
            && (t != tenant ==> (View(db', id, t) == View(db, id, t) <==>
                                 !(id in db.users && !db.users[id].active && Ops.IsMember(db, id, t))))
  {
    var db' := Ops.Enroll(db, id, row, tenant, granted);
    if user != id { SameAssignmentsView(db, db', user, t); }
    if t != tenant && Belongs(db, id, t) == Belongs(db', id, t) { SameAssignmentsView(db, db', id, t); }
  }

  // ---------------------------------------------------------------- seeding

  predicate BoundTo(db: Db, role: Id, codes: seq<string>) {
    forall p :: p in db.permissions && db.permissions[p].code in codes ==> Binding(role, p) in db.bindings
  }

  /** The permissions are the built-in ones, all enabled; every built-in role exists and is in force; the
      two administrators have a row for every permission that is theirs. */
  ghost predicate Seeded(db: Db) { PermissionsSeeded(db) && RolesSeeded(db) && BindingsSeeded(db) }

  ghost predicate PermissionsSeeded(db: Db) {
    && (forall p :: p in db.permissions ==> db.permissions[p].enabled && db.permissions[p].code in BUILT_IN_PERMISSIONS)
    && (forall c :: c in BUILT_IN_PERMISSIONS ==> exists p :: Boots.HasCode(db, p, c))
  }

  ghost predicate RolesSeeded(db: Db) {
    && (forall r, c :: c in BUILT_IN_ROLES && Boots.IsGlobal(db, r, c) ==> db.roles[r] == Role(None, c, true, true))
    && (forall c :: c in BUILT_IN_ROLES ==> Boots.HasGlobal(db, c))
  }

  ghost predicate BindingsSeeded(db: Db) {
    && (forall r :: Boots.IsGlobal(db, r, SYSTEM_ADMIN) ==> BoundTo(db, r, BUILT_IN_PERMISSIONS))
    && (forall r :: Boots.IsGlobal(db, r, ADMIN) ==> BoundTo(db, r, TENANT_ADMIN_PERMISSIONS))
  }

  lemma {:induction false} UpsertPermissionsStable(db: Db, codes: seq<string>, ids: seq<Id>)
    requires |ids| == |codes| && Seeded(db) && forall i :: 0 <= i < |codes| ==> codes[i] in BUILT_IN_PERMISSIONS
    ensures Boots.UpsertPermissions(db, codes, ids) == db
  {
    if codes != [] {
      var n := |codes| - 1;
      UpsertPermissionsStable(db, codes[..n], ids[..n]);
      var p :| Boots.HasCode(db, p, codes[n]);
      assert Boots.UpsertPermission(db, codes[n], ids[n]).permissions == db.permissions;
    }
  }

  lemma {:induction false} UpsertRolesStable(db: Db, codes: seq<string>, ids: seq<Id>)
    requires |ids| == |codes| && Seeded(db) && forall i :: 0 <= i < |codes| ==> codes[i] in BUILT_IN_ROLES
    ensures Boots.UpsertRoles(db, codes, ids) == db
  {
    if codes != [] {
      var n := |codes| - 1;
      UpsertRolesStable(db, codes[..n], ids[..n]);
      var r :| Boots.IsGlobal(db, r, codes[n]);
      assert Boots.UpsertRole(db, codes[n], ids[n]).roles == db.roles;
    }
  }

  /** Seeding a seeded database again changes nothing, whatever was switched off since. */
  lemma SeedingAgainChangesNothing(db: Db, permissionIds: seq<Id>, roleIds: seq<Id>)
    requires WfDb(db) && Seeded(db) && |permissionIds| == |BUILT_IN_PERMISSIONS| && |roleIds| == |BUILT_IN_ROLES|
    ensures Boots.Seed(db, permissionIds, roleIds) == db
  {
    UpsertPermissionsStable(db, BUILT_IN_PERMISSIONS, permissionIds);
    UpsertRolesStable(db, BUILT_IN_ROLES, roleIds);
    hide Boots.UpsertPermissions, Boots.UpsertRoles;
    PruneStable(db);
    GrantStable(db, SYSTEM_ADMIN, db.permissions.Keys);
    GrantStable(db, ADMIN, Boots.IdsWithCodes(db, TENANT_ADMIN_PERMISSIONS));
  }

  lemma PruneStable(db: Db)
    requires References(db) && Seeded(db)
    ensures Boots.PrunePermissions(db, BUILT_IN_PERMISSIONS) == db
  {
  }

  lemma GrantStable(db: Db, code: string, ids: set<Id>)
    requires forall r, p :: Boots.IsGlobal(db, r, code) && p in ids ==> Binding(r, p) in db.bindings
    ensures Boots.GrantMissing(db, code, ids) == db
  {
  }

  /** Enabled, and present for each of the codes. */
  ghost predicate HasPermissions(db: Db, codes: seq<string>) {
    && (forall p :: p in db.permissions && db.permissions[p].code in codes ==> db.permissions[p].enabled)
    && (forall c :: c in codes ==> exists p :: Boots.HasCode(db, p, c))
  }

  lemma {:induction false} UpsertPermissionsRestore(db: Db, codes: seq<string>, ids: seq<Id>)
    requires WfDb(db) && |ids| == |codes| && Ops.Distinct(ids)
    requires forall i :: 0 <= i < |ids| ==> ids[i] !in db.permissions
    ensures HasPermissions(Boots.UpsertPermissions(db, codes, ids), codes)
  {
    if codes != [] {
      var n := |codes| - 1;
      var mid := Boots.UpsertPermissions(db, codes[..n], ids[..n]);
      UpsertPermissionsRestore(db, codes[..n], ids[..n]);
      Boots.UpsertPermissionsWf(db, codes[..n], ids[..n]);
      assert ids[n] !in Ops.SetFrom(ids[..n]);
      hide WfDb, Boots.UpsertPermissions;
      UpsertPermissionRestores(mid, codes[..n], codes[n], ids[n]);
      assert codes == codes[..n] + [codes[n]];
    }
  }

  lemma UpsertPermissionRestores(db: Db, codes: seq<string>, code: string, newId: Id)
    requires HasPermissions(db, codes) && newId !in db.permissions
    ensures HasPermissions(Boots.UpsertPermission(db, code, newId), codes + [code])
  {
    var db' := Boots.UpsertPermission(db, code, newId);
    forall c | c in codes + [code] ensures exists p :: Boots.HasCode(db', p, c) {
      if p :| Boots.HasCode(db, p, c) {
        assert Boots.HasCode(db', p, c);
      } else {
        assert Boots.HasCode(db', newId, c);
      }
    }
  }

  ghost predicate HasRoles(db: Db, codes: seq<string>) {
    forall r, c :: c in codes && Boots.IsGlobal(db, r, c) ==> db.roles[r] == Role(None, c, true, true)
  }

  lemma {:induction false} UpsertRolesRestore(db: Db, codes: seq<string>, ids: seq<Id>)
    requires |ids| == |codes|
    ensures HasRoles(Boots.UpsertRoles(db, codes, ids), codes)
  {
    if codes != [] {
      var n := |codes| - 1;
      UpsertRolesRestore(db, codes[..n], ids[..n]);
      UpsertRoleRestores(Boots.UpsertRoles(db, codes[..n], ids[..n]), codes[..n], codes[n], ids[n]);
      hide Boots.UpsertRole, HasRoles;
      assert codes == codes[..n] + [codes[n]];
    }
  }

  lemma UpsertRoleRestores(db: Db, codes: seq<string>, code: string, newId: Id)
    requires HasRoles(db, codes)
    ensures HasRoles(Boots.UpsertRole(db, code, newId), codes + [code])
  {
  }

  /** Whatever was renamed, disabled or deleted before, seeding leaves a seeded database. */
  lemma SeedRestores(db: Db, permissionIds: seq<Id>, roleIds: seq<Id>)
    requires WfDb(db) && |permissionIds| == |BUILT_IN_PERMISSIONS| && |roleIds| == |BUILT_IN_ROLES|
    requires Ops.Distinct(permissionIds) && Ops.Distinct(roleIds)
    requires Ops.SetFrom(permissionIds) !! db.permissions.Keys && Ops.SetFrom(roleIds) !! db.roles.Keys
    ensures Seeded(Boots.Seed(db, permissionIds, roleIds))
  {
    hide WfDb, Boots.Seed, Boots.UpsertPermissions, Boots.UpsertRoles, Boots.GrantMissing, Boots.HasGlobal, BindingsSeeded,
      HasRoles, HasPermissions;
    var db1, db2 := BeforeGrants(db, permissionIds, roleIds);
    var db4 := Boots.Seed(db, permissionIds, roleIds);
    assert forall i :: 0 <= i < |permissionIds| ==> permissionIds[i] in Ops.SetFrom(permissionIds);
    UpsertPermissionsRestore(db, BUILT_IN_PERMISSIONS, permissionIds);
    PruneRestores(Boots.UpsertPermissions(db, BUILT_IN_PERMISSIONS, permissionIds));
    UpsertRolesRestore(db1, BUILT_IN_ROLES, roleIds);
    Boots.SeedWf(db, permissionIds, roleIds);
    GrantsRestore(db2);
    SamePermissionsSeeded(db1, db4);
    SameRolesSeeded(db2, db4);
  }

  /** Seeding never switches back on (or off) a binding that is there; what it adds is switched on, and is
      for the two administrators only. */
  lemma SeedKeepsSwitches(db: Db, permissionIds: seq<Id>, roleIds: seq<Id>, b: Binding)
    requires |permissionIds| == |BUILT_IN_PERMISSIONS| && |roleIds| == |BUILT_IN_ROLES|
    requires b in Boots.Seed(db, permissionIds, roleIds).bindings
    ensures var db' := Boots.Seed(db, permissionIds, roleIds);
            && db'.bindings[b] == (if b in db.bindings then db.bindings[b] else true)
            && (b !in db.bindings ==>
                  || Boots.IsGlobal(db', b.role, SYSTEM_ADMIN)
                  || (Boots.IsGlobal(db', b.role, ADMIN) && db'.permissions[b.permission].code in TENANT_ADMIN_PERMISSIONS))
  {
    hide WfDb, Boots.Seed, Boots.UpsertPermissions, Boots.UpsertRoles, Boots.GrantMissing, Boots.HasGlobal, BindingsSeeded,
      HasRoles, HasPermissions;
    var db1, db2 := BeforeGrants(db, permissionIds, roleIds);
    PruneOnlyDrops(Boots.UpsertPermissions(db, BUILT_IN_PERMISSIONS, permissionIds));
    GrantsRestore(db2);
  }

  lemma PruneOnlyDrops(db: Db)
    ensures var db' := Boots.PrunePermissions(db, BUILT_IN_PERMISSIONS);
            && (forall b :: b in db'.bindings ==> b in db.bindings && db'.bindings[b] == db.bindings[b])
            && (forall b :: b in db.bindings && b !in db'.bindings ==> b.permission !in db'.permissions)
  {
  }

  /** The tables after the permissions, and after the roles, were seeded. */
  lemma BeforeGrants(db: Db, permissionIds: seq<Id>, roleIds: seq<Id>) returns (db1: Db, db2: Db)
    requires |permissionIds| == |BUILT_IN_PERMISSIONS| && |roleIds| == |BUILT_IN_ROLES|
    ensures db1 == Boots.PrunePermissions(Boots.UpsertPermissions(db, BUILT_IN_PERMISSIONS, permissionIds), BUILT_IN_PERMISSIONS)
    ensures db2 == Boots.UpsertRoles(db1, BUILT_IN_ROLES, roleIds)
    ensures var db3 := Boots.GrantMissing(db2, SYSTEM_ADMIN, db2.permissions.Keys);
            Boots.Seed(db, permissionIds, roleIds) ==
            Boots.GrantMissing(db3, ADMIN, Boots.IdsWithCodes(db3, TENANT_ADMIN_PERMISSIONS))
  {
    db1 := Boots.PrunePermissions(Boots.UpsertPermissions(db, BUILT_IN_PERMISSIONS, permissionIds), BUILT_IN_PERMISSIONS);
    db2 := Boots.UpsertRoles(db1, BUILT_IN_ROLES, roleIds);
  }

  lemma SamePermissionsSeeded(db: Db, db': Db)
    requires HasPermissions(db, BUILT_IN_PERMISSIONS) && db'.permissions == db.permissions
    requires forall p :: p in db.permissions ==> db.permissions[p].code in BUILT_IN_PERMISSIONS
    ensures PermissionsSeeded(db')
  {
    forall c | c in BUILT_IN_PERMISSIONS ensures exists p :: Boots.HasCode(db', p, c) {
      var p :| Boots.HasCode(db, p, c);
      assert Boots.HasCode(db', p, c);
    }
  }

  lemma SameRolesSeeded(db: Db, db': Db)
    requires HasRoles(db, BUILT_IN_ROLES) && db'.roles == db.roles
    requires forall c :: c in BUILT_IN_ROLES ==> Boots.HasGlobal(db', c)
    ensures RolesSeeded(db')
  {
  }

  lemma PruneRestores(db: Db)
    requires HasPermissions(db, BUILT_IN_PERMISSIONS)
    ensures var db' := Boots.PrunePermissions(db, BUILT_IN_PERMISSIONS);
            && HasPermissions(db', BUILT_IN_PERMISSIONS)
            && (forall p :: p in db'.permissions ==> db'.permissions[p].code in BUILT_IN_PERMISSIONS)
            && (forall b :: b in db.bindings && b in db'.bindings ==> db'.bindings[b] == db.bindings[b])
  {
    var db' := Boots.PrunePermissions(db, BUILT_IN_PERMISSIONS);
    forall c | c in BUILT_IN_PERMISSIONS ensures exists p :: Boots.HasCode(db', p, c) {
      var p :| Boots.HasCode(db, p, c);
      assert Boots.HasCode(db', p, c);
    }
  }

  lemma GrantsRestore(db: Db)
    ensures var db1 := Boots.GrantMissing(db, SYSTEM_ADMIN, db.permissions.Keys);
            var db2 := Boots.GrantMissing(db1, ADMIN, Boots.IdsWithCodes(db1, TENANT_ADMIN_PERMISSIONS));
            && BindingsSeeded(db2) && db2.roles == db.roles && db2.permissions == db.permissions
            && (forall b :: b in db.bindings ==> b in db2.bindings && db2.bindings[b] == db.bindings[b])
            && (forall b :: b in db2.bindings && b !in db.bindings ==>
                  && db2.bindings[b] && b.permission in db.permissions
                  && (|| Boots.IsGlobal(db2, b.role, SYSTEM_ADMIN)
                      || (Boots.IsGlobal(db2, b.role, ADMIN) && db.permissions[b.permission].code in TENANT_ADMIN_PERMISSIONS)))
  {
  }
}
