/** The unique keys hold in every run: the checks and look-ups before each write are enough, also for the
    global role codes, which the database's own constraint does not cover because their tenant is null. */
module AccessKeys {
  import opened Common
  import opened AccessModel
  import opened AccessRuns
  import Ops = AccessOps
  import Boots = AccessSeed

  ghost predicate EmailsUnique(db: Db) {
    forall u, v :: u in db.users && v in db.users && db.users[u].email.Some? ==>
      db.users[u].email == db.users[v].email ==> u == v
  }

  ghost predicate SlugsUnique(db: Db) {
    forall t, u :: t in db.tenants && u in db.tenants && db.tenants[t].slug == db.tenants[u].slug ==> t == u
  }

  ghost predicate RolesUnique(db: Db) {
    forall r, q :: r in db.roles && q in db.roles && db.roles[r].tenant == db.roles[q].tenant ==>
      db.roles[r].code == db.roles[q].code ==> r == q
  }

  ghost predicate KeysUnique(db: Db) { EmailsUnique(db) && SlugsUnique(db) && RolesUnique(db) }

  lemma AddUserUnique(db: Db, user: Id, row: User)
    requires EmailsUnique(db)
    requires row.email.Some? ==> forall u :: u in db.users && db.users[u].email == row.email ==> u == user
    ensures EmailsUnique(db.(users := db.users[user := row]))
  {
  }

  lemma AddTenantUnique(db: Db, id: Id, slug: string)
    requires SlugsUnique(db) && forall t :: t in db.tenants ==> db.tenants[t].slug != slug
    ensures SlugsUnique(Ops.AddTenant(db, id, slug))
  {
  }

  lemma {:induction false} UpsertRolesUnique(db: Db, codes: seq<string>, ids: seq<Id>)
    requires |ids| == |codes| && RolesUnique(db)
    ensures RolesUnique(Boots.UpsertRoles(db, codes, ids))
  {
    if codes != [] {
      var n := |codes| - 1;
      UpsertRolesUnique(db, codes[..n], ids[..n]);
      UpsertRoleUnique(Boots.UpsertRoles(db, codes[..n], ids[..n]), codes[n], ids[n]);
    }
  }

  lemma UpsertRoleUnique(db: Db, code: string, newId: Id)
    requires RolesUnique(db)
    ensures RolesUnique(Boots.UpsertRole(db, code, newId))
  {
  }

  lemma CreateUserUnique(s: Sys, tenant: Id, actor: Id, email: string, roles: set<Id>, existing: Option<Id>,
                         memberRole: Option<Id>, newId: Id)
    requires KeysUnique(s.db) && Legit(s, CreateUser(tenant, actor, email, roles, existing, memberRole, newId))
    ensures KeysUnique(Ops.CreateUser(s, tenant, actor, email, roles, existing, memberRole, newId).sys.db)
  {
    var checked := if roles != {} then Ops.RolesAssignable(s, actor, tenant, roles) else Ops.Done(s);
    assert checked.sys.db == s.db;
    hide Ops.RolesAssignable;
    EnrollUserUnique(checked.sys, tenant, email, roles, existing, memberRole, newId);
  }

  lemma EnrollUserUnique(s: Sys, tenant: Id, email: string, roles: set<Id>, existing: Option<Id>,
                         memberRole: Option<Id>, newId: Id)
    requires KeysUnique(s.db) && Finds(existing, Ops.ByEmail(s.db, email))
    ensures KeysUnique(Ops.EnrollUser(s, tenant, email, roles, existing, memberRole, newId).sys.db)
  {
    var user := if existing.Some? then existing.value else newId;
    var row := if existing.Some? then s.db.users[user].(active := true) else User(Some(email), true);
    forall u | u in s.db.users && s.db.users[u].email == Some(email) ensures u == user {
      assert u in Ops.ByEmail(s.db, email) && existing.Some? && user in Ops.ByEmail(s.db, email);
    }
    AddUserUnique(s.db, user, row);
  }

  lemma UpdateUserUnique(s: Sys, tenant: Id, id: Id, email: Option<string>)
    requires KeysUnique(s.db)
    ensures KeysUnique(Ops.UpdateUser(s, tenant, id, email).sys.db)
  {
    if Ops.UpdateUser(s, tenant, id, email).error.None? {
      if email.Some? {
        forall u | u in s.db.users && s.db.users[u].email == email ensures u == id {
          assert u in Ops.ByEmail(s.db, email.value);
        }
      }
      AddUserUnique(s.db, id, if email.Some? then s.db.users[id].(email := email) else s.db.users[id]);
    }
  }

  lemma RegisterUnique(s: Sys, email: Option<string>, defaultTenant: Option<Id>, memberRole: Option<Id>,
                       newTenant: Id, newUser: Id)
    requires KeysUnique(s.db) && Legit(s, Register(email, defaultTenant, memberRole, newTenant, newUser))
    ensures KeysUnique(Ops.RegisterVerifiedUser(s, email, defaultTenant, memberRole, newTenant, newUser).sys.db)
  {
    DefaultTenantUnique(s, defaultTenant, newTenant);
    var s1 := Ops.DefaultTenant(s, defaultTenant, newTenant);
    if Ops.RegisterVerifiedUser(s, email, defaultTenant, memberRole, newTenant, newUser).error.None? {
      assert email.Some? ==> forall u :: u in s1.db.users && s1.db.users[u].email == email ==> u in Ops.ByEmail(s1.db, email.value);
      AddUserUnique(s1.db, newUser, User(email, true));
    }
  }

  lemma DefaultTenantUnique(s: Sys, existing: Option<Id>, newId: Id)
    requires KeysUnique(s.db) && Finds(existing, DefaultTenants(s.db))
    ensures KeysUnique(Ops.DefaultTenant(s, existing, newId).db)
  {
    if existing.None? {
      assert forall t :: t in s.db.tenants ==> t !in DefaultTenants(s.db);
      AddTenantUnique(s.db, newId, "default");
    }
  }

  lemma BootUnique(s: Sys, permissionIds: seq<Id>, roleIds: seq<Id>, admin: Option<Boots.AdminSeed>, adminRole: Id)
    requires KeysUnique(s.db) && Legit(s, Boot(permissionIds, roleIds, admin, adminRole))
    ensures KeysUnique(Boots.Boot(s, permissionIds, roleIds, admin, adminRole).db)
  {
    var s1 := Boots.SeedAll(s, permissionIds, roleIds);
    var enabled := Boots.UpsertPermissions(s.db, BUILT_IN_PERMISSIONS, permissionIds);
    var pruned := Boots.PrunePermissions(enabled, BUILT_IN_PERMISSIONS);
    UpsertRolesUnique(pruned, BUILT_IN_ROLES, roleIds);
    assert s1.db.roles == Boots.UpsertRoles(pruned, BUILT_IN_ROLES, roleIds).roles;
    hide Boots.Seed;
    if admin.Some? { SeedAdminUnique(s1, admin.value, adminRole); }
  }

  lemma SeedAdminUnique(s: Sys, a: Boots.AdminSeed, adminRole: Id)
    requires KeysUnique(s.db) && Finds(a.existing, Ops.ByEmail(s.db, a.email)) && Finds(a.defaultTenant, DefaultTenants(s.db))
    ensures KeysUnique(Boots.SeedAdmin(s, a, adminRole).db)
  {
    DefaultTenantUnique(s, a.defaultTenant, a.newTenant);
    var s1 := Ops.DefaultTenant(s, a.defaultTenant, a.newTenant);
    var user := if a.existing.Some? then a.existing.value else a.newUser;
    var row := if user in s1.db.users then s1.db.users[user].(active := true) else User(Some(a.email), true);
    forall u | u in s1.db.users && s1.db.users[u].email == Some(a.email) ensures u == user {
      assert u in Ops.ByEmail(s.db, a.email) && a.existing.Some? && user in Ops.ByEmail(s.db, a.email);
    }
    AddUserUnique(s1.db, user, row);
  }

  lemma AddRoleUnique(db: Db, id: Id, row: Role)
    requires RolesUnique(db)
    requires forall r :: r in db.roles && db.roles[r].tenant == row.tenant && db.roles[r].code == row.code ==> r == id
    ensures RolesUnique(db.(roles := db.roles[id := row]))
  {
  }

  lemma CreateRoleUnique(s: Sys, tenant: Id, actor: Id, code: string, permissions: seq<Id>, newId: Id)
    requires KeysUnique(s.db)
    ensures KeysUnique(Ops.CreateRole(s, tenant, actor, code, permissions, newId).sys.db)
  {
    if !Ops.CodeTaken(s.db, tenant, code, None) { AddRoleUnique(s.db, newId, Role(Some(tenant), code, false, true)); }
  }

  lemma UpdateRoleUnique(s: Sys, tenant: Id, id: Id, code: Option<string>, enabled: Option<bool>)
    requires KeysUnique(s.db)
    ensures KeysUnique(Ops.UpdateRole(s, tenant, id, code, enabled).sys.db)
  {
    if Ops.UpdateRole(s, tenant, id, code, enabled).error.None? {
      var r := s.db.roles[id];
      AddRoleUnique(s.db, id, r.(code := if code.Some? then code.value else r.code,
                                 enabled := if enabled.Some? then enabled.value else r.enabled));
    }
  }

  /** Rows of the keyed tables are only dropped. */
  ghost predicate OnlyDrops(db: Db, db': Db) {
    && (forall u :: u in db'.users ==> u in db.users && db'.users[u] == db.users[u])
    && (forall t :: t in db'.tenants ==> t in db.tenants && db'.tenants[t].slug == db.tenants[t].slug)
    && (forall r :: r in db'.roles ==> r in db.roles && db'.roles[r] == db.roles[r])
  }

  lemma OnlyDropsUnique(db: Db, db': Db)
    requires KeysUnique(db) && OnlyDrops(db, db')
    ensures KeysUnique(db')
  {
  }

  lemma RemoveRoleOnlyDrops(s: Sys, tenant: Id, id: Id)
    ensures OnlyDrops(s.db, Ops.RemoveRole(s, tenant, id).sys.db)
  {
  }

  lemma RemoveUserOnlyDrops(s: Sys, tenant: Id, id: Id, hard: bool)
    ensures OnlyDrops(s.db, Ops.RemoveUser(s, tenant, id, hard).sys.db)
  {
  }

  lemma RemoveTenantOnlyDrops(s: Sys, id: Id, hard: bool)
    ensures OnlyDrops(s.db, Ops.RemoveTenant(s, id, hard).sys.db)
  {
  }

  lemma SetPermissionsKeepsKeys(s: Sys, tenant: Id, id: Id, selected: set<Id>, actor: Id)
    ensures var db := Ops.SetPermissions(s, tenant, id, selected, actor).sys.db; db == s.db.(bindings := db.bindings)
  {
    hide Ops.TargetConfigurable, Ops.AfterEdit, Ops.EditAll, Ops.EnableError, Ops.AllEnabled;
  }

  lemma SetPermissionKeepsKeys(s: Sys, tenant: Id, id: Id, permission: Id, on: bool, actor: Id)
    ensures var db := Ops.SetPermission(s, tenant, id, permission, on, actor).sys.db; db == s.db.(bindings := db.bindings)
  {
    hide Ops.TargetConfigurable, Ops.AfterEdit, Ops.EditOne, Ops.EnableError, Enabled;
  }

  lemma SetRolesKeepsKeys(s: Sys, tenant: Id, id: Id, roles: set<Id>, actor: Id)
    ensures var db := Ops.SetRoles(s, tenant, id, roles, actor).sys.db; db == s.db.(assignments := db.assignments)
  {
    hide Ops.SwitchedOn, View;
  }

  lemma SameKeysUnique(db: Db, db': Db)
    requires KeysUnique(db) && db'.users == db.users && db'.tenants == db.tenants && db'.roles == db.roles
    ensures KeysUnique(db')
  {
  }

  lemma CreateTenantUnique(s: Sys, slug: string, creator: Id, systemRole: Option<Id>, newId: Id)
    requires KeysUnique(s.db)
    ensures KeysUnique(Ops.CreateTenant(s, slug, creator, systemRole, newId).sys.db)
  {
    if Ops.CreateTenant(s, slug, creator, systemRole, newId).error.None? {
      AddTenantUnique(s.db, newId, slug);
      AddUserUnique(s.db, creator, s.db.users[creator]);
    }
  }

  lemma RequestTenantUnique(s: Sys, within: Id, slug: string, creator: Id, systemRole: Option<Id>, newId: Id)
    requires KeysUnique(s.db)
    ensures KeysUnique(Ops.RequestTenant(s, within, slug, creator, systemRole, newId).sys.db)
  {
    hide KeysUnique, Ops.RolesGuard, Ops.PermissionsGuard, Ops.CreateTenant;
    var s1 := Ops.RolesGuard(s, creator, within, {SYSTEM_ADMIN}).sys;
    CreateTenantUnique(Ops.PermissionsGuard(s1, creator, within, {TENANT_CREATE}).sys, slug, creator, systemRole, newId);
  }

  lemma UniqueStep(s: Sys, op: Op)
    requires KeysUnique(s.db) && Legit(s, op)
    ensures KeysUnique(Apply(s, op).db)
  {
    hide KeysUnique, OnlyDrops;
    match op
    case CreateUser(tenant, actor, email, roles, existing, memberRole, newId) =>
      CreateUserUnique(s, tenant, actor, email, roles, existing, memberRole, newId);
    case UpdateUser(tenant, id, email) => UpdateUserUnique(s, tenant, id, email);
    case Register(email, defaultTenant, memberRole, newTenant, newUser) =>
      RegisterUnique(s, email, defaultTenant, memberRole, newTenant, newUser);
    case Boot(permissionIds, roleIds, admin, adminRole) => BootUnique(s, permissionIds, roleIds, admin, adminRole);
    case CreateTenant(within, slug, creator, systemRole, newId) =>
      RequestTenantUnique(s, within, slug, creator, systemRole, newId);
    case CreateRole(tenant, actor, code, permissions, newId) => CreateRoleUnique(s, tenant, actor, code, permissions, newId);
    case UpdateRole(tenant, id, code, enabled) => UpdateRoleUnique(s, tenant, id, code, enabled);
    case RemoveRole(tenant, id) => RemoveRoleOnlyDrops(s, tenant, id); OnlyDropsUnique(s.db, Apply(s, op).db);
    case RemoveTenant(id, hard) => RemoveTenantOnlyDrops(s, id, hard); OnlyDropsUnique(s.db, Apply(s, op).db);
    case RemoveUser(tenant, id, hard) => RemoveUserOnlyDrops(s, tenant, id, hard); OnlyDropsUnique(s.db, Apply(s, op).db);
    case SetPermissions(tenant, id, selected, actor) =>
      SetPermissionsKeepsKeys(s, tenant, id, selected, actor);
      SameKeysUnique(s.db, Apply(s, op).db);
    case SetPermission(tenant, id, permission, on, actor) =>
      SetPermissionKeepsKeys(s, tenant, id, permission, on, actor);
      SameKeysUnique(s.db, Apply(s, op).db);
    case SetRoles(tenant, id, roles, actor) =>
      SetRolesKeepsKeys(s, tenant, id, roles, actor);
      SameKeysUnique(s.db, Apply(s, op).db);
    case ReadAccess(_, _) => SameKeysUnique(s.db, Apply(s, op).db);
    case EntryExpires(_) => SameKeysUnique(s.db, Apply(s, op).db);
  }

  lemma {:induction false} UniqueRun(s: Sys, run: seq<Op>)
    requires KeysUnique(s.db) && ValidRun(s, run)
    ensures KeysUnique(Run(s, run).db)
    decreases |run|
  {
    if run != [] {
      UniqueStep(s, run[0]);
      UniqueRun(Apply(s, run[0]), run[1..]);
    }
  }

  /** After every run emails, slugs and role codes are unique, global role codes included. */
  lemma UniqueKeysHold(run: seq<Op>)
    requires ValidRun(EMPTY, run)
    ensures KeysUnique(Run(EMPTY, run).db)
  {
    UniqueRun(EMPTY, run);
  }
}
