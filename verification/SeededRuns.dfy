/** What seeding restored stays restored in every later run; from that, what the built-in administrator of a
    tenant may do. */
module SeededRuns {
  import opened Common
  import opened AccessModel
  import opened AccessCoherence
  import opened AccessRuns
  import opened AccessTheorems
  import opened AccessEffects
  import opened AccessVerdicts
  import Ops = AccessOps
  import Boots = AccessSeed

  /** Permissions and global roles stay as they are, and no binding of a global role goes. */
  ghost predicate KeepsGlobals(db: Db, db': Db) {
    && db'.permissions == db.permissions
    && (forall r :: r in db.roles && db.roles[r].tenant.None? ==> r in db'.roles && db'.roles[r] == db.roles[r])
    && (forall r :: r in db'.roles && db'.roles[r].tenant.None? ==> r in db.roles && db'.roles[r] == db.roles[r])
    && (forall b :: b in db.bindings && b.role in db.roles && db.roles[b.role].tenant.None? ==> b in db'.bindings)
  }

  lemma SameTables(db: Db, db': Db)
    requires db'.permissions == db.permissions && db'.roles == db.roles && db.bindings.Keys <= db'.bindings.Keys
    ensures KeepsGlobals(db, db')
  {
  }

  lemma EditRows(s: Sys, op: Op)
    requires Legit(s, op) && (op.SetPermissions? || op.SetPermission?)
    ensures var db := Apply(s, op).db; db == s.db.(bindings := db.bindings) && s.db.bindings.Keys <= db.bindings.Keys
  {
    hide GetUserAccess, Ops.EnableError, Ops.AllEnabled, Ops.CodesOf;
  }

  lemma LookupRows(s: Sys, op: Op)
    requires Legit(s, op) && (op.ReadAccess? || op.EntryExpires? || op.UpdateUser?)
    ensures SameRoleTables(s.db, Apply(s, op).db) && KeepsGlobals(s.db, Apply(s, op).db)
  {
  }

  ghost predicate SameRoleTables(db: Db, db': Db) {
    db'.roles == db.roles && db'.bindings == db.bindings && db'.permissions == db.permissions
  }

  lemma EnrollRows(s: Sys, tenant: Id, email: string, roles: set<Id>, existing: Option<Id>, memberRole: Option<Id>, newId: Id)
    ensures SameRoleTables(s.db, Ops.EnrollUser(s, tenant, email, roles, existing, memberRole, newId).sys.db)
  {
  }

  lemma CreateUserRows(s: Sys, tenant: Id, actor: Id, email: string, roles: set<Id>, existing: Option<Id>,
                       memberRole: Option<Id>, newId: Id)
    ensures SameRoleTables(s.db, Ops.CreateUser(s, tenant, actor, email, roles, existing, memberRole, newId).sys.db)
  {
    AssignableKeepsDb(s, actor, tenant, roles);
    var checked := if roles != {} then Ops.RolesAssignable(s, actor, tenant, roles) else Ops.Done(s);
    EnrollRows(checked.sys, tenant, email, roles, existing, memberRole, newId);
    hide Ops.RolesAssignable, Ops.EnrollUser;
  }

  lemma SetRolesRows(s: Sys, tenant: Id, id: Id, roles: set<Id>, actor: Id)
    ensures SameRoleTables(s.db, Ops.SetRoles(s, tenant, id, roles, actor).sys.db)
  {
    AssignableKeepsDb(s, actor, tenant, roles);
    hide Ops.RolesAssignable;
  }

  lemma RequestTenantRows(s: Sys, within: Id, slug: string, creator: Id, systemRole: Option<Id>, newId: Id)
    ensures SameRoleTables(s.db, Ops.RequestTenant(s, within, slug, creator, systemRole, newId).sys.db)
  {
    hide GetUserAccess;
  }

  lemma RegisterRows(s: Sys, email: Option<string>, defaultTenant: Option<Id>, memberRole: Option<Id>, newTenant: Id, newUser: Id)
    ensures SameRoleTables(s.db, Ops.RegisterVerifiedUser(s, email, defaultTenant, memberRole, newTenant, newUser).sys.db)
  {
  }

  lemma RemoveUserRows(s: Sys, tenant: Id, id: Id, hard: bool)
    ensures SameRoleTables(s.db, Ops.RemoveUser(s, tenant, id, hard).sys.db)
  {
  }

  lemma AddedRoleGlobals(db: Db, newId: Id, row: Role, ids: set<Id>)
    requires newId !in db.roles && row.tenant.Some?
    ensures KeepsGlobals(db, Ops.SetBindings(db.(roles := db.roles[newId := row]), newId, ids, ids))
  {
  }

  lemma CreateRoleGlobals(s: Sys, tenant: Id, actor: Id, code: string, permissions: seq<Id>, newId: Id)
    requires newId !in s.db.roles
    ensures KeepsGlobals(s.db, Ops.CreateRole(s, tenant, actor, code, permissions, newId).sys.db)
  {
    AddedRoleGlobals(s.db, newId, Role(Some(tenant), code, false, true), Ops.SetFrom(permissions));
    SameTables(s.db, s.db);
    hide View, KeepsGlobals, Ops.SetBindings, Ops.EnableError, Ops.AllEnabled, Ops.CodesOf, Ops.CodeTaken,
      Ops.Distinct, Ops.SetFrom;
  }

  lemma UpdateRoleGlobals(s: Sys, tenant: Id, id: Id, code: Option<string>, enabled: Option<bool>)
    ensures KeepsGlobals(s.db, Ops.UpdateRole(s, tenant, id, code, enabled).sys.db)
  {
    hide Ops.CodeTaken;
  }

  lemma RemoveRoleGlobals(s: Sys, tenant: Id, id: Id)
    ensures KeepsGlobals(s.db, Ops.RemoveRole(s, tenant, id).sys.db)
  {
  }

  lemma RemoveTenantGlobals(s: Sys, id: Id, hard: bool)
    ensures KeepsGlobals(s.db, Ops.RemoveTenant(s, id, hard).sys.db)
  {
  }

  lemma GoodParts(s: Sys)
    requires Good(s)
    ensures References(s.db) && s.db.roles.Keys <= s.issued && s.db.permissions.Keys <= s.issued && WfDb(s.db)
  {
  }

  /** Every operation but the boot itself; a change to a global role's definition is always refused. */
  lemma GlobalsStep(s: Sys, op: Op)
    requires Good(s) && Legit(s, op) && !op.Boot?
    ensures KeepsGlobals(s.db, Apply(s, op).db)
  {
    hide Good, KeepsGlobals, GetUserAccess, Ops.CreateRole, Ops.UpdateRole, Ops.RemoveRole, Ops.SetPermissions,
      Ops.SetPermission, Ops.CreateUser, Ops.UpdateUser, Ops.SetRoles, Ops.RemoveUser, Ops.RequestTenant, Ops.RemoveTenant,
      Ops.RegisterVerifiedUser;
    match op
    case ReadAccess(_, _) => LookupRows(s, op);
    case EntryExpires(_) => LookupRows(s, op);
    case CreateRole(tenant, actor, code, permissions, newId) =>
      GoodParts(s);
      CreateRoleGlobals(s, tenant, actor, code, permissions, newId);
    case UpdateRole(tenant, id, code, enabled) => UpdateRoleGlobals(s, tenant, id, code, enabled);
    case RemoveRole(tenant, id) => RemoveRoleGlobals(s, tenant, id);
    case RemoveTenant(id, hard) => RemoveTenantGlobals(s, id, hard);
    case SetPermissions(_, _, _, _) => EditRows(s, op); SameTables(s.db, Apply(s, op).db);
    case SetPermission(_, _, _, _, _) => EditRows(s, op); SameTables(s.db, Apply(s, op).db);
    case UpdateUser(_, _, _) => LookupRows(s, op);
    case CreateUser(tenant, actor, email, roles, existing, memberRole, newId) =>
      CreateUserRows(s, tenant, actor, email, roles, existing, memberRole, newId);
      SameTables(s.db, Apply(s, op).db);
    case SetRoles(tenant, id, roles, actor) =>
      SetRolesRows(s, tenant, id, roles, actor);
      SameTables(s.db, Apply(s, op).db);
    case RemoveUser(tenant, id, hard) =>
      RemoveUserRows(s, tenant, id, hard);
      SameTables(s.db, Apply(s, op).db);
    case CreateTenant(within, slug, creator, systemRole, newId) =>
      RequestTenantRows(s, within, slug, creator, systemRole, newId);
      SameTables(s.db, Apply(s, op).db);
    case Register(email, defaultTenant, memberRole, newTenant, newUser) =>
      RegisterRows(s, email, defaultTenant, memberRole, newTenant, newUser);
      SameTables(s.db, Apply(s, op).db);
  }

  lemma SeededStays(db: Db, db': Db)
    requires Seeded(db) && KeepsGlobals(db, db')
    ensures Seeded(db')
  {
    forall c | c in BUILT_IN_PERMISSIONS ensures exists p :: Boots.HasCode(db', p, c) {
      var p :| Boots.HasCode(db, p, c);
      assert Boots.HasCode(db', p, c);
    }
    forall c | c in BUILT_IN_ROLES ensures Boots.HasGlobal(db', c) {
      var r :| Boots.IsGlobal(db, r, c);
      assert Boots.IsGlobal(db', r, c);
    }
    forall r, c | Boots.IsGlobal(db', r, c) ensures Boots.IsGlobal(db, r, c) {}
    assert BindingsSeeded(db');
  }

  lemma BootSeeds(s: Sys, op: Op)
    requires Good(s) && Legit(s, op) && op.Boot?
    ensures Seeded(Apply(s, op).db)
  {
    GoodParts(s);
    BootRows(s, op);
    hide Good, Seeded, Boots.Seed, Boots.Boot, KeepsGlobals, WfDb;
    SeedRestores(s.db, op.permissionIds, op.roleIds);
    SameTables(Boots.Seed(s.db, op.permissionIds, op.roleIds), Apply(s, op).db);
    SeededStays(Boots.Seed(s.db, op.permissionIds, op.roleIds), Apply(s, op).db);
  }

  lemma SeedAdminRows(s: Sys, a: Boots.AdminSeed, adminRole: Id)
    ensures SameRoleTables(s.db, Boots.SeedAdmin(s, a, adminRole).db)
  {
  }

  lemma BootRows(s: Sys, op: Op)
    requires Legit(s, op) && op.Boot?
    ensures SameRoleTables(Boots.Seed(s.db, op.permissionIds, op.roleIds), Apply(s, op).db)
  {
    hide Boots.Seed, Boots.SeedAdmin, Finds, LegitAdmin, Ops.SetFrom, Ops.Distinct;
    if op.admin.Some? { SeedAdminRows(Boots.SeedAll(s, op.permissionIds, op.roleIds), op.admin.value, op.adminRole); }
  }

  predicate Booted(run: seq<Op>) { exists i :: 0 <= i < |run| && run[i].Boot? }

  lemma {:induction false} RunSeeded(s: Sys, run: seq<Op>)
    requires Good(s) && ValidRun(s, run) && (Seeded(s.db) || Booted(run))
    ensures Seeded(Run(s, run).db)
    decreases |run|
  {
    hide Good, Seeded, Legit, Apply;
    if run != [] {
      var s' := Apply(s, run[0]);
      StepKeeps(s, run[0]);
      if run[0].Boot? {
        BootSeeds(s, run[0]);
      } else {
        GlobalsStep(s, run[0]);
        if Seeded(s.db) { SeededStays(s.db, s'.db); }
        if Booted(run) {
          var i :| 0 <= i < |run| && run[i].Boot?;
          assert run[1..][i - 1].Boot?;
        }
      }
      RunSeeded(s', run[1..]);
    }
  }

  // ---------------------------------------------------------------- switches of one role

  predicate Edits(op: Op, role: Id) {
    (op.SetPermissions? && op.id == role) || (op.SetPermission? && op.id == role)
  }

  predicate AllOn(db: Db, role: Id) { forall b :: b in db.bindings && b.role == role ==> db.bindings[b] }

  lemma CreateRoleSwitches(s: Sys, tenant: Id, actor: Id, code: string, permissions: seq<Id>, newId: Id, role: Id)
    requires AllOn(s.db, role)
    ensures AllOn(Ops.CreateRole(s, tenant, actor, code, permissions, newId).sys.db, role)
  {
    hide View, Ops.EnableError, Ops.AllEnabled, Ops.CodesOf, Ops.CodeTaken, Ops.Distinct;
  }

  lemma FlagsElsewhere(db: Db, id: Id, ids: set<Id>, on: set<Id>, role: Id)
    requires id != role && AllOn(db, role)
    ensures AllOn(Ops.SetBindings(db, id, ids, on), role)
  {
  }

  lemma EditSwitches(s: Sys, op: Op, role: Id)
    requires Legit(s, op) && (op.SetPermissions? || op.SetPermission?) && op.id != role && AllOn(s.db, role)
    ensures AllOn(Apply(s, op).db, role)
  {
    if op.SetPermissions? {
      var all := set p | p in s.db.permissions && Enabled(s.db, p);
      FlagsElsewhere(s.db, op.id, all, op.selected, role);
    } else {
      FlagsElsewhere(s.db, op.id, {op.permission}, if op.on then {op.permission} else {}, role);
    }
    hide AllOn, GetUserAccess, Ops.SetBindings, Ops.EnableError, Ops.AllEnabled, Ops.CodesOf;
  }

  lemma DropSwitches(s: Sys, op: Op, role: Id)
    requires Legit(s, op) && (op.RemoveRole? || op.RemoveTenant?) && AllOn(s.db, role)
    ensures AllOn(Apply(s, op).db, role)
  {
  }

  lemma BootSwitches(s: Sys, op: Op, role: Id)
    requires Legit(s, op) && op.Boot? && AllOn(s.db, role)
    ensures AllOn(Apply(s, op).db, role)
  {
    BootRows(s, op);
    var db := Boots.Seed(s.db, op.permissionIds, op.roleIds);
    hide Boots.Seed, Boots.Boot, Legit;
    forall b | b in db.bindings && b.role == role ensures db.bindings[b] {
      SeedKeepsSwitches(s.db, op.permissionIds, op.roleIds, b);
    }
  }

  /** Only an edit of the role itself switches anything off for it. */
  lemma SwitchesStep(s: Sys, op: Op, role: Id)
    requires Good(s) && Legit(s, op) && !Edits(op, role) && AllOn(s.db, role)
    ensures AllOn(Apply(s, op).db, role)
  {
    hide Good, GetUserAccess, Ops.CreateRole, Ops.UpdateRole, Ops.RemoveRole, Ops.SetPermissions, Ops.SetPermission,
      Ops.CreateUser, Ops.UpdateUser, Ops.SetRoles, Ops.RemoveUser, Ops.RequestTenant, Ops.RemoveTenant,
      Ops.RegisterVerifiedUser, Boots.Boot;
    match op
    case Boot(_, _, _, _) => BootSwitches(s, op, role);
    case CreateRole(tenant, actor, code, permissions, newId) =>
      CreateRoleSwitches(s, tenant, actor, code, permissions, newId, role);
    case SetPermissions(_, _, _, _) => EditSwitches(s, op, role);
    case SetPermission(_, _, _, _, _) => EditSwitches(s, op, role);
    case RemoveRole(_, _) => DropSwitches(s, op, role);
    case RemoveTenant(_, _) => DropSwitches(s, op, role);
    case CreateUser(tenant, actor, email, roles, existing, memberRole, newId) =>
      CreateUserRows(s, tenant, actor, email, roles, existing, memberRole, newId);
    case SetRoles(tenant, id, roles, actor) => SetRolesRows(s, tenant, id, roles, actor);
    case RemoveUser(tenant, id, hard) => RemoveUserRows(s, tenant, id, hard);
    case CreateTenant(within, slug, creator, systemRole, newId) =>
      RequestTenantRows(s, within, slug, creator, systemRole, newId);
    case Register(email, defaultTenant, memberRole, newTenant, newUser) =>
      RegisterRows(s, email, defaultTenant, memberRole, newTenant, newUser);
    case UpdateRole(tenant, id, code, enabled) => UpdateRoleRows(s, tenant, id, code, enabled);
    case ReadAccess(_, _) => LookupRows(s, op);
    case EntryExpires(_) => LookupRows(s, op);
    case UpdateUser(_, _, _) => LookupRows(s, op);
  }

  lemma UpdateRoleRows(s: Sys, tenant: Id, id: Id, code: Option<string>, enabled: Option<bool>)
    ensures Ops.UpdateRole(s, tenant, id, code, enabled).sys.db.bindings == s.db.bindings
  {
  }

  lemma {:induction false} RunSwitches(s: Sys, run: seq<Op>, role: Id)
    requires Good(s) && ValidRun(s, run) && AllOn(s.db, role) && forall i :: 0 <= i < |run| ==> !Edits(run[i], role)
    ensures AllOn(Run(s, run).db, role)
    decreases |run|
  {
    hide Good, AllOn, Legit, Apply, Edits;
    if run != [] {
      StepKeeps(s, run[0]);
      SwitchesStep(s, run[0], role);
      RunSwitches(Apply(s, run[0]), run[1..], role);
    }
  }

  lemma AdminRow(db: Db, admin: Id, code: string) returns (p: Id)
    requires Seeded(db) && Boots.IsGlobal(db, admin, ADMIN) && code in TENANT_ADMIN_PERMISSIONS
    ensures Boots.HasCode(db, p, code) && db.permissions[p].enabled && Binding(admin, p) in db.bindings
  {
    assert code in BUILT_IN_PERMISSIONS;
    p :| Boots.HasCode(db, p, code);
  }

  lemma AdminGuard(s: Sys, user: Id, tenant: Id, admin: Id, code: string) returns (p: Id)
    requires Reachable(s) && Seeded(s.db) && code in TENANT_ADMIN_PERMISSIONS
    requires Boots.IsGlobal(s.db, admin, ADMIN) && ActiveMember(s.db, user, tenant) && Carries(s.db, user, tenant, admin)
    ensures Boots.HasCode(s.db, p, code) && Binding(admin, p) in s.db.bindings
    ensures s.db.bindings[Binding(admin, p)] ==> Ops.PermissionsGuard(s, user, tenant, {code}).error.None?
    ensures AllOn(s.db, admin) ==> s.db.bindings[Binding(admin, p)]
  {
    p := AdminRow(s.db, admin, code);
    assert Current(s, user, tenant);
    hide Ops.PermissionsGuard, Carries, Seeded, Reachable, ActiveMember, CarriesRole, Current;
    PermissionsGuardExactly(s, user, tenant, {code});
    if s.db.bindings[Binding(admin, p)] {
      assert SwitchesOn(s.db, Binding(admin, p), code);
      assert CarriesCode(s.db, user, tenant, code);
    }
  }

  lemma FromEmpty(run: seq<Op>, role: Id)
    requires ValidRun(EMPTY, run) && Booted(run)
    ensures Reachable(Run(EMPTY, run)) && Seeded(Run(EMPTY, run).db)
    ensures (forall i :: 0 <= i < |run| ==> !Edits(run[i], role)) ==> AllOn(Run(EMPTY, run).db, role)
  {
    hide *;
    RunsReach(run);
    NothingOff(role);
    RunSeeded(EMPTY, run);
    if forall i :: 0 <= i < |run| ==> !Edits(run[i], role) { RunSwitches(EMPTY, run, role); }
  }

  lemma RunsReach(run: seq<Op>)
    requires ValidRun(EMPTY, run)
    ensures Reachable(Run(EMPTY, run))
  {
  }

  lemma NothingOff(role: Id)
    ensures AllOn(EMPTY.db, role) && Good(EMPTY)
  {
  }

  /** After every run with a boot in it, an active member who carries the built-in role `admin` gets past
      the permission guard for each of the tenant administrator's permissions, unless its switch was turned
      off, which takes an edit of that role. */
  lemma AdminsPass(run: seq<Op>, user: Id, tenant: Id, admin: Id, code: string)
    requires ValidRun(EMPTY, run) && Booted(run) && code in TENANT_ADMIN_PERMISSIONS
    requires var db := Run(EMPTY, run).db;
             Boots.IsGlobal(db, admin, ADMIN) && ActiveMember(db, user, tenant) && Carries(db, user, tenant, admin)
    ensures var s := Run(EMPTY, run);
            Ops.PermissionsGuard(s, user, tenant, {code}).error.Some? ==>
              && (exists p :: Boots.HasCode(s.db, p, code) && Binding(admin, p) in s.db.bindings &&
                              !s.db.bindings[Binding(admin, p)])
              && (exists i :: 0 <= i < |run| && Edits(run[i], admin))
  {
    hide *;
    FromEmpty(run, admin);
    var p := AdminGuard(Run(EMPTY, run), user, tenant, admin, code);
  }
}
