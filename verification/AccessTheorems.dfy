/** Claims about every run of the access operations from an empty database and cache. */
module AccessTheorems {
  import opened AccessModel
  import opened AccessRuns
  import opened AccessCoherence
  import Ops = AccessOps

  lemma StepKeeps(s: Sys, op: Op)
    requires Good(s) && Legit(s, op)
    ensures Good(Apply(s, op))
  {
    match op
    case ReadAccess(user, tenant) => FillKeeps(s, user, tenant);
    case EntryExpires(key) => WriteKeeps(s, Apply(s, op));
    case CreateRole(tenant, actor, code, permissions, newId) =>
      CreateRoleKeeps(s, tenant, actor, code, permissions, newId);
    case UpdateRole(tenant, id, code, enabled) => UpdateRoleKeeps(s, tenant, id, code, enabled);
    case SetPermissions(tenant, id, selected, actor) => SetPermissionsKeeps(s, tenant, id, selected, actor);
    case SetPermission(tenant, id, permission, on, actor) => SetPermissionKeeps(s, tenant, id, permission, on, actor);
    case RemoveRole(tenant, id) => RemoveRoleKeeps(s, tenant, id);
    case CreateUser(tenant, actor, email, roles, existing, memberRole, newId) =>
      CreateUserKeeps(s, tenant, actor, email, roles, existing, memberRole, newId);
    case UpdateUser(tenant, id, email) => UpdateUserKeeps(s, tenant, id, email);
    case SetRoles(tenant, id, roles, actor) => SetRolesKeeps(s, tenant, id, roles, actor);
    case RemoveUser(tenant, id, hard) => RemoveUserKeeps(s, tenant, id, hard);
    case CreateTenant(within, slug, creator, systemRole, newId) =>
      RequestTenantKeeps(s, within, slug, creator, systemRole, newId);
    case RemoveTenant(id, hard) => RemoveTenantKeeps(s, id, hard);
    case Register(email, defaultTenant, memberRole, newTenant, newUser) =>
      RegisterKeeps(s, email, defaultTenant, memberRole, newTenant, newUser);
    case Boot(permissionIds, roleIds, admin, adminRole) => BootKeeps(s, permissionIds, roleIds, admin, adminRole);
  }

  lemma {:induction false} RunKeeps(s: Sys, run: seq<Op>)
    requires Good(s) && ValidRun(s, run)
    ensures Good(Run(s, run))
    decreases |run|
  {
    if run != [] {
      StepKeeps(s, run[0]);
      RunKeeps(Apply(s, run[0]), run[1..]);
    }
  }

  /** After any run, an answer about an active tenant is what the tables say at that moment. */
  lemma CacheIsCoherent(run: seq<Op>, user: Id, tenant: Id)
    requires ValidRun(EMPTY, run)
    requires var db := Run(EMPTY, run).db; tenant in db.tenants && db.tenants[tenant].active
    ensures var s := Run(EMPTY, run); GetUserAccess(s, user, tenant).1 == View(s.db, user, tenant)
  {
    RunKeeps(EMPTY, run);
  }

  /** Exactly then: a cached entry of an inactive or deleted tenant is still answered, although a fresh
      computation would refuse. */
  lemma AnswersAreCurrentExactlyWhen(run: seq<Op>, user: Id, tenant: Id)
    requires ValidRun(EMPTY, run)
    ensures var s := Run(EMPTY, run);
            GetUserAccess(s, user, tenant).1 == View(s.db, user, tenant) <==>
            (Member(user, tenant) in s.cache ==> tenant in s.db.tenants && s.db.tenants[tenant].active)
  {
    RunKeeps(EMPTY, run);
  }

  /** Only system_admin has a `tenant.*` permission switched on, and nobody is ever answered such a
      permission, not even from the cache for a tenant that is gone, without the role. */
  lemma PlatformPermissionsAreConfined(run: seq<Op>, user: Id, tenant: Id, b: Binding)
    requires ValidRun(EMPTY, run)
    ensures var s := Run(EMPTY, run); var answer := GetUserAccess(s, user, tenant).1;
            answer.Some? ==> PlatformNeedsAdmin(answer.value)
    ensures var db := Run(EMPTY, run).db;
            b in db.bindings && SwitchesOnPlatform(db, b) ==> IsSystemAdminRole(db.roles[b.role])
  {
    RunKeeps(EMPTY, run);
    ViewConfined(Run(EMPTY, run).db, user, tenant);
  }

  /** Both guards of the tenant endpoints decide alike: a request that needs a `tenant.*` permission gets
      through after any run exactly when its sender is answered the system_admin role. */
  lemma PlatformGuardsAgree(run: seq<Op>, user: Id, tenant: Id, required: set<string>)
    requires ValidRun(EMPTY, run) && required != {} && forall c :: c in required ==> c in PLATFORM_PERMISSIONS
    ensures var s := Run(EMPTY, run);
            var answer := GetUserAccess(s, user, tenant).1;
            var admin := answer.Some? && SYSTEM_ADMIN in answer.value.roles;
            && (Ops.RolesGuard(s, user, tenant, {SYSTEM_ADMIN}).error.None? <==> admin)
            && (Ops.PermissionsGuard(s, user, tenant, required).error.None? <==> admin)
  {
    PlatformPermissionsAreConfined(run, user, tenant, Binding("", ""));
    var answer := GetUserAccess(Run(EMPTY, run), user, tenant).1;
    if answer.Some? && required * answer.value.permissions != {} {
      var c :| c in required * answer.value.permissions;
      assert c in answer.value.permissions && c in PLATFORM_PERMISSIONS;
    }
    assert answer.Some? && SYSTEM_ADMIN !in answer.value.roles ==> {SYSTEM_ADMIN} * answer.value.roles == {};
  }

  /** Looking for the code in an answered role list is the same as the structural test on the tables. */
  lemma AdminTestsAgree(run: seq<Op>, user: Id, tenant: Id)
    requires ValidRun(EMPTY, run) && tenant in Run(EMPTY, run).db.tenants
    ensures var s := Run(EMPTY, run); var answer := GetUserAccess(s, user, tenant).1;
            answer.Some? ==> (SYSTEM_ADMIN in answer.value.roles <==> HoldsSystemAdmin(s.db, user, tenant))
  {
    RunKeeps(EMPTY, run);
    CodesTellAdmins(Run(EMPTY, run).db, user, tenant);
  }

  /** The same for roles: the code alone tells the built-in role from every other. */
  lemma CodeIsTheAdminRole(run: seq<Op>, role: Id)
    requires ValidRun(EMPTY, run) && role in Run(EMPTY, run).db.roles
    ensures var r := Run(EMPTY, run).db.roles[role]; r.code == SYSTEM_ADMIN <==> IsSystemAdminRole(r)
  {
    RunKeeps(EMPTY, run);
  }
}
