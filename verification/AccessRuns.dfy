/** Runs of the access operations: any sequence of completed calls, cache fills and expiries. */
module AccessRuns {
  import opened Common
  import opened AccessModel
  import Ops = AccessOps
  import Boots = AccessSeed

  datatype Op =
    | ReadAccess(user: Id, tenant: Id)
    | EntryExpires(key: Member)
    | CreateRole(tenant: Id, actor: Id, code: string, permissions: seq<Id>, newId: Id)
    | UpdateRole(tenant: Id, id: Id, newCode: Option<string>, enabled: Option<bool>)
    | SetPermissions(tenant: Id, id: Id, selected: set<Id>, actor: Id)
    | SetPermission(tenant: Id, id: Id, permission: Id, on: bool, actor: Id)
    | RemoveRole(tenant: Id, id: Id)
    | CreateUser(tenant: Id, actor: Id, email: string, roles: set<Id>, existing: Option<Id>, memberRole: Option<Id>, newId: Id)
    | UpdateUser(tenant: Id, id: Id, newEmail: Option<string>)
    | SetRoles(tenant: Id, id: Id, roles: set<Id>, actor: Id)
    | RemoveUser(tenant: Id, id: Id, hard: bool)
    | CreateTenant(within: Id, slug: string, creator: Id, systemRole: Option<Id>, newId: Id)
    | RemoveTenant(id: Id, hard: bool)
    | Register(newEmail: Option<string>, defaultTenant: Option<Id>, memberRole: Option<Id>, newTenant: Id, newUser: Id)
    | Boot(permissionIds: seq<Id>, roleIds: seq<Id>, admin: Option<Boots.AdminSeed>, adminRole: Id)

  /** `findFirst` with a condition: a row that meets it, or nothing when none does. */
  predicate Finds(found: Option<Id>, rows: set<Id>) {
    if found.Some? then found.value in rows else rows == {}
  }

  function DefaultRoles(db: Db): set<Id> { set r | r in db.roles && Ops.IsDefaultRole(db.roles[r]) }

  function SystemRoles(db: Db): set<Id> { set r | r in db.roles && IsSystemAdminRole(db.roles[r]) }

  function DefaultTenants(db: Db): set<Id> { set t | t in db.tenants && db.tenants[t].slug == "default" }

  /** New ids are fresh, and rows the database was asked for are the ones it holds. */
  ghost predicate Legit(s: Sys, op: Op) {
    match op
    case CreateRole(_, _, _, _, newId) => newId !in s.issued
    case CreateUser(_, _, email, _, existing, memberRole, newId) =>
      newId !in s.issued && Finds(existing, Ops.ByEmail(s.db, email)) && Finds(memberRole, DefaultRoles(s.db))
    case CreateTenant(_, _, _, systemRole, newId) => newId !in s.issued && Finds(systemRole, SystemRoles(s.db))
    case Register(_, defaultTenant, memberRole, newTenant, newUser) =>
      newTenant !in s.issued && newUser !in s.issued && newTenant != newUser &&
      Finds(defaultTenant, DefaultTenants(s.db)) && Finds(memberRole, DefaultRoles(s.db))
    case Boot(permissionIds, roleIds, admin, adminRole) =>
      && |permissionIds| == |BUILT_IN_PERMISSIONS| && |roleIds| == |BUILT_IN_ROLES|
      && Ops.Distinct(permissionIds) && Ops.Distinct(roleIds)
      && Ops.SetFrom(permissionIds) !! s.issued && Ops.SetFrom(roleIds) !! s.issued
      && (admin.Some? ==> LegitAdmin(s, permissionIds, roleIds, admin.value, adminRole))
    case _ => true
  }

  ghost predicate LegitAdmin(s: Sys, permissionIds: seq<Id>, roleIds: seq<Id>, a: Boots.AdminSeed, adminRole: Id)
    requires |permissionIds| == |BUILT_IN_PERMISSIONS| && |roleIds| == |BUILT_IN_ROLES|
  {
    var taken := s.issued + Ops.SetFrom(permissionIds) + Ops.SetFrom(roleIds);
    && a.newTenant !in taken && a.newUser !in taken && a.newTenant != a.newUser
    && Finds(a.existing, Ops.ByEmail(s.db, a.email)) && Finds(a.defaultTenant, DefaultTenants(s.db))
    && Boots.IsGlobal(Boots.Seed(s.db, permissionIds, roleIds), adminRole, SYSTEM_ADMIN)
  }

  ghost function Apply(s: Sys, op: Op): Sys
    requires Legit(s, op)
  {
    match op
    case ReadAccess(user, tenant) => GetUserAccess(s, user, tenant).0
    case EntryExpires(key) => s.(cache := s.cache - {key})
    case CreateRole(tenant, actor, code, permissions, newId) =>
      Ops.CreateRole(s, tenant, actor, code, permissions, newId).sys
    case UpdateRole(tenant, id, code, enabled) => Ops.UpdateRole(s, tenant, id, code, enabled).sys
    case SetPermissions(tenant, id, selected, actor) => Ops.SetPermissions(s, tenant, id, selected, actor).sys
    case SetPermission(tenant, id, permission, on, actor) =>
      Ops.SetPermission(s, tenant, id, permission, on, actor).sys
    case RemoveRole(tenant, id) => Ops.RemoveRole(s, tenant, id).sys
    case CreateUser(tenant, actor, email, roles, existing, memberRole, newId) =>
      Ops.CreateUser(s, tenant, actor, email, roles, existing, memberRole, newId).sys
    case UpdateUser(tenant, id, email) => Ops.UpdateUser(s, tenant, id, email).sys
    case SetRoles(tenant, id, roles, actor) => Ops.SetRoles(s, tenant, id, roles, actor).sys
    case RemoveUser(tenant, id, hard) => Ops.RemoveUser(s, tenant, id, hard).sys
    case CreateTenant(within, slug, creator, systemRole, newId) =>
      Ops.RequestTenant(s, within, slug, creator, systemRole, newId).sys
    case RemoveTenant(id, hard) => Ops.RemoveTenant(s, id, hard).sys
    case Register(email, defaultTenant, memberRole, newTenant, newUser) =>
      Ops.RegisterVerifiedUser(s, email, defaultTenant, memberRole, newTenant, newUser).sys
    case Boot(permissionIds, roleIds, admin, adminRole) => Boots.Boot(s, permissionIds, roleIds, admin, adminRole)
  }

  ghost predicate ValidRun(s: Sys, run: seq<Op>)
    decreases |run|
  {
    run == [] || (Legit(s, run[0]) && ValidRun(Apply(s, run[0]), run[1..]))
  }

  ghost function Run(s: Sys, run: seq<Op>): Sys
    requires ValidRun(s, run)
    decreases |run|
  {
    if run == [] then s else Run(Apply(s, run[0]), run[1..])
  }

  const EMPTY := Sys(Db(map[], map[], map[], map[], map[], map[], {}), map[], {})
}
