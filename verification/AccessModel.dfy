/** The relational access model, the view `getUserAccess` derives from it, and its cache. */
module AccessModel {
  import opened Common

  type Id = string

  const SYSTEM_ADMIN := "system_admin"
  const ADMIN := "admin"
  const MEMBER := "member"
  const VIEWER := "viewer"
  const BUILT_IN_ROLES := [SYSTEM_ADMIN, ADMIN, MEMBER, VIEWER]
  const RESERVED := {SYSTEM_ADMIN, ADMIN, MEMBER, VIEWER}

  const TENANT_ADMIN_PERMISSIONS := [
    "user.read", "user.create", "user.update", "user.delete", "user.assign_roles",
    "role.read", "role.create", "role.update", "role.delete", "role.assign_permissions", "permission.read"]
  const PLATFORM_PERMISSIONS := ["tenant.read", TENANT_CREATE, "tenant.update", "tenant.delete"]
  const TENANT_CREATE := "tenant.create"
  const BUILT_IN_PERMISSIONS := TENANT_ADMIN_PERMISSIONS + PLATFORM_PERMISSIONS + ["dead_letter.retry"]

  datatype User = User(email: Option<string>, active: bool)
  datatype Tenant = Tenant(slug: string, active: bool)
  datatype Role = Role(tenant: Option<Id>, code: string, builtIn: bool, enabled: bool)
  datatype Permission = Permission(code: string, enabled: bool)
  datatype Member = Member(user: Id, tenant: Id)
  datatype Binding = Binding(role: Id, permission: Id)
  datatype Assignment = Assignment(user: Id, tenant: Id, role: Id)

  /** The tables, each keyed by its primary key; a membership and a binding map to their flag. */
  datatype Db = Db(
    users: map<Id, User>,
    tenants: map<Id, Tenant>,
    memberships: map<Member, bool>,
    roles: map<Id, Role>,
    permissions: map<Id, Permission>,
    bindings: map<Binding, bool>,
    assignments: set<Assignment>)

  /** The sorted, duplicate-free lists of the source are sets here. */
  datatype UserAccess = UserAccess(roles: set<string>, permissions: set<string>)

  predicate IsSystemAdminRole(r: Role) { r.builtIn && r.tenant == None && r.code == SYSTEM_ADMIN }

  predicate InScope(r: Role, tenant: Id) { r.tenant == None || r.tenant == Some(tenant) }

  /** Enabled roles in scope that are assigned to the user in the tenant. */
  function Assigned(db: Db, user: Id, tenant: Id): set<Id> {
    set a | a in db.assignments && a.user == user && a.tenant == tenant && a.role in db.roles &&
            db.roles[a.role].enabled && InScope(db.roles[a.role], tenant) :: a.role
  }

  function RoleCodes(db: Db, roles: set<Id>): set<string> {
    set r | r in roles && r in db.roles :: db.roles[r].code
  }

  predicate Enabled(db: Db, p: Id) { p in db.permissions && db.permissions[p].enabled }

  predicate Grants(db: Db, b: Binding) { b in db.bindings && db.bindings[b] && Enabled(db, b.permission) }

  function GrantedCodes(db: Db, roles: set<Id>): set<string> {
    set b | b in db.bindings && b.role in roles && Grants(db, b) :: db.permissions[b.permission].code
  }

  function EnabledCodes(db: Db): set<string> {
    set p | p in db.permissions && Enabled(db, p) :: db.permissions[p].code
  }

  predicate HoldsSystemAdmin(db: Db, user: Id, tenant: Id) {
    exists r :: r in Assigned(db, user, tenant) && r in db.roles && IsSystemAdminRole(db.roles[r])
  }

  function AccessOf(db: Db, user: Id, tenant: Id): UserAccess {
    var roles := Assigned(db, user, tenant);
    UserAccess(RoleCodes(db, roles),
               if HoldsSystemAdmin(db, user, tenant) then EnabledCodes(db) else GrantedCodes(db, roles))
  }

  /** An active member of the tenant, whether or not the tenant itself is active. */
  predicate Belongs(db: Db, user: Id, tenant: Id) {
    && Member(user, tenant) in db.memberships && db.memberships[Member(user, tenant)]
    && user in db.users && db.users[user].active && tenant in db.tenants
  }

  /** What a fresh computation yields: the access, or nothing for anyone but an active member of an
      active tenant. */
  function View(db: Db, user: Id, tenant: Id): Option<UserAccess> {
    if Belongs(db, user, tenant) && db.tenants[tenant].active then Some(AccessOf(db, user, tenant)) else None
  }

  /** The same with the tenant's own active flag left out. */
  function LooseView(db: Db, user: Id, tenant: Id): Option<UserAccess> {
    if Belongs(db, user, tenant) then Some(AccessOf(db, user, tenant)) else None
  }

  /** Tables, access cache, and the ids ever given out (ids are never reused). */
  datatype Sys = Sys(db: Db, cache: map<Member, UserAccess>, issued: set<Id>)

  /** `getUserAccess`: a cached entry, or a fresh computation that is then cached. */
  function GetUserAccess(s: Sys, user: Id, tenant: Id): (Sys, Option<UserAccess>) {
    var k := Member(user, tenant);
    if k in s.cache then (s, Some(s.cache[k]))
    else
      match View(s.db, user, tenant)
      case None => (s, None)
      case Some(a) => (s.(cache := s.cache[k := a]), Some(a))
  }

  function InvalidateUser(s: Sys, user: Id): Sys {
    s.(cache := map k | k in s.cache && k.user != user :: s.cache[k])
  }

  function InvalidateMember(s: Sys, user: Id, tenant: Id): Sys {
    s.(cache := s.cache - {Member(user, tenant)})
  }

  function InvalidateTenant(s: Sys, tenant: Id): Sys {
    s.(cache := map k | k in s.cache && k.tenant != tenant :: s.cache[k])
  }

  function InvalidateAll(s: Sys): Sys { s.(cache := map[]) }

  // ---------------------------------------------------------------- what the schema guarantees

  /** Foreign keys with cascading deletes. */
  ghost predicate References(db: Db) {
    && (forall m :: m in db.memberships ==> m.user in db.users && m.tenant in db.tenants)
    && (forall r :: r in db.roles && db.roles[r].tenant.Some? ==> db.roles[r].tenant.value in db.tenants)
    && (forall b :: b in db.bindings ==> b.role in db.roles && b.permission in db.permissions)
    && (forall a :: a in db.assignments ==> a.user in db.users && a.tenant in db.tenants && a.role in db.roles)
  }

  /** Every id in a table or in a cache key has been issued. */
  ghost predicate IdsIssued(s: Sys) {
    && s.db.users.Keys <= s.issued && s.db.tenants.Keys <= s.issued
    && s.db.roles.Keys <= s.issued && s.db.permissions.Keys <= s.issued
    && (forall k :: k in s.cache ==> k.tenant in s.issued)
  }

  /** Built-in codes belong to global built-in roles, and to nobody else. */
  ghost predicate CodesReserved(db: Db) {
    forall r :: r in db.roles ==>
      if db.roles[r].tenant == None then db.roles[r].builtIn && db.roles[r].code in RESERVED
      else !db.roles[r].builtIn && db.roles[r].code !in RESERVED
  }

  /** A role is only assigned inside its own tenant. */
  ghost predicate AssignmentsScoped(db: Db) {
    forall a :: a in db.assignments && a.role in db.roles ==> InScope(db.roles[a.role], a.tenant)
  }

  predicate SwitchesOnPlatform(db: Db, b: Binding)
    requires b in db.bindings
  {
    && db.bindings[b] && b.role in db.roles && b.permission in db.permissions
    && db.permissions[b.permission].code in PLATFORM_PERMISSIONS
  }

  /** Only the system_admin role has a platform permission switched on. */
  ghost predicate Confined(db: Db) {
    forall b :: b in db.bindings && SwitchesOnPlatform(db, b) ==> IsSystemAdminRole(db.roles[b.role])
  }

  /** Permission codes are unique. */
  ghost predicate CodesUnique(db: Db) {
    forall p, q :: p in db.permissions && q in db.permissions && db.permissions[p].code == db.permissions[q].code ==> p == q
  }

  ghost predicate WfDb(db: Db) {
    References(db) && CodesReserved(db) && CodesUnique(db) && AssignmentsScoped(db) && Confined(db)
  }

  /** A platform permission only comes together with the system_admin role. */
  ghost predicate PlatformNeedsAdmin(a: UserAccess) {
    (exists c :: c in a.permissions && c in PLATFORM_PERMISSIONS) ==> SYSTEM_ADMIN in a.roles
  }

  ghost predicate CacheConfined(s: Sys) { forall k :: k in s.cache ==> PlatformNeedsAdmin(s.cache[k]) }

  ghost predicate Wf(s: Sys) { WfDb(s.db) && IdsIssued(s) && CacheConfined(s) }

  /** Every cached entry of a tenant that still exists is what a fresh computation yields, the
      tenant's own active flag aside. */
  ghost predicate Coherent(s: Sys) {
    forall k :: k in s.cache && k.tenant in s.db.tenants ==> LooseView(s.db, k.user, k.tenant) == Some(s.cache[k])
  }

  ghost predicate SameRole(db: Db, db': Db, r: Id) {
    r in db.roles && r in db'.roles && db.roles[r].code == db'.roles[r].code &&
    (IsSystemAdminRole(db.roles[r]) <==> IsSystemAdminRole(db'.roles[r]))
  }

  /** The view depends only on the user, the membership, the roles assigned in the tenant, their
      bindings and the permissions. */
  lemma ViewFrame(db: Db, db': Db, user: Id, tenant: Id)
    requires Belongs(db, user, tenant) == Belongs(db', user, tenant)
    requires Assigned(db, user, tenant) == Assigned(db', user, tenant)
    requires forall r :: r in Assigned(db, user, tenant) ==> SameRole(db, db', r)
    requires forall b: Binding :: b.role in Assigned(db, user, tenant) ==> (Grants(db, b) <==> Grants(db', b))
    requires db.permissions == db'.permissions
    ensures LooseView(db, user, tenant) == LooseView(db', user, tenant)
  {
    var roles := Assigned(db, user, tenant);
    assert RoleCodes(db, roles) == RoleCodes(db', roles);
    assert GrantedCodes(db, roles) == GrantedCodes(db', roles);
    assert EnabledCodes(db) == EnabledCodes(db');
    assert HoldsSystemAdmin(db, user, tenant) == HoldsSystemAdmin(db', user, tenant);
  }
}
