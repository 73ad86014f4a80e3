/** The operations that change users, roles, permissions and tenants, each as one completed call: the
    checks in source order, the rows written, and the cache entries deleted. */
module AccessOps {
  import opened Common
  import opened AccessModel

  /** `Rejected` is a constraint violation the service lets through unchanged. */
  datatype Error = NotFound | Forbidden | Conflict | Unauthorized | Rejected

  datatype Outcome = Outcome(sys: Sys, error: Option<Error>)

  function Fail(s: Sys, e: Error): Outcome { Outcome(s, Some(e)) }

  function Done(s: Sys): Outcome { Outcome(s, None) }

  // ---------------------------------------------------------------- row changes

  /** Upserts one flag per permission in `ids`: on exactly for those in `on`. */
  function SetBindings(db: Db, role: Id, ids: set<Id>, on: set<Id>): (r: Db)
    ensures r == db.(bindings := r.bindings)
  {
    db.(bindings := db.bindings + map p | p in ids :: Binding(role, p) := p in on)
  }

  function DropRole(db: Db, role: Id): Db {
    db.(roles := db.roles - {role},
        bindings := map b | b in db.bindings && b.role != role :: db.bindings[b],
        assignments := set a | a in db.assignments && a.role != role)
  }

  function SetAssignments(db: Db, user: Id, tenant: Id, roles: set<Id>): Db {
    db.(assignments := (set a | a in db.assignments && !(a.user == user && a.tenant == tenant)) +
                       (set r | r in roles :: Assignment(user, tenant, r)))
  }

  /** Writes the user row, an active membership and the assignments. */
  function Enroll(db: Db, user: Id, row: User, tenant: Id, roles: set<Id>): Db {
    db.(users := db.users[user := row],
        memberships := db.memberships[Member(user, tenant) := true],
        assignments := db.assignments + set r | r in roles :: Assignment(user, tenant, r))
  }

  function DropUser(db: Db, user: Id): Db {
    db.(users := db.users - {user},
        memberships := map m | m in db.memberships && m.user != user :: db.memberships[m],
        assignments := set a | a in db.assignments && a.user != user)
  }

  function DropTenant(db: Db, tenant: Id): Db {
    var gone := set r | r in db.roles && db.roles[r].tenant == Some(tenant);
    db.(tenants := db.tenants - {tenant},
        memberships := map m | m in db.memberships && m.tenant != tenant :: db.memberships[m],
        roles := db.roles - gone,
        bindings := map b | b in db.bindings && b.role !in gone :: db.bindings[b],
        assignments := set a | a in db.assignments && a.tenant != tenant && a.role !in gone)
  }

  // ---------------------------------------------------------------- checks

  function FindScoped(db: Db, tenant: Id, role: Id): Option<Role> {
    if role in db.roles && InScope(db.roles[role], tenant) then Some(db.roles[role]) else None
  }

  /** `assertCanEnablePermissions`. */
  function EnableError(codes: set<string>, actor: UserAccess): Option<Error> {
    if exists c :: c in codes && c in PLATFORM_PERMISSIONS then Some(Forbidden)
    else if SYSTEM_ADMIN in actor.roles then None
    else if codes <= actor.permissions then None
    else Some(Forbidden)
  }

  function CodesOf(db: Db, ids: set<Id>): set<string> {
    set p | p in ids && p in db.permissions :: db.permissions[p].code
  }

  predicate AllEnabled(db: Db, ids: set<Id>) { forall p :: p in ids ==> Enabled(db, p) }

  predicate CodeTaken(db: Db, tenant: Id, code: string, except: Option<Id>) {
    exists r :: r in db.roles && Some(r) != except && db.roles[r].tenant == Some(tenant) && db.roles[r].code == code
  }

  function SetFrom(ids: seq<Id>): set<Id> { set p | p in ids }

  predicate Distinct(ids: seq<Id>) { forall i, j :: 0 <= i < j < |ids| ==> ids[i] != ids[j] }

  /** Codes switched on for a role, whether or not the permission itself is enabled. */
  function SwitchedOn(db: Db, role: Id): set<string> {
    set b | b in db.bindings && b.role == role && db.bindings[b] && b.permission in db.permissions ::
      db.permissions[b.permission].code
  }

  /** `assertRolesAssignable`, with the cache entry its access lookup may leave behind. */
  function RolesAssignable(s: Sys, actor: Id, tenant: Id, roles: set<Id>): Outcome {
    if exists r :: r in roles && !(r in s.db.roles && s.db.roles[r].enabled && InScope(s.db.roles[r], tenant)) then
      Fail(s, NotFound)
    else if exists r, c :: r in roles && r in s.db.roles && s.db.roles[r].code != SYSTEM_ADMIN &&
                           c in SwitchedOn(s.db, r) && c in PLATFORM_PERMISSIONS then
      Fail(s, Forbidden)
    else
      var (s1, access) := GetUserAccess(s, actor, tenant);
      if access.None? then Fail(s1, Unauthorized)
      else if SYSTEM_ADMIN in access.value.roles then Done(s1)
      else if exists r :: r in roles && r in s.db.roles &&
                          (s.db.roles[r].code == SYSTEM_ADMIN || !(SwitchedOn(s.db, r) <= access.value.permissions)) then
        Fail(s1, Forbidden)
      else Done(s1)
  }

  // ---------------------------------------------------------------- roles

  function CreateRole(s: Sys, tenant: Id, actor: Id, code: string, permissions: seq<Id>, newId: Id): Outcome {
    var ids := SetFrom(permissions);
    if code in RESERVED then Fail(s, Conflict)
    else if !AllEnabled(s.db, ids) then Fail(s, NotFound)
    else
      var (s1, access) := GetUserAccess(s, actor, tenant);
      if access.None? then Fail(s1, Unauthorized)
      else
        var refused := EnableError(CodesOf(s.db, ids), access.value);
        if refused.Some? then Fail(s1, refused.value)
        else if tenant !in s.db.tenants then Fail(s1, Rejected)
        else if CodeTaken(s.db, tenant, code, None) || !Distinct(permissions) then Fail(s1, Conflict)
        else
          var db := s.db.(roles := s.db.roles[newId := Role(Some(tenant), code, false, true)]);
          Done(InvalidateTenant(s1.(db := SetBindings(db, newId, ids, ids), issued := s1.issued + {newId}), tenant))
  }

  function UpdateRole(s: Sys, tenant: Id, id: Id, code: Option<string>, enabled: Option<bool>): Outcome {
    var found := FindScoped(s.db, tenant, id);
    if found.None? then Fail(s, NotFound)
    else if found.value.builtIn || found.value.tenant.None? then Fail(s, Forbidden)
    else if code.Some? && code.value in RESERVED then Fail(s, Conflict)
    else if code.Some? && CodeTaken(s.db, found.value.tenant.value, code.value, Some(id)) then Fail(s, Rejected)
    else
      var r := found.value.(code := if code.Some? then code.value else found.value.code,
                            enabled := if enabled.Some? then enabled.value else found.value.enabled);
      Done(InvalidateTenant(s.(db := s.db.(roles := s.db.roles[id := r])), r.tenant.value))
  }

  function InvalidateRoleAccess(s: Sys, r: Role): Sys {
    if r.tenant.Some? then InvalidateTenant(s, r.tenant.value) else InvalidateAll(s)
  }

  /** The checks both permission editors make before looking at permissions. */
  function TargetConfigurable(s: Sys, tenant: Id, id: Id, actor: Id): (r: (Sys, Result<UserAccess, Error>))
    ensures r.0.db == s.db
  {
    var found := FindScoped(s.db, tenant, id);
    if found.None? then (s, Err(NotFound))
    else if IsSystemAdminRole(found.value) then (s, Err(Forbidden))
    else
      var (s1, access) := GetUserAccess(s, actor, tenant);
      if access.None? then (s1, Err(Unauthorized))
      else if found.value.tenant.None? && SYSTEM_ADMIN !in access.value.roles then (s1, Err(Forbidden))
      else (s1, Ok(access.value))
  }

  /** The matrix returned after an edit needs the actor's access once more. */
  function AfterEdit(s: Sys, actor: Id, tenant: Id): (o: Outcome)
    ensures o.sys.db == s.db
  {
    var (s1, access) := GetUserAccess(s, actor, tenant);
    if access.None? then Fail(s1, Unauthorized) else Done(s1)
  }

  function SetPermissions(s: Sys, tenant: Id, id: Id, selected: set<Id>, actor: Id): Outcome {
    var (s1, target) := TargetConfigurable(s, tenant, id, actor);
    if target.Err? then Fail(s1, target.error)
    else if !AllEnabled(s.db, selected) then Fail(s1, NotFound)
    else
      var refused := EnableError(CodesOf(s.db, selected), target.value);
      if refused.Some? then Fail(s1, refused.value)
      else AfterEdit(EditAll(s1, id, selected), actor, tenant)
  }

  /** The write of `setPermissions`: a flag for every enabled permission. */
  function EditAll(s: Sys, id: Id, selected: set<Id>): (r: Sys)
    ensures r.db == s.db.(bindings := r.db.bindings)
  {
    var all := set p | p in s.db.permissions && Enabled(s.db, p);
    var s1 := s.(db := SetBindings(s.db, id, all, selected));
    if id in s.db.roles then InvalidateRoleAccess(s1, s.db.roles[id]) else s1
  }

  function SetPermission(s: Sys, tenant: Id, id: Id, permission: Id, enabled: bool, actor: Id): Outcome {
    var (s1, target) := TargetConfigurable(s, tenant, id, actor);
    if target.Err? then Fail(s1, target.error)
    else if !Enabled(s.db, permission) then Fail(s1, NotFound)
    else
      var refused := if enabled then EnableError(CodesOf(s.db, {permission}), target.value) else None;
      if refused.Some? then Fail(s1, refused.value)
      else AfterEdit(EditOne(s1, id, permission, enabled), actor, tenant)
  }

  /** The write of `setPermission`: one flag. */
  function EditOne(s: Sys, id: Id, permission: Id, enabled: bool): (r: Sys)
    ensures r.db == s.db.(bindings := r.db.bindings)
  {
    var s1 := s.(db := SetBindings(s.db, id, {permission}, if enabled then {permission} else {}));
    if id in s.db.roles then InvalidateRoleAccess(s1, s.db.roles[id]) else s1
  }

  function RemoveRole(s: Sys, tenant: Id, id: Id): Outcome {
    var found := FindScoped(s.db, tenant, id);
    if found.None? then Fail(s, NotFound)
    else if found.value.builtIn || found.value.tenant.None? then Fail(s, Forbidden)
    else Done(InvalidateTenant(s.(db := DropRole(s.db, id)), found.value.tenant.value))
  }

  // ---------------------------------------------------------------- users

  predicate IsMember(db: Db, user: Id, tenant: Id) {
    Member(user, tenant) in db.memberships && db.memberships[Member(user, tenant)]
  }

  function ByEmail(db: Db, email: string): set<Id> { set u | u in db.users && db.users[u].email == Some(email) }

  predicate IsDefaultRole(r: Role) { r.tenant == None && r.code == MEMBER && r.enabled }

  /** `existing` is the user found by email; the new user, if none, gets `newId`. `memberRole` is the
      role `findFirstOrThrow` picks when no roles are requested. */
  function CreateUser(s: Sys, tenant: Id, actor: Id, email: string, roles: set<Id>, existing: Option<Id>,
                      memberRole: Option<Id>, newId: Id): Outcome {
    var checked := if roles != {} then RolesAssignable(s, actor, tenant, roles) else Done(s);
    if checked.error.Some? then checked
    else EnrollUser(checked.sys, tenant, email, roles, existing, memberRole, newId)
  }

  /** The part of `create` after the role check. */
  function EnrollUser(s: Sys, tenant: Id, email: string, roles: set<Id>, existing: Option<Id>, memberRole: Option<Id>,
                      newId: Id): Outcome {
    var user := if existing.Some? then existing.value else newId;
    var granted := if roles != {} then roles else if memberRole.Some? then {memberRole.value} else {};
    if Member(user, tenant) in s.db.memberships then Fail(s, Conflict)
    else if tenant !in s.db.tenants then Fail(s, Rejected)
    else if roles == {} && memberRole.None? then Fail(s, NotFound)
    else if exists r :: r in granted && Assignment(user, tenant, r) in s.db.assignments then Fail(s, Conflict)
    else
      var row := if existing.Some? && existing.value in s.db.users then s.db.users[existing.value].(active := true)
                 else User(Some(email), true);
      Done(s.(db := Enroll(s.db, user, row, tenant, granted), issued := s.issued + {user}))
  }

  function UpdateUser(s: Sys, tenant: Id, id: Id, email: Option<string>): Outcome {
    if !IsMember(s.db, id, tenant) || id !in s.db.users then Fail(s, NotFound)
    else if email.Some? && exists u :: u in ByEmail(s.db, email.value) && u != id then Fail(s, Rejected)
    else
      var row := if email.Some? then s.db.users[id].(email := email) else s.db.users[id];
      Done(InvalidateUser(s.(db := s.db.(users := s.db.users[id := row])), id))
  }

  function SetRoles(s: Sys, tenant: Id, id: Id, roles: set<Id>, actor: Id): Outcome {
    if !IsMember(s.db, id, tenant) then Fail(s, NotFound)
    else
      var checked := RolesAssignable(s, actor, tenant, roles);
      if checked.error.Some? then checked
      else
        var s1 := checked.sys;
        Done(InvalidateMember(s1.(db := SetAssignments(s1.db, id, tenant, roles)), id, tenant))
  }

  function RemoveUser(s: Sys, tenant: Id, id: Id, hard: bool): Outcome {
    if !IsMember(s.db, id, tenant) then Fail(s, NotFound)
    else if hard then
      var db := SetAssignments(s.db, id, tenant, {});
      var db1 := db.(memberships := db.memberships - {Member(id, tenant)});
      var db2 := if exists m :: m in db1.memberships && m.user == id then db1 else DropUser(db1, id);
      Done(InvalidateMember(s.(db := db2), id, tenant))
    else
      Done(InvalidateMember(s.(db := s.db.(memberships := s.db.memberships[Member(id, tenant) := false])), id, tenant))
  }

  // ---------------------------------------------------------------- tenants and self-registration

  function AddTenant(db: Db, id: Id, slug: string): Db { db.(tenants := db.tenants[id := Tenant(slug, true)]) }

  /** `systemRole` is the role `findFirstOrThrow` picks. */
  function CreateTenant(s: Sys, slug: string, creator: Id, systemRole: Option<Id>, newId: Id): Outcome {
    if exists t :: t in s.db.tenants && s.db.tenants[t].slug == slug then Fail(s, Conflict)
    else if creator !in s.db.users then Fail(s, Rejected)
    else if systemRole.None? then Fail(s, NotFound)
    else
      Done(s.(db := Enroll(AddTenant(s.db, newId, slug), creator, s.db.users[creator], newId, {systemRole.value}),
              issued := s.issued + {newId}))
  }

  function RemoveTenant(s: Sys, id: Id, hard: bool): Outcome {
    if id !in s.db.tenants then Fail(s, NotFound)
    else if hard then Done(s.(db := DropTenant(s.db, id)))
    else if !s.db.tenants[id].active then Fail(s, NotFound)
    else Done(s.(db := s.db.(tenants := s.db.tenants[id := s.db.tenants[id].(active := false)])))
  }

  /** `RolesGuard`: one of the required roles, or system_admin, in the tenant of the caller's token. */
  function RolesGuard(s: Sys, user: Id, tenant: Id, required: set<string>): (o: Outcome)
    ensures o.sys.db == s.db && o.sys.issued == s.issued
  {
    if required == {} then Done(s)
    else
      var (s1, access) := GetUserAccess(s, user, tenant);
      if access.None? then Fail(s1, Unauthorized)
      else if SYSTEM_ADMIN in access.value.roles || required * access.value.roles != {} then Done(s1)
      else Fail(s1, Forbidden)
  }

  /** `PermissionsGuard`: one of the required permissions, or system_admin. */
  function PermissionsGuard(s: Sys, user: Id, tenant: Id, required: set<string>): (o: Outcome)
    ensures o.sys.db == s.db && o.sys.issued == s.issued
  {
    if required == {} then Done(s)
    else
      var (s1, access) := GetUserAccess(s, user, tenant);
      if access.None? then Fail(s1, Unauthorized)
      else if SYSTEM_ADMIN in access.value.roles || required * access.value.permissions != {} then Done(s1)
      else Fail(s1, Forbidden)
  }

  /** `POST /tenants` behind its guards; `within` is the tenant of the creator's token. */
  function RequestTenant(s: Sys, within: Id, slug: string, creator: Id, systemRole: Option<Id>, newId: Id): Outcome {
    var byRole := RolesGuard(s, creator, within, {SYSTEM_ADMIN});
    if byRole.error.Some? then byRole
    else
      var byPermission := PermissionsGuard(byRole.sys, creator, within, {TENANT_CREATE});
      if byPermission.error.Some? then byPermission
      else CreateTenant(byPermission.sys, slug, creator, systemRole, newId)
  }

  /** `bootstrapDefaultTenant`: the tenant with slug `default`, created when missing. */
  function DefaultTenant(s: Sys, existing: Option<Id>, newId: Id): Sys {
    if existing.Some? then s
    else s.(db := AddTenant(s.db, newId, "default"), issued := s.issued + {newId})
  }

  function RegisterVerifiedUser(s: Sys, email: Option<string>, defaultTenant: Option<Id>, memberRole: Option<Id>,
                                newTenant: Id, newUser: Id): Outcome {
    var s1 := DefaultTenant(s, defaultTenant, newTenant);
    var t := if defaultTenant.Some? then defaultTenant.value else newTenant;
    if t !in s1.db.tenants || !s1.db.tenants[t].active then Fail(s1, Forbidden)
    else if email.Some? && ByEmail(s1.db, email.value) != {} then Fail(s1, Rejected)
    else if memberRole.None? then Fail(s1, NotFound)
    else
      Done(s1.(db := Enroll(s1.db, newUser, User(email, true), t, {memberRole.value}), issued := s1.issued + {newUser}))
  }
}
