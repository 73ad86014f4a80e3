/** The delegation ceiling: without system_admin nobody can raise what a tenant's roles can grant. */
module Delegation {
  import opened Common
  import opened AccessModel
  import opened AccessWrites
  import opened AccessRuns
  import opened AccessCoherence
  import opened AccessTheorems
  import Ops = AccessOps

  /** The roles whose permissions a member of the tenant could come to hold: the default role, the
      tenant's own roles (enabled or not) and any assigned role, other than system_admin. */
  ghost predicate Source(db: Db, tenant: Id, role: Id) {
    && role in db.roles && !IsSystemAdminRole(db.roles[role])
    && (|| (db.roles[role].tenant == None && db.roles[role].code == MEMBER)
        || db.roles[role].tenant == Some(tenant)
        || exists a :: a in db.assignments && a.tenant == tenant && a.role == role)
  }

  ghost predicate InCeiling(db: Db, tenant: Id, code: string) {
    exists r :: Source(db, tenant, r) && code in Ops.SwitchedOn(db, r)
  }

  ghost predicate Holder(db: Db, user: Id, tenant: Id) {
    exists r :: Assignment(user, tenant, r) in db.assignments && r in db.roles && IsSystemAdminRole(db.roles[r])
  }

  /** Nothing new: no code enters a ceiling, nobody becomes a holder of system_admin. */
  ghost predicate Contained(db: Db, db': Db) {
    && (forall t, c :: InCeiling(db', t, c) ==> InCeiling(db, t, c))
    && (forall u, t :: Holder(db', u, t) ==> Holder(db, u, t))
  }

  /** What is granted to somebody without the system_admin role lies under the ceiling. */
  lemma GrantsUnderCeiling(db: Db, user: Id, tenant: Id, code: string)
    requires WfDb(db) && !HoldsSystemAdmin(db, user, tenant) && code in AccessOf(db, user, tenant).permissions
    ensures InCeiling(db, tenant, code)
  {
    var roles := Assigned(db, user, tenant);
    var b :| b in db.bindings && b.role in roles && Grants(db, b) && db.permissions[b.permission].code == code;
    assert Assignment(user, tenant, b.role) in db.assignments;
    assert Source(db, tenant, b.role);
    assert code in Ops.SwitchedOn(db, b.role);
  }

  /** This is where coherence matters: actors are judged by what the cache says about them. */
  lemma AnswerUnderCeiling(s: Sys, user: Id, tenant: Id)
    requires Good(s) && tenant in s.db.tenants
    requires var answer := GetUserAccess(s, user, tenant).1; answer.Some? && SYSTEM_ADMIN !in answer.value.roles
    ensures forall c :: c in GetUserAccess(s, user, tenant).1.value.permissions ==> InCeiling(s.db, tenant, c)
  {
    CodesTellAdmins(s.db, user, tenant);
    forall c | c in GetUserAccess(s, user, tenant).1.value.permissions ensures InCeiling(s.db, tenant, c) {
      GrantsUnderCeiling(s.db, user, tenant, c);
    }
  }

  // ---------------------------------------------------------------- writes

  lemma RoleContained(db: Db, db': Db, id: Id, owner: Id)
    requires OnlyRole(db, db', id, owner) && AssignmentsScoped(db')
    requires id in db'.roles ==> forall c :: c in Ops.SwitchedOn(db', id) ==> InCeiling(db, owner, c)
    ensures Contained(db, db')
  {
    forall t, c | InCeiling(db', t, c) ensures InCeiling(db, t, c) {
      var r :| Source(db', t, r) && c in Ops.SwitchedOn(db', r);
      if r != id {
        assert Source(db, t, r) && c in Ops.SwitchedOn(db, r);
      }
    }
    forall u, t | Holder(db', u, t) ensures Holder(db, u, t) {
      var r :| Assignment(u, t, r) in db'.assignments && r in db'.roles && IsSystemAdminRole(db'.roles[r]);
      assert Assignment(u, t, r) in db.assignments && IsSystemAdminRole(db.roles[r]);
    }
  }

  /** The role gives nothing the tenant's ceiling does not already allow. */
  ghost predicate Grantable(db: Db, tenant: Id, role: Id) {
    role in db.roles ==>
      && !IsSystemAdminRole(db.roles[role])
      && forall c :: c in Ops.SwitchedOn(db, role) ==> InCeiling(db, tenant, c)
  }

  lemma AssignContained(db: Db, db': Db)
    requires db.roles == db'.roles && db.bindings == db'.bindings && db.permissions == db'.permissions
    requires forall a :: a in db'.assignments && a !in db.assignments ==> Grantable(db, a.tenant, a.role)
    ensures Contained(db, db')
  {
    forall t, c | InCeiling(db', t, c) ensures InCeiling(db, t, c) {
      var r :| Source(db', t, r) && c in Ops.SwitchedOn(db', r);
      assert c in Ops.SwitchedOn(db, r);
      if !Source(db, t, r) {
        var a :| a in db'.assignments && a.tenant == t && a.role == r;
        assert Grantable(db, a.tenant, a.role);
      }
    }
    forall u, t | Holder(db', u, t) ensures Holder(db, u, t) {
      var r :| Assignment(u, t, r) in db'.assignments && r in db'.roles && IsSystemAdminRole(db'.roles[r]);
      assert Assignment(u, t, r) in db.assignments;
    }
  }

  lemma DropTenantContained(db: Db, tenant: Id)
    ensures Contained(db, Ops.DropTenant(db, tenant))
  {
    var db' := Ops.DropTenant(db, tenant);
    forall t, c | InCeiling(db', t, c) ensures InCeiling(db, t, c) {
      var r :| Source(db', t, r) && c in Ops.SwitchedOn(db', r);
      assert Source(db, t, r) && c in Ops.SwitchedOn(db, r);
    }
    forall u, t | Holder(db', u, t) ensures Holder(db, u, t) {
      var r :| Assignment(u, t, r) in db'.assignments && r in db'.roles && IsSystemAdminRole(db'.roles[r]);
      assert Assignment(u, t, r) in db.assignments;
    }
  }

  // ---------------------------------------------------------------- operations

  ghost predicate AnswersAdmin(s: Sys, user: Id, tenant: Id) {
    var answer := GetUserAccess(s, user, tenant).1;
    answer.Some? && SYSTEM_ADMIN in answer.value.roles
  }

  /** Seeding is for the platform; every other operation with an actor is ordinary when the actor is not
      answered the system_admin role. */
  ghost predicate Ordinary(s: Sys, op: Op) {
    match op
    case Boot(_, _, _, _) => false
    case CreateTenant(within, _, creator, _, _) => !AnswersAdmin(s, creator, within)
    case CreateRole(tenant, actor, _, _, _) => !AnswersAdmin(s, actor, tenant)
    case SetPermissions(tenant, _, _, actor) => !AnswersAdmin(s, actor, tenant)
    case SetPermission(tenant, _, _, _, actor) => !AnswersAdmin(s, actor, tenant)
    case CreateUser(tenant, actor, _, roles, _, _, _) => roles != {} ==> !AnswersAdmin(s, actor, tenant)
    case SetRoles(tenant, _, _, actor) => !AnswersAdmin(s, actor, tenant)
    case _ => true
  }

  lemma EnabledUnderCeiling(s: Sys, actor: Id, tenant: Id, ids: set<Id>)
    requires Good(s) && tenant in s.db.tenants && !AnswersAdmin(s, actor, tenant)
    requires var answer := GetUserAccess(s, actor, tenant).1;
             answer.Some? && Ops.EnableError(Ops.CodesOf(s.db, ids), answer.value).None?
    ensures forall c :: c in Ops.CodesOf(s.db, ids) ==> InCeiling(s.db, tenant, c)
  {
    AnswerUnderCeiling(s, actor, tenant);
  }

  lemma AssignableIsGrantable(s: Sys, actor: Id, tenant: Id, roles: set<Id>)
    requires Good(s) && tenant in s.db.tenants && !AnswersAdmin(s, actor, tenant)
    requires Ops.RolesAssignable(s, actor, tenant, roles).error.None?
    ensures forall r :: r in roles ==> Grantable(s.db, tenant, r)
  {
    AnswerUnderCeiling(s, actor, tenant);
  }

  lemma CreateRoleContained(s: Sys, tenant: Id, actor: Id, code: string, permissions: seq<Id>, newId: Id)
    requires Good(s) && newId !in s.issued && !AnswersAdmin(s, actor, tenant)
    ensures Contained(s.db, Ops.CreateRole(s, tenant, actor, code, permissions, newId).sys.db)
  {
    if Ops.CreateRole(s, tenant, actor, code, permissions, newId).error.None? {
      var ids := Ops.SetFrom(permissions);
      var added := s.db.(roles := s.db.roles[newId := Role(Some(tenant), code, false, true)]);
      var db := Ops.SetBindings(added, newId, ids, ids);
      EnabledUnderCeiling(s, actor, tenant, ids);
      AddedRoleOnly(s, newId, tenant, code);
      SetBindingsOnly(s.db, added, newId, ids, ids, tenant);
      forall c | c in Ops.SwitchedOn(db, newId) ensures c in Ops.CodesOf(s.db, ids) {
        var b :| b in db.bindings && b.role == newId && db.bindings[b] && b.permission in db.permissions &&
                 db.permissions[b.permission].code == c;
        assert b !in s.db.bindings;
      }
      RoleContained(s.db, db, newId, tenant);
    }
  }

  lemma EditContained(s: Sys, tenant: Id, id: Id, actor: Id, ids: set<Id>, on: set<Id>)
    requires Good(s) && !AnswersAdmin(s, actor, tenant)
    requires Ops.TargetConfigurable(s, tenant, id, actor).1.Ok?
    requires Ops.EnableError(Ops.CodesOf(s.db, on), GetUserAccess(s, actor, tenant).1.value).None?
    ensures Contained(s.db, Ops.SetBindings(s.db, id, ids, on))
  {
    var db := Ops.SetBindings(s.db, id, ids, on);
    EnabledUnderCeiling(s, actor, tenant, on);
    assert OnlyRole(s.db, s.db, id, tenant);
    SetBindingsOnly(s.db, s.db, id, ids, on, tenant);
    forall c | c in Ops.SwitchedOn(db, id) ensures InCeiling(s.db, tenant, c) {
      var b :| b in db.bindings && b.role == id && db.bindings[b] && b.permission in db.permissions &&
               db.permissions[b.permission].code == c;
      if b.permission in ids {
        assert c in Ops.CodesOf(s.db, on);
      } else {
        assert Source(s.db, tenant, id) && c in Ops.SwitchedOn(s.db, id);
      }
    }
    RoleContained(s.db, db, id, tenant);
  }

  lemma UpdateRoleContained(s: Sys, tenant: Id, id: Id, code: Option<string>, enabled: Option<bool>)
    requires Good(s)
    ensures Contained(s.db, Ops.UpdateRole(s, tenant, id, code, enabled).sys.db)
  {
    if Ops.UpdateRole(s, tenant, id, code, enabled).error.None? {
      var db := Ops.UpdateRole(s, tenant, id, code, enabled).sys.db;
      assert Source(s.db, tenant, id);
      assert Ops.SwitchedOn(db, id) == Ops.SwitchedOn(s.db, id);
      RoleContained(s.db, db, id, tenant);
    }
  }

  lemma RemoveRoleContained(s: Sys, tenant: Id, id: Id)
    requires Good(s)
    ensures Contained(s.db, Ops.RemoveRole(s, tenant, id).sys.db)
  {
    if Ops.RemoveRole(s, tenant, id).error.None? {
      RoleContained(s.db, Ops.DropRole(s.db, id), id, tenant);
    }
  }

  lemma DefaultRoleIsGrantable(db: Db, tenant: Id, role: Id)
    requires role in db.roles && Ops.IsDefaultRole(db.roles[role])
    ensures Grantable(db, tenant, role)
  {
  }

  lemma EnrollAdds(s: Sys, tenant: Id, email: string, roles: set<Id>, existing: Option<Id>, memberRole: Option<Id>, newId: Id)
    ensures var db := Ops.EnrollUser(s, tenant, email, roles, existing, memberRole, newId).sys.db;
            && db.roles == s.db.roles && db.bindings == s.db.bindings && db.permissions == s.db.permissions
            && forall a :: a in db.assignments && a !in s.db.assignments ==>
                 && tenant in s.db.tenants && a.tenant == tenant
                 && if roles != {} then a.role in roles else memberRole == Some(a.role)
  {
    hide Ops.Enroll;
    var user := if existing.Some? then existing.value else newId;
    var granted := if roles != {} then roles else if memberRole.Some? then {memberRole.value} else {};
    var row := if existing.Some? && existing.value in s.db.users then s.db.users[existing.value].(active := true)
               else User(Some(email), true);
    EnrollRows(s.db, user, row, tenant, granted);
  }

  lemma EnrollRows(db: Db, user: Id, row: User, tenant: Id, roles: set<Id>)
    ensures var db' := Ops.Enroll(db, user, row, tenant, roles);
            && db'.roles == db.roles && db'.bindings == db.bindings && db'.permissions == db.permissions
            && forall a :: a in db'.assignments && a !in db.assignments ==> a.tenant == tenant && a.role in roles
  {
  }

  lemma EnrollContained(s: Sys, tenant: Id, email: string, roles: set<Id>, existing: Option<Id>, memberRole: Option<Id>,
                        newId: Id)
    requires tenant in s.db.tenants ==> forall r :: r in roles ==> Grantable(s.db, tenant, r)
    requires roles == {} && memberRole.Some? ==> Grantable(s.db, tenant, memberRole.value)
    ensures Contained(s.db, Ops.EnrollUser(s, tenant, email, roles, existing, memberRole, newId).sys.db)
  {
    hide Grantable, Contained, Ops.EnrollUser;
    EnrollAdds(s, tenant, email, roles, existing, memberRole, newId);
    AssignContained(s.db, Ops.EnrollUser(s, tenant, email, roles, existing, memberRole, newId).sys.db);
  }

  lemma CreateUserContained(s: Sys, tenant: Id, actor: Id, email: string, roles: set<Id>, existing: Option<Id>,
                            memberRole: Option<Id>, newId: Id)
    requires Good(s)
    requires roles != {} ==> !AnswersAdmin(s, actor, tenant)
    requires Legit(s, CreateUser(tenant, actor, email, roles, existing, memberRole, newId))
    ensures Contained(s.db, Ops.CreateUser(s, tenant, actor, email, roles, existing, memberRole, newId).sys.db)
  {
    ContainedSelf(s.db);
    if roles == {} && memberRole.Some? { DefaultRoleIsGrantable(s.db, tenant, memberRole.value); }
    hide Good, Contained, Grantable, Legit, AnswersAdmin, Ops.RolesAssignable, Ops.EnrollUser;
    AssignableKeeps(s, actor, tenant, roles);
    var checked := if roles != {} then Ops.RolesAssignable(s, actor, tenant, roles) else Ops.Done(s);
    if checked.error.None? {
      if roles != {} && tenant in s.db.tenants { AssignableIsGrantable(s, actor, tenant, roles); }
      EnrollContained(checked.sys, tenant, email, roles, existing, memberRole, newId);
    }
  }

  lemma SetRolesContained(s: Sys, tenant: Id, id: Id, roles: set<Id>, actor: Id)
    requires Good(s) && !AnswersAdmin(s, actor, tenant)
    ensures Contained(s.db, Ops.SetRoles(s, tenant, id, roles, actor).sys.db)
  {
    AssignableKeeps(s, actor, tenant, roles);
    if Ops.SetRoles(s, tenant, id, roles, actor).error.None? { AssignableIsGrantable(s, actor, tenant, roles); }
    AssignContained(s.db, Ops.SetRoles(s, tenant, id, roles, actor).sys.db);
  }

  lemma RegisterContained(s: Sys, email: Option<string>, defaultTenant: Option<Id>, memberRole: Option<Id>,
                          newTenant: Id, newUser: Id)
    requires Legit(s, Register(email, defaultTenant, memberRole, newTenant, newUser))
    ensures Contained(s.db, Ops.RegisterVerifiedUser(s, email, defaultTenant, memberRole, newTenant, newUser).sys.db)
  {
    var t := if defaultTenant.Some? then defaultTenant.value else newTenant;
    if memberRole.Some? { DefaultRoleIsGrantable(s.db, t, memberRole.value); }
    AssignContained(s.db, Ops.RegisterVerifiedUser(s, email, defaultTenant, memberRole, newTenant, newUser).sys.db);
  }

  /** The guards refuse: nothing is written. */
  lemma RequestTenantContained(s: Sys, within: Id, slug: string, creator: Id, systemRole: Option<Id>, newId: Id)
    requires !AnswersAdmin(s, creator, within)
    ensures var o := Ops.RequestTenant(s, within, slug, creator, systemRole, newId);
            o.error.Some? && o == Ops.RolesGuard(s, creator, within, {SYSTEM_ADMIN}) && Contained(s.db, o.sys.db)
  {
    var answer := GetUserAccess(s, creator, within).1;
    assert answer.Some? ==> {SYSTEM_ADMIN} * answer.value.roles == {};
    ContainedSelf(s.db);
    hide Contained, GetUserAccess;
  }

  lemma ContainedSelf(db: Db)
    ensures Contained(db, db)
  {
  }

  lemma NothingRefused(db: Db, actor: UserAccess)
    ensures Ops.EnableError(Ops.CodesOf(db, {}), actor).None?
  {
  }

  lemma SetPermissionsContained(s: Sys, tenant: Id, id: Id, selected: set<Id>, actor: Id)
    requires Good(s) && !AnswersAdmin(s, actor, tenant)
    ensures Contained(s.db, Ops.SetPermissions(s, tenant, id, selected, actor).sys.db)
  {
    ContainedSelf(s.db);
    hide Contained, Good, Ops.SetBindings, Ops.EnableError, Ops.CodesOf;
    var target := Ops.TargetConfigurable(s, tenant, id, actor).1;
    if target.Ok? && Ops.EnableError(Ops.CodesOf(s.db, selected), target.value).None? {
      EditContained(s, tenant, id, actor, (set p | p in s.db.permissions && Enabled(s.db, p)), selected);
    }
  }

  lemma SetPermissionContained(s: Sys, tenant: Id, id: Id, permission: Id, on: bool, actor: Id)
    requires Good(s) && !AnswersAdmin(s, actor, tenant)
    ensures Contained(s.db, Ops.SetPermission(s, tenant, id, permission, on, actor).sys.db)
  {
    ContainedSelf(s.db);
    hide Contained, Good, Ops.SetBindings, Ops.EnableError, Ops.CodesOf;
    var chosen := if on then {permission} else {};
    var target := Ops.TargetConfigurable(s, tenant, id, actor).1;
    if target.Ok? && !on { NothingRefused(s.db, target.value); }
    if target.Ok? && Ops.EnableError(Ops.CodesOf(s.db, chosen), target.value).None? {
      EditContained(s, tenant, id, actor, {permission}, chosen);
    }
  }

  lemma RemoveUserContained(s: Sys, tenant: Id, id: Id, hard: bool)
    ensures Contained(s.db, Ops.RemoveUser(s, tenant, id, hard).sys.db)
  {
    AssignContained(s.db, Ops.RemoveUser(s, tenant, id, hard).sys.db);
  }

  lemma RemoveTenantContained(s: Sys, id: Id, hard: bool)
    ensures Contained(s.db, Ops.RemoveTenant(s, id, hard).sys.db)
  {
    DropTenantContained(s.db, id);
    if !hard { AssignContained(s.db, Ops.RemoveTenant(s, id, hard).sys.db); }
  }

  // ---------------------------------------------------------------- runs

  lemma OrdinaryStep(s: Sys, op: Op)
    requires Good(s) && Legit(s, op) && Ordinary(s, op)
    ensures Contained(s.db, Apply(s, op).db)
  {
    hide Good, Contained;
    match op
    case CreateRole(tenant, actor, code, permissions, newId) =>
      CreateRoleContained(s, tenant, actor, code, permissions, newId);
    case UpdateRole(tenant, id, code, enabled) => UpdateRoleContained(s, tenant, id, code, enabled);
    case SetPermissions(tenant, id, selected, actor) => SetPermissionsContained(s, tenant, id, selected, actor);
    case SetPermission(tenant, id, permission, on, actor) => SetPermissionContained(s, tenant, id, permission, on, actor);
    case RemoveRole(tenant, id) => RemoveRoleContained(s, tenant, id);
    case CreateUser(tenant, actor, email, roles, existing, memberRole, newId) =>
      CreateUserContained(s, tenant, actor, email, roles, existing, memberRole, newId);
    case SetRoles(tenant, id, roles, actor) => SetRolesContained(s, tenant, id, roles, actor);
    case RemoveUser(tenant, id, hard) => RemoveUserContained(s, tenant, id, hard);
    case Register(email, defaultTenant, memberRole, newTenant, newUser) =>
      RegisterContained(s, email, defaultTenant, memberRole, newTenant, newUser);
    case RemoveTenant(id, hard) => RemoveTenantContained(s, id, hard);
    case CreateTenant(within, slug, creator, systemRole, newId) =>
      RequestTenantContained(s, within, slug, creator, systemRole, newId);
    case UpdateUser(tenant, id, email) => AssignContained(s.db, Ops.UpdateUser(s, tenant, id, email).sys.db);
    case ReadAccess(user, tenant) => AssignContained(s.db, s.db);
    case EntryExpires(key) => AssignContained(s.db, s.db);
  }

  ghost predicate OrdinaryRun(s: Sys, run: seq<Op>)
    requires ValidRun(s, run)
    decreases |run|
  {
    run == [] || (Ordinary(s, run[0]) && OrdinaryRun(Apply(s, run[0]), run[1..]))
  }

  lemma {:induction false} RunContained(s: Sys, run: seq<Op>)
    requires Good(s) && ValidRun(s, run) && OrdinaryRun(s, run)
    ensures Contained(s.db, Run(s, run).db)
    decreases |run|
  {
    if run != [] {
      OrdinaryStep(s, run[0]);
      StepKeeps(s, run[0]);
      RunContained(Apply(s, run[0]), run[1..]);
    }
  }

  // ---------------------------------------------------------------- what is cached

  /** Entries about tenants that do not exist are never written, only carried over or dropped. */
  ghost predicate NoneForGone(s: Sys, s': Sys) {
    forall k :: k in s'.cache && k.tenant !in s'.db.tenants ==> k in s.cache && s'.cache[k] == s.cache[k]
  }

  /** The tenants stay, and the cache of the one state is that of the other but for lookups. */
  ghost predicate Looked(s: Sys, s': Sys) { s.db.tenants.Keys <= s'.db.tenants.Keys && NoneForGone(s, s') }

  lemma LookupLooks(s: Sys, user: Id, tenant: Id)
    ensures Looked(s, GetUserAccess(s, user, tenant).0) && GetUserAccess(s, user, tenant).0.db == s.db
  {
    hide AccessOf;
  }

  lemma TargetLooks(s: Sys, tenant: Id, id: Id, actor: Id)
    ensures Looked(s, Ops.TargetConfigurable(s, tenant, id, actor).0)
  {
    LookupLooks(s, actor, tenant);
    LookedSelf(s);
    hide Looked, GetUserAccess;
  }

  lemma EditLooks(s: Sys, s1: Sys, s2: Sys, actor: Id, tenant: Id)
    requires Looked(s, s1) && s2.db.tenants == s1.db.tenants && s2.cache.Keys <= s1.cache.Keys
    requires forall k :: k in s2.cache ==> s2.cache[k] == s1.cache[k]
    ensures Looked(s, Ops.AfterEdit(s2, actor, tenant).sys)
  {
    LookupLooks(s2, actor, tenant);
    hide GetUserAccess;
  }

  lemma SetPermissionsLooks(s: Sys, tenant: Id, id: Id, selected: set<Id>, actor: Id)
    ensures Looked(s, Ops.SetPermissions(s, tenant, id, selected, actor).sys)
  {
    TargetLooks(s, tenant, id, actor);
    hide Looked, GetUserAccess, Ops.TargetConfigurable, Ops.EnableError, Ops.CodesOf, Ops.AllEnabled, Ops.AfterEdit;
    var s1 := Ops.TargetConfigurable(s, tenant, id, actor).0;
    EditLooks(s, s1, Ops.EditAll(s1, id, selected), actor, tenant);
  }

  lemma SetPermissionLooks(s: Sys, tenant: Id, id: Id, permission: Id, on: bool, actor: Id)
    ensures Looked(s, Ops.SetPermission(s, tenant, id, permission, on, actor).sys)
  {
    TargetLooks(s, tenant, id, actor);
    hide Looked, GetUserAccess, Ops.TargetConfigurable, Ops.EnableError, Ops.CodesOf, Ops.AfterEdit;
    var s1 := Ops.TargetConfigurable(s, tenant, id, actor).0;
    EditLooks(s, s1, Ops.EditOne(s1, id, permission, on), actor, tenant);
  }

  lemma AssignableLooks(s: Sys, actor: Id, tenant: Id, roles: set<Id>)
    ensures Looked(s, Ops.RolesAssignable(s, actor, tenant, roles).sys)
    ensures Ops.RolesAssignable(s, actor, tenant, roles).sys.db == s.db
  {
    LookupLooks(s, actor, tenant);
    hide Looked, Ops.SwitchedOn;
    assert Looked(s, s) by { LookedSelf(s); }
  }

  lemma LookedSelf(s: Sys)
    ensures Looked(s, s)
  {
  }

  lemma EnrollLooks(s: Sys, tenant: Id, email: string, roles: set<Id>, existing: Option<Id>, memberRole: Option<Id>, newId: Id)
    ensures Looked(s, Ops.EnrollUser(s, tenant, email, roles, existing, memberRole, newId).sys)
  {
  }

  lemma CreateUserLooks(s: Sys, tenant: Id, actor: Id, email: string, roles: set<Id>, existing: Option<Id>,
                        memberRole: Option<Id>, newId: Id)
    ensures Looked(s, Ops.CreateUser(s, tenant, actor, email, roles, existing, memberRole, newId).sys)
  {
    LookedSelf(s);
    AssignableLooks(s, actor, tenant, roles);
    hide Ops.RolesAssignable, Ops.EnrollUser, Looked;
    var checked := if roles != {} then Ops.RolesAssignable(s, actor, tenant, roles) else Ops.Done(s);
    if checked.error.None? {
      EnrollLooks(checked.sys, tenant, email, roles, existing, memberRole, newId);
      LookedOn(s, checked.sys, Ops.EnrollUser(checked.sys, tenant, email, roles, existing, memberRole, newId).sys);
    }
  }

  lemma LookedOn(s: Sys, s1: Sys, s2: Sys)
    requires Looked(s, s1) && Looked(s1, s2)
    ensures Looked(s, s2)
  {
  }

  lemma SetRolesLooks(s: Sys, tenant: Id, id: Id, roles: set<Id>, actor: Id)
    ensures Looked(s, Ops.SetRoles(s, tenant, id, roles, actor).sys)
  {
    AssignableLooks(s, actor, tenant, roles);
    LookedSelf(s);
    hide Ops.RolesAssignable;
  }

  lemma CreateRoleLooks(s: Sys, tenant: Id, actor: Id, code: string, permissions: seq<Id>, newId: Id)
    ensures Looked(s, Ops.CreateRole(s, tenant, actor, code, permissions, newId).sys)
  {
    LookupLooks(s, actor, tenant);
    LookedSelf(s);
    hide GetUserAccess, Ops.CodesOf, Ops.EnableError, Ops.AllEnabled, Ops.CodeTaken, Ops.Distinct;
  }

  lemma RefusedTenantLooks(s: Sys, within: Id, slug: string, creator: Id, systemRole: Option<Id>, newId: Id)
    requires !AnswersAdmin(s, creator, within)
    ensures Looked(s, Ops.RequestTenant(s, within, slug, creator, systemRole, newId).sys)
  {
    RequestTenantContained(s, within, slug, creator, systemRole, newId);
    LookupLooks(s, creator, within);
    LookedSelf(s);
    hide GetUserAccess, Ops.RequestTenant;
  }

  /** The operations without a lookup. */
  lemma PlainWritesLook(s: Sys, op: Op)
    requires Legit(s, op)
    requires op.EntryExpires? || op.UpdateRole? || op.RemoveRole? || op.UpdateUser? || op.RemoveUser? || op.RemoveTenant? || op.Register?
    ensures NoneForGone(s, Apply(s, op))
  {
  }

  /** No ordinary operation writes an entry about a tenant that does not exist. */
  lemma WritesNoneForGone(s: Sys, op: Op)
    requires Legit(s, op) && Ordinary(s, op)
    ensures NoneForGone(s, Apply(s, op))
  {
    hide GetUserAccess, NoneForGone;
    match op
    case CreateRole(tenant, actor, code, permissions, newId) => CreateRoleLooks(s, tenant, actor, code, permissions, newId);
    case SetPermissions(tenant, id, selected, actor) => SetPermissionsLooks(s, tenant, id, selected, actor);
    case SetPermission(tenant, id, permission, on, actor) => SetPermissionLooks(s, tenant, id, permission, on, actor);
    case CreateUser(tenant, actor, email, roles, existing, memberRole, newId) =>
      CreateUserLooks(s, tenant, actor, email, roles, existing, memberRole, newId);
    case SetRoles(tenant, id, roles, actor) => SetRolesLooks(s, tenant, id, roles, actor);
    case CreateTenant(within, slug, creator, systemRole, newId) =>
      RefusedTenantLooks(s, within, slug, creator, systemRole, newId);
    case ReadAccess(user, tenant) => LookupLooks(s, user, tenant);
    case _ => PlainWritesLook(s, op);
  }

  lemma HoldingNeedsAssignment(db: Db, user: Id, tenant: Id)
    ensures HoldsSystemAdmin(db, user, tenant) ==> Holder(db, user, tenant)
  {
  }

  ghost predicate Under(db: Db, tenant: Id, a: UserAccess) {
    SYSTEM_ADMIN !in a.roles && forall c :: c in a.permissions ==> InCeiling(db, tenant, c)
  }

  /** Answers about existing tenants, cached or not, lie under any ceiling the tables have kept to. */
  lemma AnswerUnder(db: Db, s: Sys, user: Id, tenant: Id)
    requires Good(s) && Contained(db, s.db) && !Holder(db, user, tenant) && tenant in s.db.tenants
    ensures var answer := GetUserAccess(s, user, tenant).1; answer.Some? ==> Under(db, tenant, answer.value)
  {
    CodesTellAdmins(s.db, user, tenant);
    HoldingNeedsAssignment(s.db, user, tenant);
    if GetUserAccess(s, user, tenant).1.Some? { AnswerUnderCeiling(s, user, tenant); }
  }

  /** A cached entry stays under the ceiling, also once its tenant is gone. */
  lemma {:induction false} EntryStaysUnder(db: Db, s: Sys, run: seq<Op>, k: Member)
    requires Good(s) && ValidRun(s, run) && OrdinaryRun(s, run)
    requires Contained(db, s.db) && !Holder(db, k.user, k.tenant)
    requires k in s.cache ==> Under(db, k.tenant, s.cache[k])
    ensures k in Run(s, run).cache ==> Under(db, k.tenant, Run(s, run).cache[k])
    decreases |run|
  {
    if run != [] {
      var s' := Apply(s, run[0]);
      OrdinaryStep(s, run[0]);
      StepKeeps(s, run[0]);
      ContainedOn(db, s.db, s'.db);
      WritesNoneForGone(s, run[0]);
      if k.tenant in s'.db.tenants { AnswerUnder(db, s', k.user, k.tenant); }
      EntryStaysUnder(db, s', run[1..], k);
    }
  }

  lemma ContainedOn(db: Db, db1: Db, db2: Db)
    requires Contained(db, db1) && Contained(db1, db2)
    ensures Contained(db, db2)
  {
  }

  /** Whatever ordinary operations follow a reachable state, a user who does not hold system_admin there
      is never answered it, nor any permission above the ceiling their tenant had, even if the tenant is
      deleted on the way. Only an entry kept from a tenant that was gone before has no ceiling to obey. */
  lemma CeilingHolds(before: seq<Op>, run: seq<Op>, user: Id, tenant: Id)
    requires ValidRun(EMPTY, before)
    requires var s := Run(EMPTY, before); ValidRun(s, run) && OrdinaryRun(s, run) && !Holder(s.db, user, tenant)
    requires var s := Run(EMPTY, before); Member(user, tenant) in s.cache ==> tenant in s.db.tenants
    ensures var s := Run(EMPTY, before); var answer := GetUserAccess(Run(s, run), user, tenant).1;
            answer.Some? ==> SYSTEM_ADMIN !in answer.value.roles &&
                             forall c :: c in answer.value.permissions ==> InCeiling(s.db, tenant, c)
  {
    var s := Run(EMPTY, before);
    var s' := Run(s, run);
    RunKeeps(EMPTY, before);
    RunKeeps(s, run);
    ContainedSelf(s.db);
    if tenant in s.db.tenants { AnswerUnder(s.db, s, user, tenant); }
    EntryStaysUnder(s.db, s, run, Member(user, tenant));
    RunContained(s, run);
    if tenant in s'.db.tenants { AnswerUnder(s.db, s', user, tenant); }
  }
}
