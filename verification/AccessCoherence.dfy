/** The access cache is never wrong about a tenant that is still active, whatever sequence of completed
    operations has run; platform permissions stay with system_admin. */
module AccessCoherence {
  import opened Common
  import opened AccessModel
  import opened AccessWrites
  import opened AccessRuns
  import Ops = AccessOps
  import Boots = AccessSeed

  ghost predicate Good(s: Sys) { Wf(s) && Coherent(s) }

  /** Entries kept by an operation are about views it did not change. */
  ghost predicate Survives(s: Sys, s': Sys) {
    forall k :: k in s'.cache ==>
      && k in s.cache && s'.cache[k] == s.cache[k]
      && (k.tenant in s'.db.tenants && LooseView(s.db, k.user, k.tenant).Some? ==>
            k.tenant in s.db.tenants && LooseView(s'.db, k.user, k.tenant) == LooseView(s.db, k.user, k.tenant))
      && (k.tenant in s'.db.tenants ==> k.tenant in s.db.tenants)
  }

  lemma WriteKeeps(s: Sys, s': Sys)
    requires Good(s) && WfDb(s'.db) && IdsIssued(s') && Survives(s, s')
    ensures Good(s')
  {
  }

  /** In sound tables the role list shows exactly whether the structural test for system_admin holds. */
  lemma CodesTellAdmins(db: Db, user: Id, tenant: Id)
    requires WfDb(db)
    ensures SYSTEM_ADMIN in AccessOf(db, user, tenant).roles <==> HoldsSystemAdmin(db, user, tenant)
  {
  }

  lemma ViewConfined(db: Db, user: Id, tenant: Id)
    requires WfDb(db)
    ensures PlatformNeedsAdmin(AccessOf(db, user, tenant))
  {
  }

  lemma FillKeeps(s: Sys, user: Id, tenant: Id)
    requires Good(s)
    ensures Good(GetUserAccess(s, user, tenant).0)
  {
  }

  lemma AssignableKeeps(s: Sys, actor: Id, tenant: Id, roles: set<Id>)
    requires Good(s)
    ensures Good(Ops.RolesAssignable(s, actor, tenant, roles).sys)
    ensures Ops.RolesAssignable(s, actor, tenant, roles).sys.db == s.db
    ensures Ops.RolesAssignable(s, actor, tenant, roles).sys.issued == s.issued
    ensures Ops.RolesAssignable(s, actor, tenant, roles).error.None? ==> forall r :: r in roles ==> HasRole(s.db, r, tenant)
  {
    FillKeeps(s, actor, tenant);
  }

  // ---------------------------------------------------------------- role edits

  /** A change confined to one custom role, with that tenant's entries dropped. */
  lemma RoleWriteKeeps(s: Sys, db: Db, issued: set<Id>, id: Id, owner: Id)
    requires Good(s) && WfDb(db) && OnlyRole(s.db, db, id, owner)
    requires s.issued <= issued && db.roles.Keys <= issued
    ensures Good(InvalidateTenant(s.(db := db, issued := issued), owner))
  {
    var s' := InvalidateTenant(s.(db := db, issued := issued), owner);
    forall k | k in s'.cache ensures LooseView(s.db, k.user, k.tenant) == LooseView(db, k.user, k.tenant) {
      ForeignRoleView(s.db, db, id, owner, k.user, k.tenant);
    }
    WriteKeeps(s, s');
  }

  lemma SetBindingsOnly(db: Db, db': Db, id: Id, ids: set<Id>, on: set<Id>, owner: Id)
    requires OnlyRole(db, db', id, owner)
    ensures OnlyRole(db, Ops.SetBindings(db', id, ids, on), id, owner)
  {
  }

  lemma AddedRoleOnly(s: Sys, newId: Id, tenant: Id, code: string)
    requires Wf(s) && newId !in s.issued
    ensures OnlyRole(s.db, s.db.(roles := s.db.roles[newId := Role(Some(tenant), code, false, true)]), newId, tenant)
  {
  }

  lemma CreateRoleKeeps(s: Sys, tenant: Id, actor: Id, code: string, permissions: seq<Id>, newId: Id)
    requires Good(s) && newId !in s.issued
    ensures Good(Ops.CreateRole(s, tenant, actor, code, permissions, newId).sys)
  {
    FillKeeps(s, actor, tenant);
    var (s1, access) := GetUserAccess(s, actor, tenant);
    var ids := Ops.SetFrom(permissions);
    if code !in RESERVED && Ops.AllEnabled(s.db, ids) && access.Some? && tenant in s.db.tenants &&
       Ops.EnableError(Ops.CodesOf(s.db, ids), access.value).None?
    {
      var added := s.db.(roles := s.db.roles[newId := Role(Some(tenant), code, false, true)]);
      AddRoleWf(s.db, newId, tenant, code);
      NoPlatformIn(s.db, ids, access.value);
      BindingsWf(added, newId, ids, ids);
      AddedRoleOnly(s, newId, tenant, code);
      SetBindingsOnly(s.db, added, newId, ids, ids, tenant);
      hide WfDb, Ops.SetBindings, OnlyRole, Coherent;
      RoleWriteKeeps(s1, Ops.SetBindings(added, newId, ids, ids), s.issued + {newId}, newId, tenant);
    }
  }

  lemma NoPlatformIn(db: Db, ids: set<Id>, actor: UserAccess)
    requires Ops.EnableError(Ops.CodesOf(db, ids), actor).None?
    ensures NoPlatform(db, ids)
  {
  }

  lemma UpdateRoleKeeps(s: Sys, tenant: Id, id: Id, code: Option<string>, enabled: Option<bool>)
    requires Good(s)
    ensures Good(Ops.UpdateRole(s, tenant, id, code, enabled).sys)
  {
    if Ops.UpdateRole(s, tenant, id, code, enabled).error.None? {
      var r := s.db.roles[id];
      var code' := if code.Some? then code.value else r.code;
      var enabled' := if enabled.Some? then enabled.value else r.enabled;
      ChangeRoleWf(s.db, id, code', enabled');
      var db := s.db.(roles := s.db.roles[id := r.(code := code', enabled := enabled')]);
      RoleWriteKeeps(s, db, s.issued, id, r.tenant.value);
    }
  }

  lemma RemoveRoleKeeps(s: Sys, tenant: Id, id: Id)
    requires Good(s)
    ensures Good(Ops.RemoveRole(s, tenant, id).sys)
  {
    if Ops.RemoveRole(s, tenant, id).error.None? {
      DropRoleWf(s.db, id);
      RoleWriteKeeps(s, Ops.DropRole(s.db, id), s.issued, id, s.db.roles[id].tenant.value);
    }
  }

  /** Changing a role's flags and dropping the entries of its tenant, or all for a global role. */
  lemma EditKeeps(s: Sys, id: Id, ids: set<Id>, on: set<Id>)
    requires Good(s) && id in s.db.roles && ids <= s.db.permissions.Keys && NoPlatform(s.db, on)
    ensures Good(Ops.InvalidateRoleAccess(s.(db := Ops.SetBindings(s.db, id, ids, on)), s.db.roles[id]))
  {
    var db := Ops.SetBindings(s.db, id, ids, on);
    BindingsWf(s.db, id, ids, on);
    if s.db.roles[id].tenant.Some? {
      SetBindingsOnly(s.db, s.db, id, ids, on, s.db.roles[id].tenant.value);
      hide WfDb, OnlyRole, Coherent;
      RoleWriteKeeps(s, db, s.issued, id, s.db.roles[id].tenant.value);
    } else {
      hide WfDb, Coherent;
      WriteKeeps(s, InvalidateAll(s.(db := db)));
    }
  }

  lemma TargetKeeps(s: Sys, tenant: Id, id: Id, actor: Id)
    requires Good(s)
    ensures var (s1, target) := Ops.TargetConfigurable(s, tenant, id, actor);
            && Good(s1) && s1.db == s.db && s1.issued == s.issued && (target.Ok? ==> id in s.db.roles)
  {
    FillKeeps(s, actor, tenant);
  }

  lemma SetPermissionsKeeps(s: Sys, tenant: Id, id: Id, selected: set<Id>, actor: Id)
    requires Good(s)
    ensures Good(Ops.SetPermissions(s, tenant, id, selected, actor).sys)
  {
    TargetKeeps(s, tenant, id, actor);
    var (s1, target) := Ops.TargetConfigurable(s, tenant, id, actor);
    if target.Ok? && Ops.EnableError(Ops.CodesOf(s.db, selected), target.value).None? {
      NoPlatformIn(s.db, selected, target.value);
      EditKeeps(s1, id, (set p | p in s1.db.permissions && Enabled(s1.db, p)), selected);
      FillKeeps(Ops.EditAll(s1, id, selected), actor, tenant);
    }
  }

  lemma SetPermissionKeeps(s: Sys, tenant: Id, id: Id, permission: Id, on: bool, actor: Id)
    requires Good(s)
    ensures Good(Ops.SetPermission(s, tenant, id, permission, on, actor).sys)
  {
    TargetKeeps(s, tenant, id, actor);
    var (s1, target) := Ops.TargetConfigurable(s, tenant, id, actor);
    if target.Ok? && Enabled(s.db, permission) {
      var refused := if on then Ops.EnableError(Ops.CodesOf(s.db, {permission}), target.value) else None;
      if refused.None? {
        if on { NoPlatformIn(s.db, {permission}, target.value); }
        EditKeeps(s1, id, {permission}, if on then {permission} else {});
        FillKeeps(Ops.EditOne(s1, id, permission, on), actor, tenant);
      }
    }
  }

  // ---------------------------------------------------------------- users

  /** Enrolling somebody who is not a member yet: nothing to invalidate, no entry can exist. */
  lemma EnrollKeeps(s: Sys, user: Id, row: User, tenant: Id, roles: set<Id>, issued: set<Id>)
    requires Good(s) && tenant in s.db.tenants && Member(user, tenant) !in s.db.memberships && row.active
    requires s.issued <= issued && user in issued
    requires forall r :: r in roles ==> HasRole(s.db, r, tenant)
    ensures Good(s.(db := Ops.Enroll(s.db, user, row, tenant, roles), issued := issued))
  {
    var db := Ops.Enroll(s.db, user, row, tenant, roles);
    EnrollWf(s.db, user, row, tenant, roles);
    forall k | k in s.cache && k.tenant in s.db.tenants
      ensures LooseView(s.db, k.user, k.tenant).Some? ==> LooseView(db, k.user, k.tenant) == LooseView(s.db, k.user, k.tenant)
    {
      if Belongs(s.db, k.user, k.tenant) { SameAssignmentsView(s.db, db, k.user, k.tenant); }
    }
    WriteKeeps(s, s.(db := db, issued := issued));
  }

  lemma CreateUserKeeps(s: Sys, tenant: Id, actor: Id, email: string, roles: set<Id>, existing: Option<Id>,
                        memberRole: Option<Id>, newId: Id)
    requires Good(s) && Legit(s, CreateUser(tenant, actor, email, roles, existing, memberRole, newId))
    ensures Good(Ops.CreateUser(s, tenant, actor, email, roles, existing, memberRole, newId).sys)
  {
    AssignableKeeps(s, actor, tenant, roles);
    var checked := if roles != {} then Ops.RolesAssignable(s, actor, tenant, roles) else Ops.Done(s);
    var user := if existing.Some? then existing.value else newId;
    if Ops.CreateUser(s, tenant, actor, email, roles, existing, memberRole, newId).error.None? {
      var granted := if roles != {} then roles else {memberRole.value};
      var row := if existing.Some? then s.db.users[user].(active := true) else User(Some(email), true);
      EnrollKeeps(checked.sys, user, row, tenant, granted, s.issued + {user});
    }
  }

  lemma UpdateUserKeeps(s: Sys, tenant: Id, id: Id, email: Option<string>)
    requires Good(s)
    ensures Good(Ops.UpdateUser(s, tenant, id, email).sys)
  {
    var s' := Ops.UpdateUser(s, tenant, id, email).sys;
    FlagsWf(s.db, s'.db);
    forall k | k in s'.cache ensures LooseView(s.db, k.user, k.tenant) == LooseView(s'.db, k.user, k.tenant) {
      SameAssignmentsView(s.db, s'.db, k.user, k.tenant);
    }
    WriteKeeps(s, s');
  }

  lemma SetRolesKeeps(s: Sys, tenant: Id, id: Id, roles: set<Id>, actor: Id)
    requires Good(s)
    ensures Good(Ops.SetRoles(s, tenant, id, roles, actor).sys)
  {
    AssignableKeeps(s, actor, tenant, roles);
    if Ops.SetRoles(s, tenant, id, roles, actor).error.None? {
      var s1 := Ops.RolesAssignable(s, actor, tenant, roles).sys;
      var db := Ops.SetAssignments(s.db, id, tenant, roles);
      AssignWf(s.db, id, tenant, roles);
      forall k | k in s1.cache && k != Member(id, tenant)
        ensures LooseView(s.db, k.user, k.tenant) == LooseView(db, k.user, k.tenant)
      {
        SameAssignmentsView(s.db, db, k.user, k.tenant);
      }
      WriteKeeps(s1, InvalidateMember(s1.(db := db), id, tenant));
    }
  }

  /** Removing a member: other people's views stay; a user deleted for good had no other membership, so
      no entry of theirs can be left. */
  lemma RemoveUserKeeps(s: Sys, tenant: Id, id: Id, hard: bool)
    requires Good(s)
    ensures Good(Ops.RemoveUser(s, tenant, id, hard).sys)
  {
    if Ops.IsMember(s.db, id, tenant) {
      var s' := Ops.RemoveUser(s, tenant, id, hard).sys;
      if hard {
        var db := Ops.SetAssignments(s.db, id, tenant, {});
        AssignWf(s.db, id, tenant, {});
        FlagsWf(db, db.(memberships := db.memberships - {Member(id, tenant)}));
        DropUserWf(db.(memberships := db.memberships - {Member(id, tenant)}), id);
      } else {
        FlagsWf(s.db, s'.db);
      }
      forall k | k in s.cache && k != Member(id, tenant) && k.tenant in s.db.tenants
        ensures LooseView(s.db, k.user, k.tenant).Some? ==> LooseView(s'.db, k.user, k.tenant) == LooseView(s.db, k.user, k.tenant)
      {
        if Belongs(s.db, k.user, k.tenant) { SameAssignmentsView(s.db, s'.db, k.user, k.tenant); }
      }
      WriteKeeps(s, s');
    }
  }

  // ---------------------------------------------------------------- tenants

  lemma AddTenantKeeps(s: Sys, id: Id, slug: string)
    requires Good(s) && id !in s.issued
    ensures Good(s.(db := Ops.AddTenant(s.db, id, slug), issued := s.issued + {id}))
  {
    var s' := s.(db := Ops.AddTenant(s.db, id, slug), issued := s.issued + {id});
    FlagsWf(s.db, s'.db);
    forall k | k in s.cache && k.tenant in s.db.tenants
      ensures LooseView(s.db, k.user, k.tenant) == LooseView(s'.db, k.user, k.tenant)
    {
      SameAssignmentsView(s.db, s'.db, k.user, k.tenant);
    }
    WriteKeeps(s, s');
  }

  /** Nobody can hold an entry for a tenant that did not exist. */
  lemma GuardsKeep(s: Sys, user: Id, tenant: Id, required: set<string>)
    requires Good(s)
    ensures Good(Ops.RolesGuard(s, user, tenant, required).sys) && Good(Ops.PermissionsGuard(s, user, tenant, required).sys)
  {
    FillKeeps(s, user, tenant);
    hide Good, GetUserAccess;
  }

  lemma RequestTenantKeeps(s: Sys, within: Id, slug: string, creator: Id, systemRole: Option<Id>, newId: Id)
    requires Good(s) && newId !in s.issued && Finds(systemRole, SystemRoles(s.db))
    ensures Good(Ops.RequestTenant(s, within, slug, creator, systemRole, newId).sys)
  {
    hide Good, Ops.RolesGuard, Ops.PermissionsGuard, Ops.CreateTenant;
    var s1 := Ops.RolesGuard(s, creator, within, {SYSTEM_ADMIN}).sys;
    GuardsKeep(s, creator, within, {SYSTEM_ADMIN});
    GuardsKeep(s1, creator, within, {TENANT_CREATE});
    CreateTenantKeeps(Ops.PermissionsGuard(s1, creator, within, {TENANT_CREATE}).sys, slug, creator, systemRole, newId);
  }

  lemma CreateTenantKeeps(s: Sys, slug: string, creator: Id, systemRole: Option<Id>, newId: Id)
    requires Good(s) && newId !in s.issued && Finds(systemRole, SystemRoles(s.db))
    ensures Good(Ops.CreateTenant(s, slug, creator, systemRole, newId).sys)
  {
    if Ops.CreateTenant(s, slug, creator, systemRole, newId).error.None? {
      AddTenantKeeps(s, newId, slug);
      var s1 := s.(db := Ops.AddTenant(s.db, newId, slug), issued := s.issued + {newId});
      var db := Ops.Enroll(s1.db, creator, s.db.users[creator], newId, {systemRole.value});
      EnrollWf(s1.db, creator, s.db.users[creator], newId, {systemRole.value});
      forall k | k in s1.cache ensures LooseView(s1.db, k.user, k.tenant) == LooseView(db, k.user, k.tenant) {
        SameAssignmentsView(s1.db, db, k.user, k.tenant);
      }
      WriteKeeps(s1, s1.(db := db));
    }
  }

  lemma RemoveTenantKeeps(s: Sys, id: Id, hard: bool)
    requires Good(s)
    ensures Good(Ops.RemoveTenant(s, id, hard).sys)
  {
    if Ops.RemoveTenant(s, id, hard).error.None? {
      var s' := Ops.RemoveTenant(s, id, hard).sys;
      if hard { DropTenantWf(s.db, id); } else { FlagsWf(s.db, s'.db); }
      forall k | k in s.cache && k.tenant in s'.db.tenants
        ensures LooseView(s.db, k.user, k.tenant) == LooseView(s'.db, k.user, k.tenant)
      {
        if hard {
          DropTenantView(s.db, id, k.user, k.tenant);
        } else {
          SameAssignmentsView(s.db, s'.db, k.user, k.tenant);
        }
      }
      WriteKeeps(s, s');
    }
  }

  lemma RegisterKeeps(s: Sys, email: Option<string>, defaultTenant: Option<Id>, memberRole: Option<Id>,
                      newTenant: Id, newUser: Id)
    requires Good(s) && Legit(s, Register(email, defaultTenant, memberRole, newTenant, newUser))
    ensures Good(Ops.RegisterVerifiedUser(s, email, defaultTenant, memberRole, newTenant, newUser).sys)
  {
    if defaultTenant.None? { AddTenantKeeps(s, newTenant, "default"); }
    var s1 := Ops.DefaultTenant(s, defaultTenant, newTenant);
    var t := if defaultTenant.Some? then defaultTenant.value else newTenant;
    if Ops.RegisterVerifiedUser(s, email, defaultTenant, memberRole, newTenant, newUser).error.None? {
      EnrollKeeps(s1, newUser, User(email, true), t, {memberRole.value}, s1.issued + {newUser});
    }
  }

  // ---------------------------------------------------------------- boot

  lemma SeedKeeps(s: Sys, permissionIds: seq<Id>, roleIds: seq<Id>)
    requires Good(s) && |permissionIds| == |BUILT_IN_PERMISSIONS| && |roleIds| == |BUILT_IN_ROLES|
    requires Ops.Distinct(permissionIds) && Ops.Distinct(roleIds)
    requires Ops.SetFrom(permissionIds) !! s.issued && Ops.SetFrom(roleIds) !! s.issued
    ensures Good(Boots.SeedAll(s, permissionIds, roleIds))
  {
    Boots.SeedWf(s.db, permissionIds, roleIds);
    hide Boots.Seed, WfDb;
  }

  lemma EnrollUncached(s: Sys, user: Id, row: User, tenant: Id, roles: set<Id>)
    requires Good(s) && s.cache == map[] && tenant in s.db.tenants
    requires forall r :: r in roles ==> HasRole(s.db, r, tenant)
    ensures Good(s.(db := Ops.Enroll(s.db, user, row, tenant, roles), issued := s.issued + {user}))
  {
  }

  /** The administrator is enrolled after the entries were dropped, so there is nothing to contradict. */
  lemma SeedAdminKeeps(s: Sys, a: Boots.AdminSeed, adminRole: Id)
    requires Good(s) && s.cache == map[] && Boots.IsGlobal(s.db, adminRole, SYSTEM_ADMIN)
    requires a.newTenant !in s.issued && Finds(a.defaultTenant, DefaultTenants(s.db))
    ensures Good(Boots.SeedAdmin(s, a, adminRole))
  {
    if a.defaultTenant.None? { AddTenantKeeps(s, a.newTenant, "default"); }
    hide Good, Ops.Enroll;
    var s2 := Ops.DefaultTenant(s, a.defaultTenant, a.newTenant);
    var t := if a.defaultTenant.Some? then a.defaultTenant.value else a.newTenant;
    var user := if a.existing.Some? then a.existing.value else a.newUser;
    var row := if user in s2.db.users then s2.db.users[user].(active := true) else User(Some(a.email), true);
    EnrollUncached(s2, user, row, t, {adminRole});
  }

  lemma BootKeeps(s: Sys, permissionIds: seq<Id>, roleIds: seq<Id>, admin: Option<Boots.AdminSeed>, adminRole: Id)
    requires Good(s) && Legit(s, Boot(permissionIds, roleIds, admin, adminRole))
    ensures Good(Boots.Boot(s, permissionIds, roleIds, admin, adminRole))
  {
    SeedKeeps(s, permissionIds, roleIds);
    hide Good, Boots.Seed, Boots.SeedAdmin;
    if admin.Some? { SeedAdminKeeps(Boots.SeedAll(s, permissionIds, roleIds), admin.value, adminRole); }
  }
}
