/** What enrolling, renaming and founding do: who has which access afterwards, and who is not affected. */
module AccountEffects {
  import opened Common
  import opened AccessModel
  import opened AccessWrites
  import opened AccessCoherence
  import opened AccessEffects
  import opened AccessRuns
  import Ops = AccessOps
  import Boots = AccessSeed

  /** The roles among these that count in the tenant. */
  function Counting(db: Db, roles: set<Id>, tenant: Id): set<Id> {
    set r | r in roles && r in db.roles && db.roles[r].enabled && InScope(db.roles[r], tenant)
  }

  /** Enrolling adds the granted roles that count to those the user had in the tenant, makes the account
      active, and leaves everybody else alone. */
  lemma EnrollAccess(db: Db, id: Id, row: User, tenant: Id, granted: set<Id>, user: Id, t: Id)
    requires row.active && tenant in db.tenants
    ensures var db' := Ops.Enroll(db, id, row, tenant, granted);
            && Assigned(db', id, tenant) == Assigned(db, id, tenant) + Counting(db, granted, tenant)
            && View(db', id, tenant) == (if db.tenants[tenant].active then Some(AccessOf(db', id, tenant)) else None)
            && (t != tenant ==> Assigned(db', id, t) == Assigned(db, id, t))
            && (user != id ==> View(db', user, t) == View(db, user, t))
            && (forall u :: u != id ==> (u in db'.users <==> u in db.users) && (u in db.users ==> db'.users[u] == db.users[u]))
  {
    var db' := Ops.Enroll(db, id, row, tenant, granted);
    forall r ensures r in Assigned(db', id, tenant) <==> r in Assigned(db, id, tenant) || r in Counting(db, granted, tenant) {
      assert Assignment(id, tenant, r) in db'.assignments <==> Assignment(id, tenant, r) in db.assignments || r in granted;
    }
    forall r ensures r in Assigned(db', id, t) && t != tenant <==> r in Assigned(db, id, t) && t != tenant {
      assert t != tenant ==> (Assignment(id, t, r) in db'.assignments <==> Assignment(id, t, r) in db.assignments);
    }
    if user != id { SameAssignmentsView(db, db', user, t); }
  }

  /** The access that one role alone gives. */
  lemma OneRole(db: Db, user: Id, tenant: Id, role: Id)
    requires Assigned(db, user, tenant) == {role} && role in db.roles
    ensures AccessOf(db, user, tenant) ==
            UserAccess({db.roles[role].code},
                       if IsSystemAdminRole(db.roles[role]) then EnabledCodes(db) else GrantedCodes(db, {role}))
  {
    assert RoleCodes(db, {role}) == {db.roles[role].code};
    assert role in Assigned(db, user, tenant);
  }

  lemma SameRights(db: Db, db': Db, roles: set<Id>)
    requires db'.roles == db.roles && db'.bindings == db.bindings && db'.permissions == db.permissions
    ensures GrantedCodes(db', roles) == GrantedCodes(db, roles) && EnabledCodes(db') == EnabledCodes(db)
  {
  }

  lemma NewTenantView(db: Db, id: Id, slug: string, user: Id, t: Id)
    requires References(db) && id !in db.tenants
    ensures var db' := Ops.AddTenant(db, id, slug);
            && View(db', user, t) == View(db, user, t)
            && Assigned(db', user, id) == {}
  {
    var db' := Ops.AddTenant(db, id, slug);
    if t != id { SameAssignmentsView(db, db', user, t); }
  }

  // ---------------------------------------------------------------- self-registration

  /** The first reason against a registration, in the order of the checks. */
  lemma RegisterVerdict(s: Sys, email: Option<string>, defaultTenant: Option<Id>, memberRole: Option<Id>, newTenant: Id,
                        newUser: Id)
    requires Legit(s, Register(email, defaultTenant, memberRole, newTenant, newUser))
    ensures var taken := email.Some? && exists u :: u in s.db.users && s.db.users[u].email == email;
            Ops.RegisterVerifiedUser(s, email, defaultTenant, memberRole, newTenant, newUser).error ==
            if defaultTenant.Some? && !s.db.tenants[defaultTenant.value].active then Some(Ops.Forbidden)
            else if taken then Some(Ops.Rejected)
            else if memberRole.None? then Some(Ops.NotFound)
            else None
  {
    var s1 := Ops.DefaultTenant(s, defaultTenant, newTenant);
    assert email.Some? ==> forall u :: u in Ops.ByEmail(s1.db, email.value) <==> u in s.db.users && s.db.users[u].email == email;
    hide Ops.Enroll, DefaultRoles;
  }

  /** Whoever registers is a member of the default tenant with the default role and nothing else; the tenant
      is created when missing, and nobody else's access changes. */
  lemma RegisterEffect(s: Sys, email: Option<string>, defaultTenant: Option<Id>, memberRole: Option<Id>, newTenant: Id,
                       newUser: Id, user: Id, t: Id)
    requires Good(s) && Legit(s, Register(email, defaultTenant, memberRole, newTenant, newUser))
    ensures var home := if defaultTenant.Some? then defaultTenant.value else newTenant;
            var o := Ops.RegisterVerifiedUser(s, email, defaultTenant, memberRole, newTenant, newUser);
            var db := o.sys.db;
            && (defaultTenant.None? ==> home in db.tenants && db.tenants[home] == Tenant("default", true))
            && (o.error.None? ==>
                  && newUser in db.users && db.users[newUser] == User(email, true)
                  && View(db, newUser, home) == Some(UserAccess({MEMBER}, GrantedCodes(s.db, {memberRole.value})))
                  && (t != home ==> View(db, newUser, t).None?))
            && (user != newUser ==> View(db, user, t) == View(s.db, user, t))
  {
    var home := if defaultTenant.Some? then defaultTenant.value else newTenant;
    var s1 := Ops.DefaultTenant(s, defaultTenant, newTenant);
    if defaultTenant.None? { NewTenantView(s.db, newTenant, "default", user, t); }
    if Ops.RegisterVerifiedUser(s, email, defaultTenant, memberRole, newTenant, newUser).error.None? {
      NewcomerAccess(s1.db, newUser, User(email, true), home, memberRole.value, t);
      EnrollAccess(s1.db, newUser, User(email, true), home, {memberRole.value}, user, t);
      SameRights(s.db, s1.db, {memberRole.value});
      hide Good, Ops.Enroll, AccessOf, View, Assigned, Counting, GrantedCodes, EnabledCodes;
    }
  }

  lemma NewcomerAccess(db: Db, id: Id, row: User, home: Id, role: Id, t: Id)
    requires References(db) && id !in db.users && row.active && home in db.tenants && db.tenants[home].active
    requires role in db.roles && Ops.IsDefaultRole(db.roles[role])
    ensures var db' := Ops.Enroll(db, id, row, home, {role});
            && id in db'.users && db'.users[id] == row
            && View(db', id, home) ==
               Some(UserAccess({MEMBER}, GrantedCodes(db, {role})))
            && (t != home ==> View(db', id, t).None?)
  {
    var db' := Ops.Enroll(db, id, row, home, {role});
    EnrollAccess(db, id, row, home, {role}, id, t);
    assert Assigned(db, id, home) == {} && Counting(db, {role}, home) == {role};
    OneRole(db', id, home, role);
    SameRights(db, db', {role});
  }

  // ---------------------------------------------------------------- tenants

  /** Whoever founds a tenant is its system_admin; the tenant is active, nobody else belongs to it, and no
      other access changes. */
  lemma CreateTenantEffect(s: Sys, slug: string, creator: Id, systemRole: Option<Id>, newId: Id, user: Id, t: Id)
    requires Good(s) && newId !in s.issued && Finds(systemRole, SystemRoles(s.db))
    ensures var o := Ops.CreateTenant(s, slug, creator, systemRole, newId);
            && o.error == (if exists u :: u in s.db.tenants && s.db.tenants[u].slug == slug then Some(Ops.Conflict)
                           else if creator !in s.db.users then Some(Ops.Rejected)
                           else if systemRole.None? then Some(Ops.NotFound)
                           else None)
            && (o.error.Some? ==> o.sys == s)
            && (o.error.None? ==>
                  var db := o.sys.db;
                  && db.tenants == s.db.tenants[newId := Tenant(slug, true)] && db.users == s.db.users
                  && Belongs(db, creator, newId) == s.db.users[creator].active
                  && (s.db.roles[systemRole.value].enabled ==>
                        AccessOf(db, creator, newId) == UserAccess({SYSTEM_ADMIN}, EnabledCodes(s.db)))
                  && (user != creator ==> View(db, user, newId).None?)
                  && (t != newId ==> View(db, user, t) == View(s.db, user, t)))
  {
    var o := Ops.CreateTenant(s, slug, creator, systemRole, newId);
    if o.error.None? {
      FoundedTenant(s.db, slug, creator, systemRole.value, newId, user, t);
    }
  }

  lemma FoundedTenant(db: Db, slug: string, creator: Id, role: Id, newId: Id, user: Id, t: Id)
    requires References(db) && newId !in db.tenants && creator in db.users && role in SystemRoles(db)
    ensures var db' := Ops.Enroll(Ops.AddTenant(db, newId, slug), creator, db.users[creator], newId, {role});
            && db'.users == db.users
            && (db.roles[role].enabled ==> AccessOf(db', creator, newId) == UserAccess({SYSTEM_ADMIN}, EnabledCodes(db)))
            && (user != creator ==> View(db', user, newId).None?)
            && (t != newId ==> View(db', user, t) == View(db, user, t))
  {
    var db1 := Ops.AddTenant(db, newId, slug);
    var db' := Ops.Enroll(db1, creator, db.users[creator], newId, {role});
    NewTenantView(db, newId, slug, user, t);
    NewTenantView(db, newId, slug, creator, t);
    assert db'.users == db.users;
    if t != newId { SameAssignmentsView(db1, db', user, t); }
    if db.roles[role].enabled {
      forall r ensures r in Assigned(db', creator, newId) <==> r == role {
        assert Assignment(creator, newId, r) in db'.assignments <==> r == role;
      }
      OneRole(db', creator, newId, role);
      SameRights(db, db', {role});
    }
  }

  // ---------------------------------------------------------------- accounts

  /** An account's email changes and nothing else; no one's access depends on it. */
  lemma UpdateUserEffect(s: Sys, tenant: Id, id: Id, email: Option<string>, user: Id, t: Id)
    requires Good(s)
    ensures var o := Ops.UpdateUser(s, tenant, id, email);
            var taken := email.Some? && exists u :: u in s.db.users && u != id && s.db.users[u].email == email;
            && o.error == (if !Ops.IsMember(s.db, id, tenant) then Some(Ops.NotFound)
                           else if taken then Some(Ops.Rejected)
                           else None)
            && (o.error.Some? ==> o.sys == s)
            && (o.error.None? ==>
                  && id in s.db.users && o.sys.db == s.db.(users := o.sys.db.users) && o.sys.db.users.Keys == s.db.users.Keys
                  && (forall u :: u in s.db.users && u != id ==> o.sys.db.users[u] == s.db.users[u])
                  && o.sys.db.users[id].active == s.db.users[id].active
                  && o.sys.db.users[id].email == (if email.Some? then email else s.db.users[id].email))
            && View(o.sys.db, user, t) == View(s.db, user, t)
  {
    var o := Ops.UpdateUser(s, tenant, id, email);
    assert email.Some? ==> forall u :: u in Ops.ByEmail(s.db, email.value) <==> u in s.db.users && s.db.users[u].email == email;
    SameAssignmentsView(s.db, o.sys.db, user, t);
  }

  // ---------------------------------------------------------------- the administrator at boot

  /** The configured administrator can log in as one: the account is active, a member of the default tenant,
      and has every enabled permission there; nobody else's access changes. */
  lemma SeedAdminEffect(s: Sys, a: Boots.AdminSeed, adminRole: Id, user: Id, t: Id)
    requires Good(s) && Boots.IsGlobal(s.db, adminRole, SYSTEM_ADMIN) && s.db.roles[adminRole].enabled
    requires a.newTenant !in s.issued && a.newUser !in s.issued
    requires Finds(a.existing, Ops.ByEmail(s.db, a.email)) && Finds(a.defaultTenant, DefaultTenants(s.db))
    ensures var db := Boots.SeedAdmin(s, a, adminRole).db;
            var home := if a.defaultTenant.Some? then a.defaultTenant.value else a.newTenant;
            var id := if a.existing.Some? then a.existing.value else a.newUser;
            && id in db.users && db.users[id] == User(Some(a.email), true)
            && home in db.tenants && db.tenants[home].slug == "default" && (a.defaultTenant.None? ==> db.tenants[home].active)
            && Belongs(db, id, home)
            && SYSTEM_ADMIN in AccessOf(db, id, home).roles && AccessOf(db, id, home).permissions == EnabledCodes(s.db)
            && (user != id ==> View(db, user, t) == View(s.db, user, t))
  {
    var home := if a.defaultTenant.Some? then a.defaultTenant.value else a.newTenant;
    var id := if a.existing.Some? then a.existing.value else a.newUser;
    if a.defaultTenant.None? { NewTenantView(s.db, a.newTenant, "default", user, t); }
    var s1 := Ops.DefaultTenant(s, a.defaultTenant, a.newTenant);
    var row := if id in s1.db.users then s1.db.users[id].(active := true) else User(Some(a.email), true);
    assert row == User(Some(a.email), true);
    AdminEnrolled(s1.db, id, row, home, adminRole);
    EnrollAccess(s1.db, id, row, home, {adminRole}, user, t);
    SameRights(s.db, s1.db, {});
    hide Good, Ops.Enroll, AccessOf, View, Assigned, Counting, EnabledCodes, GrantedCodes;
  }

  lemma AdminEnrolled(db: Db, id: Id, row: User, home: Id, adminRole: Id)
    requires row.active && home in db.tenants
    requires adminRole in db.roles && IsSystemAdminRole(db.roles[adminRole]) && db.roles[adminRole].enabled
    ensures var db' := Ops.Enroll(db, id, row, home, {adminRole});
            && id in db'.users && db'.users[id] == row && db'.tenants == db.tenants && Belongs(db', id, home)
            && SYSTEM_ADMIN in AccessOf(db', id, home).roles && AccessOf(db', id, home).permissions == EnabledCodes(db)
  {
    var db' := Ops.Enroll(db, id, row, home, {adminRole});
    assert Assignment(id, home, adminRole) in db'.assignments;
    assert adminRole in Assigned(db', id, home);
    SameRights(db, db', {});
  }

  // ---------------------------------------------------------------- the rows behind enrolling and removing

  predicate Of(a: Assignment, user: Id, tenant: Id) { a.user == user && a.tenant == tenant }

  /** An enrolled account has the email it was asked for, and is a member with the granted roles on top of
      what it had; every other row stays. */
  lemma CreateUserRows(s: Sys, tenant: Id, actor: Id, email: string, roles: set<Id>, existing: Option<Id>,
                       memberRole: Option<Id>, newId: Id)
    requires Good(s) && Legit(s, CreateUser(tenant, actor, email, roles, existing, memberRole, newId))
    requires Ops.CreateUser(s, tenant, actor, email, roles, existing, memberRole, newId).error.None?
    ensures var db := Ops.CreateUser(s, tenant, actor, email, roles, existing, memberRole, newId).sys.db;
            var id := if existing.Some? then existing.value else newId;
            && db == s.db.(users := s.db.users[id := User(Some(email), true)],
                           memberships := s.db.memberships[Member(id, tenant) := true], assignments := db.assignments)
            && (forall a :: a in db.assignments <==>
                            a in s.db.assignments ||
                            (Of(a, id, tenant) && if roles != {} then a.role in roles else memberRole == Some(a.role)))
  {
    CreateUserWrites(s, tenant, actor, email, roles, existing, memberRole, newId);
    var id := if existing.Some? then existing.value else newId;
    var granted := if roles != {} then roles else {memberRole.value};
    assert existing.Some? ==> s.db.users[id].email == Some(email);
    hide Good, Ops.CreateUser, Legit;
    assert forall a: Assignment :: a in (set r | r in granted :: Assignment(id, tenant, r)) <==>
                                   Of(a, id, tenant) && a.role in granted;
  }

  /** Setting roles exchanges that member's assignments and no other row. */
  lemma SetRolesRows(s: Sys, tenant: Id, id: Id, roles: set<Id>, actor: Id)
    requires Good(s) && Ops.SetRoles(s, tenant, id, roles, actor).error.None?
    ensures var db := Ops.SetRoles(s, tenant, id, roles, actor).sys.db;
            && db == s.db.(assignments := db.assignments)
            && (forall a :: a in db.assignments <==> if Of(a, id, tenant) then a.role in roles else a in s.db.assignments)
  {
    AssignableKeeps(s, actor, tenant, roles);
    var db := Ops.SetRoles(s, tenant, id, roles, actor).sys.db;
    assert db == Ops.SetAssignments(s.db, id, tenant, roles);
    hide Good, Ops.SetRoles;
    assert forall a: Assignment :: a in (set r | r in roles :: Assignment(id, tenant, r)) <==>
                                   Of(a, id, tenant) && a.role in roles;
  }

  /** Removing a member switches the membership off, or deletes it with its assignments; deleted with the
      last membership is the account, and with it whatever was still assigned to it elsewhere. */
  lemma RemoveUserRows(s: Sys, tenant: Id, id: Id, hard: bool)
    ensures var o := Ops.RemoveUser(s, tenant, id, hard);
            var db := o.sys.db;
            var last := forall m :: m in s.db.memberships && m.user == id ==> m.tenant == tenant;
            && o.error == (if Ops.IsMember(s.db, id, tenant) then None else Some(Ops.NotFound))
            && (o.error.Some? ==> o.sys == s)
            && (o.error.None? && !hard ==> db == s.db.(memberships := s.db.memberships[Member(id, tenant) := false]))
            && (o.error.None? && hard ==>
                  && db == s.db.(users := db.users, memberships := s.db.memberships - {Member(id, tenant)},
                                 assignments := db.assignments)
                  && db.users == (if last then s.db.users - {id} else s.db.users)
                  && (forall a :: a in db.assignments <==> a in s.db.assignments && !Of(a, id, tenant) && !(last && a.user == id)))
  {
    if hard { MemberGone(s.db, tenant, id); }
    hide Ops.SetAssignments, Ops.DropUser, Of;
  }

  lemma MemberGone(db: Db, tenant: Id, id: Id)
    ensures var db0 := Ops.SetAssignments(db, id, tenant, {});
            var db1 := db0.(memberships := db0.memberships - {Member(id, tenant)});
            var db2 := if exists m :: m in db1.memberships && m.user == id then db1 else Ops.DropUser(db1, id);
            var last := forall m :: m in db.memberships && m.user == id ==> m.tenant == tenant;
            && db2 == db.(users := db2.users, memberships := db.memberships - {Member(id, tenant)}, assignments := db2.assignments)
            && db2.users == (if last then db.users - {id} else db.users)
            && (forall a :: a in db2.assignments <==> a in db.assignments && !Of(a, id, tenant) && !(last && a.user == id))
  {
    var left := db.memberships - {Member(id, tenant)};
    var last := forall m :: m in db.memberships && m.user == id ==> m.tenant == tenant;
    assert last <==> forall m :: m in left ==> m.user != id;
    if last { assert left == map m | m in left && m.user != id :: left[m]; }
  }

  /** Removing a tenant switches it off, or deletes it with every row that names it or one of its roles. */
  lemma RemoveTenantRows(s: Sys, id: Id, hard: bool)
    requires Good(s)
    ensures var o := Ops.RemoveTenant(s, id, hard);
            var db := o.sys.db;
            && o.error == (if id in s.db.tenants && (hard || s.db.tenants[id].active) then None else Some(Ops.NotFound))
            && (o.error.Some? ==> o.sys == s)
            && (o.error.None? && !hard ==> db == s.db.(tenants := s.db.tenants[id := Tenant(s.db.tenants[id].slug, false)]))
            && (o.error.None? && hard ==>
                  && db.users == s.db.users && db.permissions == s.db.permissions && db.tenants == s.db.tenants - {id}
                  && (forall m :: m in db.memberships <==> m in s.db.memberships && m.tenant != id)
                  && (forall r :: r in db.roles <==> r in s.db.roles && s.db.roles[r].tenant != Some(id))
                  && (forall b :: b in db.bindings <==> b in s.db.bindings && s.db.roles[b.role].tenant != Some(id))
                  && (forall a :: a in db.assignments <==> a in s.db.assignments && a.tenant != id)
                  && (forall m :: m in db.memberships ==> db.memberships[m] == s.db.memberships[m])
                  && (forall r :: r in db.roles ==> db.roles[r] == s.db.roles[r])
                  && (forall b :: b in db.bindings ==> db.bindings[b] == s.db.bindings[b]))
  {
  }
}
