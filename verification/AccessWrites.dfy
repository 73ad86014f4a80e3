/** What each row change keeps of the tables' soundness, and whose view it leaves alone. */
module AccessWrites {
  import opened Common
  import opened AccessModel
  import opened AccessOps

  predicate HasRole(db: Db, role: Id, tenant: Id) { role in db.roles && InScope(db.roles[role], tenant) }

  predicate NoPlatform(db: Db, ids: set<Id>) {
    forall p :: p in ids && p in db.permissions ==> db.permissions[p].code !in PLATFORM_PERMISSIONS
  }

  lemma BindingsWf(db: Db, role: Id, ids: set<Id>, on: set<Id>)
    requires WfDb(db) && role in db.roles && ids <= db.permissions.Keys
    requires IsSystemAdminRole(db.roles[role]) || NoPlatform(db, on)
    ensures WfDb(SetBindings(db, role, ids, on))
  {
  }

  /** Adding, changing or dropping a custom role of one tenant. */
  lemma AddRoleWf(db: Db, id: Id, tenant: Id, code: string)
    requires WfDb(db) && id !in db.roles && tenant in db.tenants && code !in RESERVED
    ensures WfDb(db.(roles := db.roles[id := Role(Some(tenant), code, false, true)]))
  {
  }

  lemma ChangeRoleWf(db: Db, id: Id, code: string, enabled: bool)
    requires WfDb(db) && id in db.roles && db.roles[id].tenant.Some? && code !in RESERVED
    ensures WfDb(db.(roles := db.roles[id := db.roles[id].(code := code, enabled := enabled)]))
  {
  }

  lemma DropRoleWf(db: Db, id: Id)
    requires WfDb(db)
    ensures WfDb(DropRole(db, id))
  {
  }

  lemma AssignWf(db: Db, user: Id, tenant: Id, roles: set<Id>)
    requires WfDb(db) && user in db.users && tenant in db.tenants
    requires forall r :: r in roles ==> HasRole(db, r, tenant)
    ensures WfDb(SetAssignments(db, user, tenant, roles))
  {
  }

  lemma DropUserWf(db: Db, user: Id)
    requires WfDb(db)
    ensures WfDb(DropUser(db, user))
  {
  }

  lemma EnrollWf(db: Db, user: Id, row: User, tenant: Id, roles: set<Id>)
    requires WfDb(db) && tenant in db.tenants
    requires forall r :: r in roles ==> HasRole(db, r, tenant)
    ensures WfDb(Enroll(db, user, row, tenant, roles))
  {
  }

  /** Changing flags of existing memberships, users and tenants, or adding users and tenants. */
  lemma FlagsWf(db: Db, db': Db)
    requires WfDb(db) && db' == db.(users := db'.users, tenants := db'.tenants, memberships := db'.memberships)
    requires db.users.Keys <= db'.users.Keys && db.tenants.Keys <= db'.tenants.Keys
    requires db'.memberships.Keys <= db.memberships.Keys
    ensures WfDb(db')
  {
  }

  lemma DropTenantWf(db: Db, tenant: Id)
    requires WfDb(db)
    ensures WfDb(DropTenant(db, tenant))
  {
  }

  // ---------------------------------------------------------------- whose view changes

  /** The two tables differ at most in one role of the tenant `owner`, its bindings and assignments. */
  ghost predicate OnlyRole(db: Db, db': Db, id: Id, owner: Id) {
    && db.users == db'.users && db.tenants == db'.tenants && db.memberships == db'.memberships
    && db.permissions == db'.permissions
    && (id in db.roles ==> db.roles[id].tenant == Some(owner))
    && (id in db'.roles ==> db'.roles[id].tenant == Some(owner))
    && (forall r :: r != id ==> (r in db.roles <==> r in db'.roles))
    && (forall r :: r != id && r in db.roles && r in db'.roles ==> db.roles[r] == db'.roles[r])
    && (forall b: Binding :: b.role != id ==> (b in db.bindings <==> b in db'.bindings))
    && (forall b: Binding :: b.role != id && b in db.bindings && b in db'.bindings ==> db.bindings[b] == db'.bindings[b])
    && (forall a: Assignment :: a.role != id ==> (a in db.assignments <==> a in db'.assignments))
  }

  /** A custom role only matters inside its own tenant. */
  lemma ForeignRoleView(db: Db, db': Db, id: Id, owner: Id, user: Id, tenant: Id)
    requires OnlyRole(db, db', id, owner) && tenant != owner
    ensures LooseView(db, user, tenant) == LooseView(db', user, tenant)
  {
    assert id !in Assigned(db, user, tenant) && id !in Assigned(db', user, tenant);
    forall r | r in Assigned(db, user, tenant) ensures r in Assigned(db', user, tenant) {
      assert Assignment(user, tenant, r) in db'.assignments;
    }
    forall r | r in Assigned(db', user, tenant) ensures r in Assigned(db, user, tenant) {
      assert Assignment(user, tenant, r) in db.assignments;
    }
    ViewFrame(db, db', user, tenant);
  }

  /** With roles, bindings and permissions untouched, only the own membership and assignments count. */
  lemma SameAssignmentsView(db: Db, db': Db, user: Id, tenant: Id)
    requires db.roles == db'.roles && db.bindings == db'.bindings && db.permissions == db'.permissions
    requires Belongs(db, user, tenant) == Belongs(db', user, tenant)
    requires forall r :: Assignment(user, tenant, r) in db.assignments <==> Assignment(user, tenant, r) in db'.assignments
    ensures LooseView(db, user, tenant) == LooseView(db', user, tenant)
  {
    forall r | r in Assigned(db, user, tenant) ensures r in Assigned(db', user, tenant) {
      assert Assignment(user, tenant, r) in db'.assignments;
    }
    forall r | r in Assigned(db', user, tenant) ensures r in Assigned(db, user, tenant) {
      assert Assignment(user, tenant, r) in db.assignments;
    }
    ViewFrame(db, db', user, tenant);
  }

  lemma DropTenantView(db: Db, gone: Id, user: Id, tenant: Id)
    requires tenant != gone
    ensures LooseView(db, user, tenant) == LooseView(DropTenant(db, gone), user, tenant)
  {
    var db' := DropTenant(db, gone);
    assert Belongs(db, user, tenant) == Belongs(db', user, tenant);
    forall r | r in Assigned(db, user, tenant) ensures r in Assigned(db', user, tenant) {
      assert Assignment(user, tenant, r) in db'.assignments;
    }
    forall r | r in Assigned(db', user, tenant) ensures r in Assigned(db, user, tenant) {
      assert Assignment(user, tenant, r) in db.assignments;
    }
    ViewFrame(db, db', user, tenant);
  }
}
