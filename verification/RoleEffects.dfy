/** What creating, changing and removing a custom role does: to the rows, and to what people may do. */
module RoleEffects {
  import opened Common
  import opened AccessModel
  import opened AccessWrites
  import opened AccessCoherence
  import Ops = AccessOps

  /** When one custom role changes, members of its tenant keep their other roles, and get what the roles they
      now have give; everybody else's access stays. */
  lemma CustomRoleViews(db: Db, db': Db, id: Id, owner: Id, user: Id, tenant: Id)
    requires OnlyRole(db, db', id, owner)
    ensures tenant != owner ==> View(db', user, tenant) == View(db, user, tenant)
    ensures Assigned(db', user, owner) - {id} == Assigned(db, user, owner) - {id}
    ensures id in Assigned(db', user, owner) <==>
            Assignment(user, owner, id) in db'.assignments && id in db'.roles && db'.roles[id].enabled
    ensures View(db', user, owner).Some? <==> View(db, user, owner).Some?
    ensures HoldsSystemAdmin(db', user, owner) <==> HoldsSystemAdmin(db, user, owner)
  {
    if tenant != owner { ForeignRoleView(db, db', id, owner, user, tenant); }
    forall r | r != id ensures r in Assigned(db', user, owner) <==> r in Assigned(db, user, owner) {
      assert Assignment(user, owner, r) in db.assignments <==> Assignment(user, owner, r) in db'.assignments;
    }
  }

  /** What a member of the tenant has then: what the other roles give, and what this one gives if it counts. */
  lemma CustomRoleAccess(db: Db, db': Db, id: Id, owner: Id, user: Id)
    requires OnlyRole(db, db', id, owner)
    ensures var others := Assigned(db, user, owner) - {id};
            var now := if id in Assigned(db', user, owner) then {id} else {};
            && Assigned(db', user, owner) == others + now
            && AccessOf(db', user, owner).roles == RoleCodes(db, others) + RoleCodes(db', now)
            && AccessOf(db', user, owner).permissions ==
               if HoldsSystemAdmin(db, user, owner) then EnabledCodes(db) else GrantedCodes(db, others) + GrantedCodes(db', now)
  {
    CustomRoleViews(db, db', id, owner, user, owner);
    var others := Assigned(db, user, owner) - {id};
    var now := if id in Assigned(db', user, owner) then {id} else {};
    assert Assigned(db', user, owner) == others + now;
    OtherCodes(db, db', id, owner, others, now);
    assert EnabledCodes(db') == EnabledCodes(db);
  }

  lemma OtherCodes(db: Db, db': Db, id: Id, owner: Id, others: set<Id>, now: set<Id>)
    requires OnlyRole(db, db', id, owner) && id !in others
    ensures GrantedCodes(db', others + now) == GrantedCodes(db, others) + GrantedCodes(db', now)
    ensures RoleCodes(db', others + now) == RoleCodes(db, others) + RoleCodes(db', now)
  {
  }

  /** An accepted change gives the role the code and flag asked for, and keeps what was not; no other row
      changes. The first reason against it, in the order of the checks, decides otherwise. */
  lemma UpdateRoleRows(s: Sys, tenant: Id, id: Id, code: Option<string>, enabled: Option<bool>)
    ensures var o := Ops.UpdateRole(s, tenant, id, code, enabled);
            var taken := code.Some? && exists r :: r in s.db.roles && r != id && s.db.roles[r].tenant == Some(tenant) &&
                                                   s.db.roles[r].code == code.value;
            && o.error == (if !(id in s.db.roles && InScope(s.db.roles[id], tenant)) then Some(Ops.NotFound)
                           else if s.db.roles[id].builtIn || s.db.roles[id].tenant.None? then Some(Ops.Forbidden)
                           else if code.Some? && code.value in RESERVED then Some(Ops.Conflict)
                           else if taken then Some(Ops.Rejected)
                           else None)
            && (o.error.Some? ==> o.sys == s)
    ensures var o := Ops.UpdateRole(s, tenant, id, code, enabled);
            o.error.None? ==>
              && o.sys.db == s.db.(roles := o.sys.db.roles) && o.sys.db.roles.Keys == s.db.roles.Keys
              && (forall r :: r in s.db.roles && r != id ==> o.sys.db.roles[r] == s.db.roles[r])
              && o.sys.db.roles[id].tenant == Some(tenant) && !o.sys.db.roles[id].builtIn
              && o.sys.db.roles[id].code == (match code case Some(c) => c case None => s.db.roles[id].code)
              && o.sys.db.roles[id].enabled == (match enabled case Some(e) => e case None => s.db.roles[id].enabled)
  {
    var o := Ops.UpdateRole(s, tenant, id, code, enabled);
    if id in s.db.roles && s.db.roles[id].tenant == Some(tenant) && code.Some? {
      assert Ops.CodeTaken(s.db, tenant, code.value, Some(id)) <==>
             exists r :: r in s.db.roles && r != id && s.db.roles[r].tenant == Some(tenant) && s.db.roles[r].code == code.value;
    }
  }

  lemma ChangedRole(db: Db, id: Id, owner: Id, row: Role, user: Id, t: Id)
    requires id in db.roles && db.roles[id].tenant == Some(owner) == row.tenant
    ensures var db' := db.(roles := db.roles[id := row]);
            var others := Assigned(db, user, owner) - {id};
            var counts := Assignment(user, owner, id) in db.assignments && row.enabled;
            && (t != owner ==> View(db', user, t) == View(db, user, t))
            && (View(db', user, owner).Some? <==> View(db, user, owner).Some?)
            && Assigned(db', user, owner) == others + (if counts then {id} else {})
            && AccessOf(db', user, owner).roles == RoleCodes(db, others) + (if counts then {row.code} else {})
            && AccessOf(db', user, owner).permissions ==
               if HoldsSystemAdmin(db, user, owner) then EnabledCodes(db)
               else GrantedCodes(db, others) + if counts then GrantedCodes(db, {id}) else {}
  {
    var db' := db.(roles := db.roles[id := row]);
    assert OnlyRole(db, db', id, owner);
    hide OnlyRole, Assigned, AccessOf, HoldsSystemAdmin;
    CustomRoleViews(db, db', id, owner, user, t);
    CustomRoleAccess(db, db', id, owner, user);
    assert RoleCodes(db', {id}) == {row.code} && RoleCodes(db', {}) == {};
    assert GrantedCodes(db', {id}) == GrantedCodes(db, {id}) && GrantedCodes(db', {}) == {};
  }

  /** Switched off, a role counts for nobody: its holders are left with what their other roles give. Switched
      on, it gives its holders its code and permissions again. Other tenants notice nothing. */
  lemma UpdateRoleEffect(s: Sys, tenant: Id, id: Id, code: Option<string>, enabled: Option<bool>, user: Id, t: Id)
    requires Ops.UpdateRole(s, tenant, id, code, enabled).error.None?
    ensures var db := Ops.UpdateRole(s, tenant, id, code, enabled).sys.db;
            var others := Assigned(s.db, user, tenant) - {id};
            var counts := Assignment(user, tenant, id) in s.db.assignments && id in db.roles && db.roles[id].enabled;
            && (t != tenant ==> View(db, user, t) == View(s.db, user, t))
            && (View(db, user, tenant).Some? <==> View(s.db, user, tenant).Some?)
            && Assigned(db, user, tenant) == others + (if counts then {id} else {})
            && var a := AccessOf(db, user, tenant);
               && a.roles == RoleCodes(s.db, others) + (if counts then {db.roles[id].code} else {})
               && a.permissions == (if HoldsSystemAdmin(s.db, user, tenant) then EnabledCodes(s.db)
                                    else GrantedCodes(s.db, others) + (if counts then GrantedCodes(s.db, {id}) else {}))
  {
    UpdateRoleRows(s, tenant, id, code, enabled);
    var db := Ops.UpdateRole(s, tenant, id, code, enabled).sys.db;
    hide Ops.UpdateRole, AccessOf, Assigned, View, HoldsSystemAdmin, RoleCodes, GrantedCodes;
    assert db.roles == s.db.roles[id := db.roles[id]];
    ChangedRole(s.db, id, tenant, db.roles[id], user, t);
  }

  /** Removed, a role is gone with its switches and assignments, and nothing else is. */
  lemma RemoveRoleEffect(s: Sys, tenant: Id, id: Id, user: Id, t: Id)
    requires Good(s)
    ensures Ops.RemoveRole(s, tenant, id).error ==
            (if !(id in s.db.roles && InScope(s.db.roles[id], tenant)) then Some(Ops.NotFound)
             else if s.db.roles[id].builtIn || s.db.roles[id].tenant.None? then Some(Ops.Forbidden)
             else None)
    ensures Ops.RemoveRole(s, tenant, id).error.None? ==>
              var db := Ops.RemoveRole(s, tenant, id).sys.db;
              var others := Assigned(s.db, user, tenant) - {id};
              && OnlyRole(s.db, db, id, tenant) && id !in db.roles
              && (forall b: Binding :: b.role == id ==> b !in db.bindings)
              && (forall a: Assignment :: a.role == id ==> a !in db.assignments)
              && (t != tenant ==> View(db, user, t) == View(s.db, user, t))
              && (View(db, user, tenant).Some? <==> View(s.db, user, tenant).Some?)
              && AccessOf(db, user, tenant) ==
                 UserAccess(RoleCodes(s.db, others),
                            if HoldsSystemAdmin(s.db, user, tenant) then EnabledCodes(s.db) else GrantedCodes(s.db, others))
  {
    if Ops.RemoveRole(s, tenant, id).error.None? {
      var db := Ops.RemoveRole(s, tenant, id).sys.db;
      assert OnlyRole(s.db, db, id, tenant);
      hide Good, Ops.RemoveRole, OnlyRole, AccessOf, HoldsSystemAdmin;
      CustomRoleViews(s.db, db, id, tenant, user, t);
      CustomRoleAccess(s.db, db, id, tenant, user);
      assert RoleCodes(db, {}) == {} && GrantedCodes(db, {}) == {};
    }
  }

  lemma AddedRole(db: Db, id: Id, row: Role, ids: set<Id>, owner: Id, user: Id, t: Id)
    requires References(db) && id !in db.roles && row.tenant == Some(owner)
    ensures var db' := Ops.SetBindings(db.(roles := db.roles[id := row]), id, ids, ids);
            && OnlyRole(db, db', id, owner) && id in db'.roles && db'.roles[id] == row
            && (forall p :: Binding(id, p) in db'.bindings <==> p in ids)
            && (forall p :: p in ids ==> db'.bindings[Binding(id, p)])
            && View(db', user, t) == View(db, user, t)
  {
    var added := db.(roles := db.roles[id := row]);
    var db' := Ops.SetBindings(added, id, ids, ids);
    assert OnlyRole(db, added, id, owner);
    SetBindingsOnly(db, added, id, ids, ids, owner);
    assert forall u :: Assignment(u, owner, id) !in db'.assignments;
    NobodysRole(db, db', id, owner, user, t);
  }

  lemma NobodysRole(db: Db, db': Db, id: Id, owner: Id, user: Id, t: Id)
    requires OnlyRole(db, db', id, owner) && db'.assignments == db.assignments
    requires Assignment(user, owner, id) !in db.assignments
    ensures View(db', user, t) == View(db, user, t)
  {
    CustomRoleViews(db, db', id, owner, user, t);
    if t == owner {
      assert id !in Assigned(db, user, t) && id !in Assigned(db', user, t);
      assert Assigned(db, user, t) - {id} == Assigned(db, user, t) && Assigned(db', user, t) - {id} == Assigned(db', user, t);
      hide View, LooseView, AccessOf, GrantedCodes, RoleCodes;
      ViewFrame(db, db', user, t);
      LooseIsView(db, db', user, t);
    }
  }

  lemma LooseIsView(db: Db, db': Db, user: Id, t: Id)
    requires db'.tenants == db.tenants && LooseView(db', user, t) == LooseView(db, user, t)
    ensures View(db', user, t) == View(db, user, t)
  {
    hide AccessOf;
  }

  /** A new role has the code and switches asked for, belongs to nobody yet, and changes no one's access. */
  lemma CreateRoleEffect(s: Sys, tenant: Id, actor: Id, code: string, permissions: seq<Id>, newId: Id, user: Id, t: Id)
    requires Good(s) && newId !in s.issued && Ops.CreateRole(s, tenant, actor, code, permissions, newId).error.None?
    ensures var db := Ops.CreateRole(s, tenant, actor, code, permissions, newId).sys.db;
            && OnlyRole(s.db, db, newId, tenant) && newId in db.roles && db.roles[newId] == Role(Some(tenant), code, false, true)
            && (forall p :: Binding(newId, p) in db.bindings <==> p in permissions)
            && (forall p :: p in permissions ==> Binding(newId, p) in db.bindings && db.bindings[Binding(newId, p)])
            && View(db, user, t) == View(s.db, user, t)
  {
    var ids := Ops.SetFrom(permissions);
    hide OnlyRole, Ops.SetBindings, View, Ops.EnableError, Ops.AllEnabled, Ops.CodesOf, Ops.CodeTaken, Ops.Distinct,
      Coherent, CodesReserved,
      Confined, CodesUnique, AssignmentsScoped, CacheConfined;
    AddedRole(s.db, newId, Role(Some(tenant), code, false, true), ids, tenant, user, t);
  }
}
