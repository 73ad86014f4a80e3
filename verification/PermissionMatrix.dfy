/** The permission matrix, and the two ways of editing a role through it. */
module PermissionMatrix {
  import opened Common
  import opened AccessModel
  import opened AccessOps
  import opened AccessWrites
  import opened AccessCoherence
  import opened AccessVerdicts

  datatype Entry = Entry(granted: bool, configurable: bool)

  /** A binding that is switched on. */
  predicate Live(db: Db, b: Binding) { b in db.bindings && db.bindings[b] }

  predicate Granted(db: Db, role: Id, permission: Id) {
    (role in db.roles && IsSystemAdminRole(db.roles[role])) || Live(db, Binding(role, permission))
  }

  /** `isPermissionConfigurable`. */
  predicate Configurable(r: Role, code: string, granted: bool, actor: UserAccess) {
    if IsSystemAdminRole(r) then false
    else if r.tenant.None? && SYSTEM_ADMIN !in actor.roles then false
    else if granted then true
    else if code in PLATFORM_PERMISSIONS then false
    else SYSTEM_ADMIN in actor.roles || code in actor.permissions
  }

  /** `getPermissionMatrix`: an entry for every enabled permission. */
  function Matrix(s: Sys, tenant: Id, id: Id, actor: Id): (Sys, Result<map<Id, Entry>, Error>) {
    var found := FindScoped(s.db, tenant, id);
    if found.None? then (s, Err(NotFound))
    else
      var (s1, access) := GetUserAccess(s, actor, tenant);
      if access.None? then (s1, Err(Unauthorized))
      else
        (s1, Ok(map p | p in s.db.permissions && Enabled(s.db, p) ::
                  Entry(Granted(s.db, id, p),
                        Configurable(found.value, s.db.permissions[p].code, Granted(s.db, id, p), access.value))))
  }

  /** One binding after a write of flags. */
  lemma BindingAt(db: Db, id: Id, ids: set<Id>, on: set<Id>, b: Binding)
    ensures var after := SetBindings(db, id, ids, on).bindings;
            && (b in after <==> b in db.bindings || (b.role == id && b.permission in ids))
            && (b in after ==>
                 after[b] == if b.role == id && b.permission in ids then b.permission in on else db.bindings[b])
  {
  }

  /** An accepted bulk edit leaves a row for every enabled permission, on exactly for the selected ones; an
      accepted switch writes its one row. Other roles, other permissions and other tables stay. */
  lemma EditRows(s: Sys, tenant: Id, id: Id, selected: set<Id>, p: Id, on: bool, actor: Id, b: Binding)
    ensures var o := SetPermissions(s, tenant, id, selected, actor);
            var rows := o.sys.db.bindings;
            var touched := b.role == id && Enabled(s.db, b.permission);
            o.error.None? ==>
              && o.sys.db == s.db.(bindings := rows)
              && (b in rows <==> touched || b in s.db.bindings)
              && (b in rows ==> rows[b] == if touched then b.permission in selected else s.db.bindings[b])
    ensures var o := SetPermission(s, tenant, id, p, on, actor);
            var rows := o.sys.db.bindings;
            o.error.None? ==>
              && o.sys.db == s.db.(bindings := rows)
              && (b in rows <==> b == Binding(id, p) || b in s.db.bindings)
              && (b in rows ==> rows[b] == if b == Binding(id, p) then on else s.db.bindings[b])
  {
    BindingAt(s.db, id, EnabledIds(s.db), selected, b);
    BindingAt(s.db, id, {p}, if on then {p} else {}, b);
    hide SetBindings, EnableError, AllEnabled, CodesOf, TargetConfigurable;
    assert SetPermissions(s, tenant, id, selected, actor).error.None? ==>
             SetPermissions(s, tenant, id, selected, actor).sys.db == SetBindings(s.db, id, EnabledIds(s.db), selected);
  }

  /** An active member gets the matrix of any role in scope: an entry for every enabled permission and no
      other, which says whether the permission is granted. */
  lemma MatrixIsComplete(s: Sys, tenant: Id, id: Id, actor: Id, p: Id)
    requires Reachable(s) && Current(s, actor, tenant)
    ensures var m := Matrix(s, tenant, id, actor).1;
            if !(id in s.db.roles && InScope(s.db.roles[id], tenant)) then m == Err(NotFound)
            else if !ActiveMember(s.db, actor, tenant) then m == Err(Unauthorized)
            else
              && m.Ok?
              && (p in m.value <==> p in s.db.permissions && s.db.permissions[p].enabled)
              && (p in m.value ==>
                    (m.value[p].granted <==>
                     IsSystemAdminRole(s.db.roles[id]) ||
                     (Binding(id, p) in s.db.bindings && s.db.bindings[Binding(id, p)])))
  {
    ReachableIsGood(s);
    AnswerRows(s, actor, tenant);
    hide Reachable, Current, Good, ActiveMember, Configurable, GetUserAccess, CarriesRole, CarriesCode;
  }

  /** Pressing an entry's switch is carried out exactly when the entry said so, refused as forbidden
      otherwise; carried out, it flips that entry and nothing else. */
  lemma MatrixTellsTheTruth(s: Sys, tenant: Id, id: Id, actor: Id, p: Id)
    requires var (_, m) := Matrix(s, tenant, id, actor); m.Ok? && p in m.value
    ensures var (s1, m) := Matrix(s, tenant, id, actor);
            var e := m.value[p];
            var o := SetPermission(s1, tenant, id, p, !e.granted, actor);
            && (e.configurable <==> o.sys.db != s1.db)
            && (!e.configurable ==> o == Fail(s1, Forbidden))
            && (e.configurable ==> Granted(o.sys.db, id, p) == !e.granted)
            && (forall b: Binding :: b != Binding(id, p) ==> (Live(o.sys.db, b) <==> Live(s.db, b)))
            && o.sys.db.(bindings := map[]) == s.db.(bindings := map[])
  {
    var (s1, m) := Matrix(s, tenant, id, actor);
    var e := m.value[p];
    PressOutcome(s1, tenant, id, actor, p, GetUserAccess(s, actor, tenant).1.value);
    hide SetBindings, Matrix, SetPermission, Configurable;
    forall b: Binding { BindingAt(s.db, id, {p}, if e.granted then {} else {p}, b); }
    assert e.configurable ==> Live(s.db, Binding(id, p)) == e.granted;
  }

  lemma PressOutcome(s: Sys, tenant: Id, id: Id, actor: Id, p: Id, access: UserAccess)
    requires id in s.db.roles && InScope(s.db.roles[id], tenant) && Enabled(s.db, p)
    requires GetUserAccess(s, actor, tenant) == (s, Some(access))
    ensures var granted := Granted(s.db, id, p);
            var o := SetPermission(s, tenant, id, p, !granted, actor);
            if Configurable(s.db.roles[id], s.db.permissions[p].code, granted, access) then
              !IsSystemAdminRole(s.db.roles[id]) && o.sys.db == SetBindings(s.db, id, {p}, if granted then {} else {p})
            else o == Fail(s, Forbidden)
  {
  }

  // ---------------------------------------------------------------- bulk edits and single switches

  /** The state in which every switch towards `wanted` is accepted. */
  ghost predicate Supports(s: Sys, tenant: Id, id: Id, actor: Id, wanted: set<Id>) {
    && Good(s) && id in s.db.roles && InScope(s.db.roles[id], tenant) && !IsSystemAdminRole(s.db.roles[id])
    && AllEnabled(s.db, wanted) && NoPlatform(s.db, wanted)
    && View(s.db, actor, tenant).Some?
    && var a := AccessOf(s.db, actor, tenant);
       SYSTEM_ADMIN in a.roles || (s.db.roles[id].tenant.Some? && CodesOf(s.db, wanted) <= a.permissions)
  }

  lemma BulkSupports(s: Sys, tenant: Id, id: Id, selected: set<Id>, actor: Id)
    requires Good(s) && SetPermissions(s, tenant, id, selected, actor).error.None?
    ensures Supports(s, tenant, id, actor, selected)
    ensures SetPermissions(s, tenant, id, selected, actor).sys.db == EditAll(s, id, selected).db
  {
  }

  /** A switch towards `wanted` never costs the actor a code that is still wanted, not even when the
      actor holds the role being edited: codes are unique, so the lost binding was not wanted. */
  lemma SwitchKeepsAccess(db: Db, id: Id, p: Id, wanted: set<Id>, user: Id, tenant: Id)
    requires WfDb(db) && id in db.roles && !IsSystemAdminRole(db.roles[id])
    requires AllEnabled(db, wanted) && Enabled(db, p)
    ensures var db' := SetBindings(db, id, {p}, if p in wanted then {p} else {});
            && AccessOf(db', user, tenant).roles == AccessOf(db, user, tenant).roles
            && (CodesOf(db, wanted) <= AccessOf(db, user, tenant).permissions ==>
                  CodesOf(db', wanted) <= AccessOf(db', user, tenant).permissions)
  {
  }

  lemma SwitchSupported(s: Sys, tenant: Id, id: Id, p: Id, wanted: set<Id>, actor: Id)
    requires Supports(s, tenant, id, actor, wanted) && Enabled(s.db, p)
    ensures var o := SetPermission(s, tenant, id, p, p in wanted, actor);
            && o.error.None? && Supports(o.sys, tenant, id, actor, wanted)
            && o.sys.db == SetBindings(s.db, id, {p}, if p in wanted then {p} else {})
  {
    SwitchAccepted(s, tenant, id, p, wanted, actor);
    SwitchKeepsAccess(s.db, id, p, wanted, actor, tenant);
    SetPermissionKeeps(s, tenant, id, p, p in wanted, actor);
    var s' := SetPermission(s, tenant, id, p, p in wanted, actor).sys;
    hide SetPermission, Good, SetBindings, AccessOf;
    assert CodesOf(s'.db, wanted) == CodesOf(s.db, wanted);
  }

  lemma SwitchAccepted(s: Sys, tenant: Id, id: Id, p: Id, wanted: set<Id>, actor: Id)
    requires Supports(s, tenant, id, actor, wanted) && Enabled(s.db, p)
    ensures var o := SetPermission(s, tenant, id, p, p in wanted, actor);
            o.error.None? && o.sys.db == SetBindings(s.db, id, {p}, if p in wanted then {p} else {})
  {
    var a := AccessOf(s.db, actor, tenant);
    assert GetUserAccess(s, actor, tenant).1 == Some(a);
    assert CodesOf(s.db, {p}) == {s.db.permissions[p].code};
    assert p in wanted ==> s.db.permissions[p].code in CodesOf(s.db, wanted);
    hide SetBindings, CodesOf, Good, AccessOf;
    var (s1, target) := TargetConfigurable(s, tenant, id, actor);
    assert target == Ok(a);
    assert p in wanted ==> EnableError({s.db.permissions[p].code}, a).None?;
    var s2 := EditOne(s1, id, p, p in wanted);
    assert View(s2.db, actor, tenant).Some?;
    assert AfterEdit(s2, actor, tenant).error.None?;
  }

  /** Single switches in the given order, each set as `wanted` says, up to the first refusal. */
  function Switches(s: Sys, tenant: Id, id: Id, wanted: set<Id>, order: seq<Id>, actor: Id): Outcome
    decreases |order|
  {
    if order == [] then Done(s)
    else
      var o := SetPermission(s, tenant, id, order[0], order[0] in wanted, actor);
      if o.error.Some? then o else Switches(o.sys, tenant, id, wanted, order[1..], actor)
  }

  lemma {:induction false} SwitchesReach(s: Sys, tenant: Id, id: Id, wanted: set<Id>, order: seq<Id>, actor: Id)
    requires Supports(s, tenant, id, actor, wanted) && AllEnabled(s.db, SetFrom(order))
    ensures var o := Switches(s, tenant, id, wanted, order, actor);
            o.error.None? && Good(o.sys) && o.sys.db == SetBindings(s.db, id, SetFrom(order), wanted)
    decreases |order|
  {
    if order == [] {
      assert SetBindings(s.db, id, SetFrom(order), wanted) == s.db;
    } else {
      var p := order[0];
      assert p in SetFrom(order);
      SwitchSupported(s, tenant, id, p, wanted, actor);
      var s1 := SetPermission(s, tenant, id, p, p in wanted, actor).sys;
      assert AllEnabled(s1.db, SetFrom(order[1..])) by {
        assert forall q :: q in SetFrom(order[1..]) ==> q in SetFrom(order);
      }
      hide Supports, SetBindings, SetPermission, Good;
      SwitchesReach(s1, tenant, id, wanted, order[1..], actor);
      BindingsCompose(s.db, id, p, order, wanted);
    }
  }

  lemma BindingsCompose(db: Db, id: Id, p: Id, order: seq<Id>, wanted: set<Id>)
    requires order != [] && p == order[0]
    ensures var db1 := SetBindings(db, id, {p}, if p in wanted then {p} else {});
            SetBindings(db1, id, SetFrom(order[1..]), wanted) == SetBindings(db, id, SetFrom(order), wanted)
  {
    assert SetFrom(order) == {p} + SetFrom(order[1..]);
    TwoWrites(db, id, p, SetFrom(order[1..]), wanted);
  }

  lemma TwoWrites(db: Db, id: Id, p: Id, rest: set<Id>, wanted: set<Id>)
    ensures SetBindings(SetBindings(db, id, {p}, if p in wanted then {p} else {}), id, rest, wanted) ==
            SetBindings(db, id, {p} + rest, wanted)
  {
    hide SetBindings;
    var now := if p in wanted then {p} else {};
    var db1 := SetBindings(db, id, {p}, now);
    var two := SetBindings(db1, id, rest, wanted);
    var one := SetBindings(db, id, {p} + rest, wanted);
    forall b: Binding
      ensures b in two.bindings <==> b in one.bindings
      ensures b in two.bindings ==> two.bindings[b] == one.bindings[b]
    {
      BindingAt(db, id, {p}, now, b);
      BindingAt(db1, id, rest, wanted, b);
      BindingAt(db, id, {p} + rest, wanted, b);
    }
    assert two.bindings == one.bindings;
  }

  function EnabledIds(db: Db): set<Id> { set p | p in db.permissions && Enabled(db, p) }

  /** An accepted bulk edit grants exactly the selection; and any order of single switches that covers
      the difference is accepted step by step and leaves the same bindings on, so everybody's view is the
      same. */
  lemma BulkRefinesSwitches(s: Sys, tenant: Id, id: Id, selected: set<Id>, order: seq<Id>, actor: Id)
    requires Good(s) && SetPermissions(s, tenant, id, selected, actor).error.None?
    requires AllEnabled(s.db, SetFrom(order))
    requires forall p :: Enabled(s.db, p) && Granted(s.db, id, p) != (p in selected) ==> p in order
    ensures var bulk := SetPermissions(s, tenant, id, selected, actor).sys.db;
            var o := Switches(s, tenant, id, selected, order, actor);
            && (forall p :: Enabled(bulk, p) ==> (Granted(bulk, id, p) <==> p in selected))
            && o.error.None?
            && (forall b: Binding :: Live(o.sys.db, b) <==> Live(bulk, b))
            && (forall user, t :: View(o.sys.db, user, t) == View(bulk, user, t))
  {
    BulkSupports(s, tenant, id, selected, actor);
    SwitchesReach(s, tenant, id, selected, order, actor);
    var bulk := SetPermissions(s, tenant, id, selected, actor).sys.db;
    var one := Switches(s, tenant, id, selected, order, actor).sys.db;
    assert bulk == SetBindings(s.db, id, EnabledIds(s.db), selected);
    SameLive(s.db, id, selected, order);
    hide SetBindings, SetFrom, Good, SetPermissions, Switches, EditAll, CodesOf, AccessOf;
    forall p | Enabled(bulk, p) ensures Granted(bulk, id, p) <==> p in selected {
      BindingAt(s.db, id, EnabledIds(s.db), selected, Binding(id, p));
    }
    SameViews(one, bulk);
  }

  lemma SameViews(one: Db, bulk: Db)
    requires one == bulk.(bindings := one.bindings)
    requires forall b: Binding :: Live(one, b) <==> Live(bulk, b)
    ensures forall user, t :: View(one, user, t) == View(bulk, user, t)
  {
    forall user, t ensures View(one, user, t) == View(bulk, user, t) {
      assert Assigned(one, user, t) == Assigned(bulk, user, t);
      forall b: Binding ensures Grants(one, b) <==> Grants(bulk, b) {
        assert Live(one, b) <==> Live(bulk, b);
      }
      ViewFrame(one, bulk, user, t);
    }
  }

  lemma SameLive(db: Db, id: Id, selected: set<Id>, order: seq<Id>)
    requires id in db.roles && !IsSystemAdminRole(db.roles[id])
    requires AllEnabled(db, SetFrom(order))
    requires forall p :: Enabled(db, p) && Granted(db, id, p) != (p in selected) ==> p in order
    ensures var bulk := SetBindings(db, id, EnabledIds(db), selected);
            var one := SetBindings(db, id, SetFrom(order), selected);
            forall b: Binding :: Live(one, b) <==> Live(bulk, b)
  {
  }

  /** The rows themselves agree exactly when every enabled permission already had a row or was switched:
      the bulk edit writes a row that is off for the others. */
  lemma SameRowsExactlyWhen(s: Sys, tenant: Id, id: Id, selected: set<Id>, order: seq<Id>, actor: Id)
    requires Good(s) && SetPermissions(s, tenant, id, selected, actor).error.None?
    requires AllEnabled(s.db, SetFrom(order))
    requires forall p :: Enabled(s.db, p) && Granted(s.db, id, p) != (p in selected) ==> p in order
    ensures Switches(s, tenant, id, selected, order, actor).sys.db == SetPermissions(s, tenant, id, selected, actor).sys.db
            <==> forall p :: Enabled(s.db, p) ==> Binding(id, p) in s.db.bindings || p in order
  {
    BulkSupports(s, tenant, id, selected, actor);
    SwitchesReach(s, tenant, id, selected, order, actor);
    var bulk := SetPermissions(s, tenant, id, selected, actor).sys.db;
    var one := Switches(s, tenant, id, selected, order, actor).sys.db;
    assert bulk == SetBindings(s.db, id, EnabledIds(s.db), selected);
    SameLive(s.db, id, selected, order);
    SameRows(s.db, id, selected, order);
  }

  lemma SameRows(db: Db, id: Id, selected: set<Id>, order: seq<Id>)
    requires AllEnabled(db, SetFrom(order))
    requires var bulk := SetBindings(db, id, EnabledIds(db), selected);
             var one := SetBindings(db, id, SetFrom(order), selected);
             forall b: Binding :: Live(one, b) <==> Live(bulk, b)
    ensures SetBindings(db, id, SetFrom(order), selected) == SetBindings(db, id, EnabledIds(db), selected)
            <==> forall p :: Enabled(db, p) ==> Binding(id, p) in db.bindings || p in order
  {
    var bulk := SetBindings(db, id, EnabledIds(db), selected);
    var one := SetBindings(db, id, SetFrom(order), selected);
    assert bulk.(bindings := map[]) == one.(bindings := map[]);
    hide SetBindings;
    if forall p :: Enabled(db, p) ==> Binding(id, p) in db.bindings || p in order {
      forall b: Binding
        ensures b in one.bindings <==> b in bulk.bindings
        ensures b in one.bindings ==> one.bindings[b] == bulk.bindings[b]
      {
        BindingAt(db, id, EnabledIds(db), selected, b);
        BindingAt(db, id, SetFrom(order), selected, b);
        assert Live(one, b) <==> Live(bulk, b);
        if b.role == id { assert b == Binding(id, b.permission); }
      }
      assert one.bindings == bulk.bindings;
    } else {
      var p :| Enabled(db, p) && Binding(id, p) !in db.bindings && p !in order;
      BindingAt(db, id, EnabledIds(db), selected, Binding(id, p));
      BindingAt(db, id, SetFrom(order), selected, Binding(id, p));
    }
  }
}
