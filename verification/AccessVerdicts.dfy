/** When the operations say yes, and which refusal they answer otherwise, in terms of the rows and for every
    run. An answer is current unless a cached entry of an inactive or deleted tenant speaks. */
module AccessVerdicts {
  import opened Common
  import opened AccessModel
  import opened AccessCoherence
  import opened AccessRuns
  import opened AccessTheorems
  import opened AccessEffects
  import Ops = AccessOps

  /** Some run from an empty database leads here. */
  ghost predicate Reachable(s: Sys) { exists run :: ValidRun(EMPTY, run) && s == Run(EMPTY, run) }

  lemma ReachableIsGood(s: Sys)
    requires Reachable(s)
    ensures Good(s)
  {
    var run :| ValidRun(EMPTY, run) && s == Run(EMPTY, run);
    RunKeeps(EMPTY, run);
  }

  ghost predicate Current(s: Sys, user: Id, tenant: Id) {
    Member(user, tenant) in s.cache ==> tenant in s.db.tenants && s.db.tenants[tenant].active
  }

  /** An active member of an active tenant. */
  predicate ActiveMember(db: Db, user: Id, tenant: Id) {
    && Member(user, tenant) in db.memberships && db.memberships[Member(user, tenant)]
    && user in db.users && db.users[user].active && tenant in db.tenants && db.tenants[tenant].active
  }

  /** A role with this code counts for the user. */
  predicate CarriesRole(db: Db, user: Id, tenant: Id, code: string) {
    exists r :: r in db.roles && Carries(db, user, tenant, r) && db.roles[r].code == code
  }

  /** An enabled permission with this code is switched on for a role that counts for the user. */
  predicate CarriesCode(db: Db, user: Id, tenant: Id, code: string) {
    exists b ::
      b in db.bindings && SwitchesOn(db, b, code) && db.permissions[b.permission].enabled && Carries(db, user, tenant, b.role)
  }

  predicate SwitchesOn(db: Db, b: Binding, code: string) {
    b in db.bindings && db.bindings[b] && b.permission in db.permissions && db.permissions[b.permission].code == code
  }

  /** What a current answer says, row by row. */
  lemma AnswerRows(s: Sys, user: Id, tenant: Id)
    requires Good(s) && Current(s, user, tenant)
    ensures var answer := GetUserAccess(s, user, tenant).1;
            && (answer.Some? <==> ActiveMember(s.db, user, tenant))
            && (answer.Some? ==>
                  && (forall c :: c in answer.value.roles <==> CarriesRole(s.db, user, tenant, c))
                  && (SYSTEM_ADMIN !in answer.value.roles ==>
                        forall c :: c in answer.value.permissions <==> CarriesCode(s.db, user, tenant, c)))
  {
    var answer := GetUserAccess(s, user, tenant).1;
    assert answer == View(s.db, user, tenant);
    if answer.Some? {
      CodesTellAdmins(s.db, user, tenant);
      AccessRows(s.db, user, tenant);
    }
  }

  lemma AccessRows(db: Db, user: Id, tenant: Id)
    ensures var a := AccessOf(db, user, tenant);
            && (forall c :: c in a.roles <==> CarriesRole(db, user, tenant, c))
            && (!HoldsSystemAdmin(db, user, tenant) ==> forall c :: c in a.permissions <==> CarriesCode(db, user, tenant, c))
  {
    var a := AccessOf(db, user, tenant);
    forall r ensures r in Assigned(db, user, tenant) <==> Carries(db, user, tenant, r) {}
    forall c ensures c in a.roles <==> CarriesRole(db, user, tenant, c) {}
    if !HoldsSystemAdmin(db, user, tenant) {
      forall c ensures c in a.permissions <==> CarriesCode(db, user, tenant, c) {
        if c in a.permissions {
          var b :| b in db.bindings && b.role in Assigned(db, user, tenant) && Grants(db, b) &&
                   db.permissions[b.permission].code == c;
          assert SwitchesOn(db, b, c);
        }
      }
    }
  }

  // ---------------------------------------------------------------- the guards

  /** A request that needs one of some roles gets through exactly when its sender is an active member who
      carries one of them, or system_admin; strangers and members are refused differently. */
  lemma RolesGuardExactly(s: Sys, user: Id, tenant: Id, required: set<string>)
    requires Reachable(s) && Current(s, user, tenant)
    ensures required == {} ==> Ops.RolesGuard(s, user, tenant, required).error.None?
    ensures var error := Ops.RolesGuard(s, user, tenant, required).error;
            required != {} ==>
            && (error.None? <==>
                  && ActiveMember(s.db, user, tenant)
                  && exists c :: c in required + {SYSTEM_ADMIN} && CarriesRole(s.db, user, tenant, c))
            && (error == Some(Ops.Unauthorized) <==> !ActiveMember(s.db, user, tenant))
            && (error.Some? ==> error.value in {Ops.Unauthorized, Ops.Forbidden})
  {
    ReachableIsGood(s);
    AnswerRows(s, user, tenant);
    hide Good, ActiveMember, CarriesRole, Current;
    var answer := GetUserAccess(s, user, tenant).1;
    if answer.Some? {
      if required * answer.value.roles != {} {
        var c :| c in required * answer.value.roles;
      }
      if c :| c in required + {SYSTEM_ADMIN} && CarriesRole(s.db, user, tenant, c) {
        assert c in answer.value.roles;
        assert c in required ==> c in required * answer.value.roles;
      }
    }
  }

  /** A request that needs one of some permissions gets through exactly when its sender is an active member
      who carries system_admin, or a role for which one of them, enabled, is switched on. */
  lemma PermissionsGuardExactly(s: Sys, user: Id, tenant: Id, required: set<string>)
    requires Reachable(s) && Current(s, user, tenant)
    ensures required == {} ==> Ops.PermissionsGuard(s, user, tenant, required).error.None?
    ensures var error := Ops.PermissionsGuard(s, user, tenant, required).error;
            required != {} ==>
            && (error.None? <==>
                  && ActiveMember(s.db, user, tenant)
                  && (|| CarriesRole(s.db, user, tenant, SYSTEM_ADMIN)
                      || exists c :: c in required && CarriesCode(s.db, user, tenant, c)))
            && (error == Some(Ops.Unauthorized) <==> !ActiveMember(s.db, user, tenant))
            && (error.Some? ==> error.value in {Ops.Unauthorized, Ops.Forbidden})
  {
    ReachableIsGood(s);
    AnswerRows(s, user, tenant);
    hide Good, ActiveMember, CarriesRole, CarriesCode, Current;
    var answer := GetUserAccess(s, user, tenant).1;
    if answer.Some? && SYSTEM_ADMIN !in answer.value.roles {
      if required * answer.value.permissions != {} {
        var c :| c in required * answer.value.permissions;
      }
      if c :| c in required && CarriesCode(s.db, user, tenant, c) {
        assert c in required * answer.value.permissions;
      }
    }
  }

  // ---------------------------------------------------------------- assigning roles

  /** Enabled and in scope, and without a platform permission unless it is system_admin. */
  predicate Offered(db: Db, tenant: Id, r: Id) {
    && r in db.roles && db.roles[r].enabled && InScope(db.roles[r], tenant)
    && (db.roles[r].code != SYSTEM_ADMIN ==> forall b :: b in db.bindings && b.role == r ==> !SwitchesOnPlatform(db, b))
  }

  /** Nothing is switched on for the role that the actor does not carry. */
  predicate WithinReach(db: Db, actor: Id, tenant: Id, r: Id) {
    && r in db.roles && db.roles[r].code != SYSTEM_ADMIN
    && forall b :: b in db.bindings && b.role == r && db.bindings[b] && b.permission in db.permissions ==>
         CarriesCode(db, actor, tenant, db.permissions[b.permission].code)
  }

  predicate MayAssign(db: Db, actor: Id, tenant: Id, roles: set<Id>) {
    && (forall r :: r in roles ==> Offered(db, tenant, r))
    && ActiveMember(db, actor, tenant)
    && (CarriesRole(db, actor, tenant, SYSTEM_ADMIN) || forall r :: r in roles ==> WithinReach(db, actor, tenant, r))
  }

  lemma SwitchedOnRows(db: Db, r: Id, code: string)
    ensures code in Ops.SwitchedOn(db, r) <==> exists b :: b in db.bindings && b.role == r && SwitchesOn(db, b, code)
  {
    if code in Ops.SwitchedOn(db, r) {
      var b :| b in db.bindings && b.role == r && db.bindings[b] && b.permission in db.permissions &&
               db.permissions[b.permission].code == code;
      assert SwitchesOn(db, b, code);
    }
  }

  lemma PlatformRows(db: Db, r: Id)
    requires r in db.roles
    ensures (exists c :: c in Ops.SwitchedOn(db, r) && c in PLATFORM_PERMISSIONS) <==>
            (exists b :: b in db.bindings && b.role == r && SwitchesOnPlatform(db, b))
  {
    if c :| c in Ops.SwitchedOn(db, r) && c in PLATFORM_PERMISSIONS {
      var b :| b in db.bindings && b.role == r && db.bindings[b] && b.permission in db.permissions &&
               db.permissions[b.permission].code == c;
      assert SwitchesOnPlatform(db, b);
    }
    if b :| b in db.bindings && b.role == r && SwitchesOnPlatform(db, b) {
      assert db.permissions[b.permission].code in Ops.SwitchedOn(db, r);
    }
  }

  lemma ReachRows(db: Db, actor: Id, tenant: Id, r: Id, codes: set<string>)
    requires r in db.roles && forall c :: c in codes <==> CarriesCode(db, actor, tenant, c)
    ensures db.roles[r].code != SYSTEM_ADMIN && Ops.SwitchedOn(db, r) <= codes <==> WithinReach(db, actor, tenant, r)
  {
    hide CarriesCode;
    if WithinReach(db, actor, tenant, r) {
      forall c | c in Ops.SwitchedOn(db, r) ensures c in codes { SwitchedOnRows(db, r, c); }
    }
    if Ops.SwitchedOn(db, r) <= codes {
      forall b | b in db.bindings && b.role == r && db.bindings[b] && b.permission in db.permissions
        ensures CarriesCode(db, actor, tenant, db.permissions[b.permission].code)
      {
        assert db.permissions[b.permission].code in Ops.SwitchedOn(db, r);
      }
    }
  }

  lemma AssignableVerdict(s: Sys, actor: Id, tenant: Id, roles: set<Id>)
    requires Good(s) && Current(s, actor, tenant)
    ensures var error := Ops.RolesAssignable(s, actor, tenant, roles).error;
            var found := forall r :: r in roles ==> r in s.db.roles && s.db.roles[r].enabled && InScope(s.db.roles[r], tenant);
            var offered := forall r :: r in roles ==> Offered(s.db, tenant, r);
            && (error.None? <==> MayAssign(s.db, actor, tenant, roles))
            && (error == Some(Ops.NotFound) <==> !found)
            && (error == Some(Ops.Unauthorized) <==> offered && !ActiveMember(s.db, actor, tenant))
            && (error.Some? ==> error.value in {Ops.NotFound, Ops.Unauthorized, Ops.Forbidden})
  {
    AnswerRows(s, actor, tenant);
    forall r | r in roles && r in s.db.roles
      ensures (exists c :: c in Ops.SwitchedOn(s.db, r) && c in PLATFORM_PERMISSIONS) <==>
              (exists b :: b in s.db.bindings && b.role == r && SwitchesOnPlatform(s.db, b))
    {
      PlatformRows(s.db, r);
    }
    var answer := GetUserAccess(s, actor, tenant).1;
    if answer.Some? && SYSTEM_ADMIN !in answer.value.roles {
      forall r | r in roles && r in s.db.roles
        ensures s.db.roles[r].code != SYSTEM_ADMIN && Ops.SwitchedOn(s.db, r) <= answer.value.permissions <==>
                WithinReach(s.db, actor, tenant, r)
      {
        ReachRows(s.db, actor, tenant, r, answer.value.permissions);
      }
    }
    hide Good, ActiveMember, CarriesRole, CarriesCode, Current, WithinReach, Ops.SwitchedOn, GetUserAccess, SwitchesOnPlatform;
  }

  /** Exactly then roles may be assigned, after every run: all of them exist, enabled and in scope; none but
      system_admin has a platform permission switched on; and the actor is an active member who carries
      system_admin, or else none of them is system_admin and every code switched on in them is carried by
      the actor. */
  lemma AssignableExactly(s: Sys, actor: Id, tenant: Id, roles: set<Id>)
    requires Reachable(s) && Current(s, actor, tenant)
    ensures var error := Ops.RolesAssignable(s, actor, tenant, roles).error;
            var found := forall r :: r in roles ==> r in s.db.roles && s.db.roles[r].enabled && InScope(s.db.roles[r], tenant);
            && (error.None? <==> MayAssign(s.db, actor, tenant, roles))
            && (error == Some(Ops.NotFound) <==> !found)
            && (error == Some(Ops.Unauthorized) <==> found && !ActiveMember(s.db, actor, tenant))
            && (error.Some? ==> error.value in {Ops.NotFound, Ops.Unauthorized, Ops.Forbidden})
  {
    ReachableIsGood(s);
    AssignableVerdict(s, actor, tenant, roles);
    forall r | r in roles && r in s.db.roles && s.db.roles[r].enabled && InScope(s.db.roles[r], tenant)
      ensures Offered(s.db, tenant, r)
    {
      assert Confined(s.db);
    }
    hide Good, ActiveMember, CarriesRole, Current, WithinReach, Ops.RolesAssignable, Offered;
  }

  /** Even in tables that break the rule, which no run leads to, a role other than system_admin with a platform
      permission switched on is not assignable, whoever asks. */
  lemma TaintedRoleIsRefused(s: Sys, actor: Id, tenant: Id, roles: set<Id>, b: Binding)
    requires forall r :: r in roles ==> r in s.db.roles && s.db.roles[r].enabled && InScope(s.db.roles[r], tenant)
    requires b.role in roles && s.db.roles[b.role].code != SYSTEM_ADMIN && b in s.db.bindings && SwitchesOnPlatform(s.db, b)
    ensures Ops.RolesAssignable(s, actor, tenant, roles) == Ops.Fail(s, Ops.Forbidden)
  {
    assert s.db.permissions[b.permission].code in Ops.SwitchedOn(s.db, b.role);
  }

  /** The same decides about setting a member's roles. */
  lemma SetRolesExactly(s: Sys, tenant: Id, id: Id, roles: set<Id>, actor: Id)
    requires Reachable(s) && Current(s, actor, tenant)
    ensures Ops.SetRoles(s, tenant, id, roles, actor).error.None? <==>
            Ops.IsMember(s.db, id, tenant) && MayAssign(s.db, actor, tenant, roles)
    ensures Ops.SetRoles(s, tenant, id, roles, actor).error.Some? ==> Ops.SetRoles(s, tenant, id, roles, actor).sys.db == s.db
  {
    AssignableExactly(s, actor, tenant, roles);
    AssignableKeepsDb(s, actor, tenant, roles);
    hide Reachable, Current, Ops.RolesAssignable, MayAssign, Ops.SetAssignments;
  }

  /** Whoever carries roles may pass them on, unless a permission they switch on has been disabled. */
  lemma HoldersPassRolesOn(s: Sys, actor: Id, tenant: Id, roles: set<Id>)
    requires Reachable(s) && ActiveMember(s.db, actor, tenant)
    requires forall r :: r in roles ==> Carries(s.db, actor, tenant, r)
    requires forall b :: b in s.db.bindings && b.role in roles && s.db.bindings[b] ==> Enabled(s.db, b.permission)
    ensures Ops.RolesAssignable(s, actor, tenant, roles).error.None?
  {
    ReachableIsGood(s);
    AssignableExactly(s, actor, tenant, roles);
    forall r | r in roles && !CarriesRole(s.db, actor, tenant, SYSTEM_ADMIN)
      ensures WithinReach(s.db, actor, tenant, r)
    {
      forall b | b in s.db.bindings && b.role == r && s.db.bindings[b] && b.permission in s.db.permissions
        ensures CarriesCode(s.db, actor, tenant, s.db.permissions[b.permission].code)
      {
        assert SwitchesOn(s.db, b, s.db.permissions[b.permission].code);
      }
    }
    hide Ops.RolesAssignable, CarriesCode, WithinReach, CarriesRole;
    forall r | r in roles ensures Offered(s.db, tenant, r) { assert Confined(s.db); }
  }

  // ---------------------------------------------------------------- editing roles

  /** None of the permissions is a platform one, and the actor carries system_admin or all of them. */
  predicate MayEnable(db: Db, actor: Id, tenant: Id, ids: set<Id>) {
    && (forall p :: p in ids && p in db.permissions ==> db.permissions[p].code !in PLATFORM_PERMISSIONS)
    && (|| CarriesRole(db, actor, tenant, SYSTEM_ADMIN)
        || forall p :: p in ids && p in db.permissions ==> CarriesCode(db, actor, tenant, db.permissions[p].code))
  }

  lemma EnableVerdict(s: Sys, actor: Id, tenant: Id, ids: set<Id>)
    requires Good(s) && Current(s, actor, tenant) && GetUserAccess(s, actor, tenant).1.Some?
    ensures Ops.EnableError(Ops.CodesOf(s.db, ids), GetUserAccess(s, actor, tenant).1.value) ==
            if MayEnable(s.db, actor, tenant, ids) then None else Some(Ops.Forbidden)
  {
    AnswerRows(s, actor, tenant);
    hide Good, Current, ActiveMember, CarriesRole, CarriesCode, GetUserAccess;
    var answer := GetUserAccess(s, actor, tenant).1.value;
    assert forall p :: p in ids && p in s.db.permissions ==> s.db.permissions[p].code in Ops.CodesOf(s.db, ids);
  }

  /** The one reason a custom role is refused, or none, in the order of the checks. */
  lemma CreateRoleExactly(s: Sys, tenant: Id, actor: Id, code: string, permissions: seq<Id>, newId: Id)
    requires Reachable(s) && Current(s, actor, tenant)
    ensures var ids := Ops.SetFrom(permissions);
            var taken := exists r :: r in s.db.roles && s.db.roles[r].tenant == Some(tenant) && s.db.roles[r].code == code;
            Ops.CreateRole(s, tenant, actor, code, permissions, newId).error ==
            if code in RESERVED then Some(Ops.Conflict)
            else if !Ops.AllEnabled(s.db, ids) then Some(Ops.NotFound)
            else if !ActiveMember(s.db, actor, tenant) then Some(Ops.Unauthorized)
            else if !MayEnable(s.db, actor, tenant, ids) then Some(Ops.Forbidden)
            else if taken || !Ops.Distinct(permissions) then Some(Ops.Conflict)
            else None
    ensures Ops.CreateRole(s, tenant, actor, code, permissions, newId).error.Some? ==>
              Ops.CreateRole(s, tenant, actor, code, permissions, newId).sys.db == s.db
  {
    ReachableIsGood(s);
    AnswerRows(s, actor, tenant);
    SecondLookup(s, actor, tenant);
    if GetUserAccess(s, actor, tenant).1.Some? { EnableVerdict(s, actor, tenant, Ops.SetFrom(permissions)); }
    assert ActiveMember(s.db, actor, tenant) ==> tenant in s.db.tenants;
    hide Good, Reachable, Current, ActiveMember, GetUserAccess, MayEnable, Ops.EnableError, Ops.AllEnabled, Ops.Distinct,
      Ops.SetBindings, InvalidateTenant, Ops.SetFrom;
  }

  /** Why a role's switches may not be edited: it is out of scope, it is system_admin, the actor is no
      active member, or it is global and the actor does not carry system_admin. */
  function ConfigureRefusal(db: Db, actor: Id, tenant: Id, id: Id): Option<Ops.Error> {
    if !(id in db.roles && InScope(db.roles[id], tenant)) then Some(Ops.NotFound)
    else if IsSystemAdminRole(db.roles[id]) then Some(Ops.Forbidden)
    else if !ActiveMember(db, actor, tenant) then Some(Ops.Unauthorized)
    else if db.roles[id].tenant.None? && !CarriesRole(db, actor, tenant, SYSTEM_ADMIN) then Some(Ops.Forbidden)
    else None
  }

  /** An edit of all switches, and of one, is accepted exactly when the role may be configured and what is
      switched on may be enabled; an accepted edit never costs the actor the answer to it. */
  lemma EditsExactly(s: Sys, tenant: Id, id: Id, selected: set<Id>, p: Id, on: bool, actor: Id)
    requires Reachable(s) && Current(s, actor, tenant)
    ensures var refusal := ConfigureRefusal(s.db, actor, tenant, id);
            Ops.SetPermissions(s, tenant, id, selected, actor).error ==
            if refusal.Some? then refusal
            else if !Ops.AllEnabled(s.db, selected) then Some(Ops.NotFound)
            else if !MayEnable(s.db, actor, tenant, selected) then Some(Ops.Forbidden)
            else None
    ensures var refusal := ConfigureRefusal(s.db, actor, tenant, id);
            Ops.SetPermission(s, tenant, id, p, on, actor).error ==
            if refusal.Some? then refusal
            else if !Enabled(s.db, p) then Some(Ops.NotFound)
            else if on && !MayEnable(s.db, actor, tenant, {p}) then Some(Ops.Forbidden)
            else None
    ensures Ops.SetPermissions(s, tenant, id, selected, actor).error.Some? ==>
              Ops.SetPermissions(s, tenant, id, selected, actor).sys.db == s.db
    ensures Ops.SetPermission(s, tenant, id, p, on, actor).error.Some? ==>
              Ops.SetPermission(s, tenant, id, p, on, actor).sys.db == s.db
  {
    ReachableIsGood(s);
    TargetVerdict(s, tenant, id, actor);
    if GetUserAccess(s, actor, tenant).1.Some? {
      EnableVerdict(s, actor, tenant, selected);
      EnableVerdict(s, actor, tenant, {p});
      AfterEditAnswers(Ops.TargetConfigurable(s, tenant, id, actor).0, id, selected, p, on, actor, tenant);
    }
    hide Good, Reachable, Current, ActiveMember, GetUserAccess, MayEnable, ConfigureRefusal, Ops.EnableError, Ops.AllEnabled,
      Ops.TargetConfigurable, Ops.EditAll, Ops.EditOne, Ops.AfterEdit, Ops.CodesOf, Enabled;
  }

  lemma TargetVerdict(s: Sys, tenant: Id, id: Id, actor: Id)
    requires Good(s) && Current(s, actor, tenant)
    ensures var (s1, target) := Ops.TargetConfigurable(s, tenant, id, actor);
            var refusal := ConfigureRefusal(s.db, actor, tenant, id);
            && s1.db == s.db
            && (if refusal.Some? then target == Err(refusal.value)
                else target.Ok? && GetUserAccess(s, actor, tenant) == (s1, Some(target.value)))
    ensures GetUserAccess(s, actor, tenant).1.Some? <==> ActiveMember(s.db, actor, tenant)
  {
    AnswerRows(s, actor, tenant);
    hide Good, Current, ActiveMember, CarriesRole;
  }

  lemma AfterEditAnswers(s: Sys, id: Id, selected: set<Id>, p: Id, on: bool, actor: Id, tenant: Id)
    requires View(s.db, actor, tenant).Some?
    ensures Ops.AfterEdit(Ops.EditAll(s, id, selected), actor, tenant).error.None?
    ensures Ops.AfterEdit(Ops.EditOne(s, id, p, on), actor, tenant).error.None?
  {
    hide Ops.EditAll, Ops.EditOne, AccessOf;
  }

  /** Only a stale answer can be refused after it was acted on: an edit whose checks pass is written, and is
      then answered as unauthorized exactly when the actor's cached entry was about a tenant no longer active. */
  lemma StaleEditIsWritten(s: Sys, tenant: Id, id: Id, selected: set<Id>, actor: Id)
    requires Reachable(s) && Ops.AllEnabled(s.db, selected)
    requires var target := Ops.TargetConfigurable(s, tenant, id, actor).1;
             target.Ok? && Ops.EnableError(Ops.CodesOf(s.db, selected), target.value).None?
    ensures var o := Ops.SetPermissions(s, tenant, id, selected, actor);
            && o.sys.db == Ops.EditAll(s, id, selected).db
            && o.error == if Current(s, actor, tenant) then None else Some(Ops.Unauthorized)
  {
    ReachableIsGood(s);
    var s1 := Ops.TargetConfigurable(s, tenant, id, actor).0;
    EditForgets(s1, id, selected, actor, tenant);
    assert View(s.db, actor, tenant).Some? <==> Current(s, actor, tenant);
    hide Good, Reachable, Current, View, Ops.EditAll, Ops.EnableError, Ops.AllEnabled, Ops.CodesOf, Ops.AfterEdit;
    assert Ops.EditAll(s1, id, selected).db == Ops.EditAll(s, id, selected).db by { EditAllRows(s, s1, id, selected); }
  }

  lemma EditAllRows(s: Sys, s1: Sys, id: Id, selected: set<Id>)
    requires s.db == s1.db
    ensures Ops.EditAll(s, id, selected).db == Ops.EditAll(s1, id, selected).db
  {
    hide Ops.SetBindings;
  }

  lemma EditForgets(s: Sys, id: Id, selected: set<Id>, actor: Id, tenant: Id)
    requires id in s.db.roles && InScope(s.db.roles[id], tenant)
    ensures Ops.AfterEdit(Ops.EditAll(s, id, selected), actor, tenant).error ==
            if View(s.db, actor, tenant).Some? then None else Some(Ops.Unauthorized)
  {
    hide AccessOf, Ops.SetBindings;
  }

  // ---------------------------------------------------------------- accounts and tenants

  /** The one reason an account is not enrolled, or none. */
  lemma CreateUserExactly(s: Sys, tenant: Id, actor: Id, email: string, roles: set<Id>, existing: Option<Id>,
                          memberRole: Option<Id>, newId: Id)
    requires Reachable(s) && (roles != {} ==> Current(s, actor, tenant))
    requires Legit(s, CreateUser(tenant, actor, email, roles, existing, memberRole, newId))
    ensures var id := if existing.Some? then existing.value else newId;
            var granted := if roles != {} then roles else if memberRole.Some? then {memberRole.value} else {};
            var repeated := exists r :: r in granted && Assignment(id, tenant, r) in s.db.assignments;
            Ops.CreateUser(s, tenant, actor, email, roles, existing, memberRole, newId).error ==
            if roles != {} && !MayAssign(s.db, actor, tenant, roles) then Ops.RolesAssignable(s, actor, tenant, roles).error
            else if Member(id, tenant) in s.db.memberships then Some(Ops.Conflict)
            else if tenant !in s.db.tenants then Some(Ops.Rejected)
            else if granted == {} then Some(Ops.NotFound)
            else if repeated then Some(Ops.Conflict)
            else None
    ensures var o := Ops.CreateUser(s, tenant, actor, email, roles, existing, memberRole, newId);
            o.error.Some? ==> o.sys.db == s.db
  {
    if roles != {} { AssignableExactly(s, actor, tenant, roles); }
    AssignableKeepsDb(s, actor, tenant, roles);
    hide Reachable, Current, Ops.RolesAssignable, MayAssign, Ops.Enroll;
  }

  lemma AssignableKeepsDb(s: Sys, actor: Id, tenant: Id, roles: set<Id>)
    ensures Ops.RolesAssignable(s, actor, tenant, roles).sys.db == s.db
  {
    hide View, Ops.SwitchedOn;
  }

  /** Only an active member of the token's tenant who carries system_admin there founds a tenant, if the slug
      is free. */
  lemma RequestTenantExactly(s: Sys, within: Id, slug: string, creator: Id, systemRole: Option<Id>, newId: Id)
    requires Reachable(s) && Current(s, creator, within)
    ensures Ops.RequestTenant(s, within, slug, creator, systemRole, newId).error ==
            if !ActiveMember(s.db, creator, within) then Some(Ops.Unauthorized)
            else if !CarriesRole(s.db, creator, within, SYSTEM_ADMIN) then Some(Ops.Forbidden)
            else if exists t :: t in s.db.tenants && s.db.tenants[t].slug == slug then Some(Ops.Conflict)
            else if systemRole.None? then Some(Ops.NotFound)
            else None
  {
    ReachableIsGood(s);
    AnswerRows(s, creator, within);
    var answer := GetUserAccess(s, creator, within).1;
    if answer.Some? && SYSTEM_ADMIN !in answer.value.roles { assert {SYSTEM_ADMIN} * answer.value.roles == {}; }
    assert ActiveMember(s.db, creator, within) ==> creator in s.db.users;
    SecondLookup(s, creator, within);
    hide Good, Reachable, Current, ActiveMember, CarriesRole, GetUserAccess, Ops.Enroll;
  }

  /** An answer given stays the answer until its entry is dropped, whatever is written to the tables. */
  lemma AnswersStick(s: Sys, user: Id, tenant: Id, db: Db)
    requires GetUserAccess(s, user, tenant).1.Some?
    ensures var (s1, answer) := GetUserAccess(s, user, tenant);
            GetUserAccess(s1.(db := db), user, tenant) == (s1.(db := db), answer)
  {
    hide View;
  }

  lemma SecondLookup(s: Sys, user: Id, tenant: Id)
    ensures GetUserAccess(GetUserAccess(s, user, tenant).0, user, tenant).1 == GetUserAccess(s, user, tenant).1
    ensures GetUserAccess(s, user, tenant).0.db == s.db
    ensures GetUserAccess(GetUserAccess(s, user, tenant).0, user, tenant).0.db == s.db
  {
    hide View;
  }
}
