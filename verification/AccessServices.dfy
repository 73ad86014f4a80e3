/** The services as they run: each method changes the shared tables and cache step by step, and is proved
    to carry out the operation the claims about runs are made of. */
module AccessServices {
  import opened Common
  import opened Decimal
  import opened AccessModel
  import Markers
  import Redis
  import Rev = Revocation
  import opened AccessRuns
  import opened AccessCoherence
  import opened PermissionMatrix
  import opened AccessCache
  import Ops = AccessOps
  import Boots = AccessSeed

  type Error = Ops.Error

  /** The ids that go into access keys. */
  ghost predicate PlainIds(db: Db) {
    (forall u :: u in db.users ==> Redis.PlainId(u)) && (forall t :: t in db.tenants ==> Redis.PlainId(t))
  }

  lemma StillPlain(db: Db, db': Db)
    requires PlainIds(db) && db'.users.Keys <= db.users.Keys && db'.tenants.Keys <= db.tenants.Keys
    ensures PlainIds(db')
  {
  }

  lemma AccountsPlain(db: Db)
    requires PlainIds(db)
    ensures (forall u :: u in db.users ==> Redis.PlainId(u)) && (forall t :: t in db.tenants ==> Redis.PlainId(t))
  {
  }

  lemma UserIssued(s: Sys, user: Id)
    requires Good(s) && user in s.db.users
    ensures s.issued + {user} == s.issued
  {
  }

  lemma OwnersPlain(s: Sys)
    requires Good(s) && PlainIds(s.db)
    ensures forall r :: r in s.db.roles && s.db.roles[r].tenant.Some? ==> Redis.PlainId(s.db.roles[r].tenant.value)
  {
  }

  lemma EmptyIsSound()
    ensures Good(EMPTY) && PlainIds(EMPTY.db)
  {
  }

  /** The database, and Redis with the access entries among other keys. */
  class Store {
    const redis: Redis.RedisService
    const json: Json
    const markerTtl: Option<int>     // what `parseTtlSeconds` makes of the configured token lifetime
    var db: Db
    ghost var issued: set<Id>

    constructor (redis: Redis.RedisService, json: Json, markerTtl: Option<int>)
      requires RoundTrips(json) && NoEntries(redis.entries, redis.now)
      ensures this.redis == redis && this.json == json && this.markerTtl == markerTtl
      ensures Valid() && Now() == EMPTY
    {
      this.redis, this.json, this.markerTtl := redis, json, markerTtl;
      db := EMPTY.db;
      issued := {};
      new;
      hide *;
      NoneYet(redis.entries, redis.now, json);
      assert Now() == EMPTY by { Empty(); }
      assert Valid() by { StillValid(); }
    }

    lemma Empty()
      requires db == EMPTY.db && issued == {} && CacheOf(redis.entries, redis.now, json) == map[]
      ensures Now() == EMPTY
    {
    }

    lemma StillValid()
      requires Now() == EMPTY && RoundTrips(json) && Tidy(redis.entries, redis.now)
      ensures Valid()
    {
      EmptyIsSound();
    }

    /** The access entries a client can see, as a map. */
    ghost function Cache(): map<Member, UserAccess>
      reads redis
    {
      CacheOf(redis.entries, redis.now, json)
    }

    ghost function Now(): Sys
      reads this, redis
    {
      Sys(db, Cache(), issued)
    }

    ghost predicate Ready()
      reads this, redis
    {
      RoundTrips(json) && Tidy(redis.entries, redis.now) && PlainIds(db)
    }

    ghost predicate Valid()
      reads this, redis
    {
      Ready() && Good(Now())
    }

    /** The part of the revocation settings that a marker depends on. */
    function Settings(): Rev.Config { Rev.Config(0, markerTtl) }

    /** Sets a revocation marker; a lifetime that Redis does not accept is an error. */
    method Revoke(k: Rev.Subject) returns (ok: bool)
      requires Ready()
      modifies redis`entries
      ensures Ready() && Cache() == old(Cache()) && ok == Rev.Storable(Settings())
      ensures redis.entries == if ok then old(redis.entries)[Markers.KeyOf(k) :=
                                      Redis.Entry(Digits(redis.now / 1000), Some(redis.now + 1000 * markerTtl.value))]
                               else old(redis.entries)
      ensures forall s :: Markers.Shows(old(redis.entries), redis.now, s) ==>
                Markers.Shows(redis.entries, redis.now, Rev.Do(Settings(), s, Rev.Revoke(k)))
    {
      hide CacheOf, Tidy, RoundTrips, PlainIds, Redis.VisibleOf, Markers.Shows, Markers.KeyOf;
      ghost var before := redis.entries;
      forall s | Markers.Shows(before, redis.now, s)
        ensures Markers.Shows(if Rev.Storable(Settings()) then
                                before[Markers.KeyOf(k) := Redis.Entry(Digits(redis.now / 1000), Some(redis.now + 1000 * markerTtl.value))]
                              else before, redis.now, Rev.Do(Settings(), s, Rev.Revoke(k)))
      {
        Markers.MarkShows(before, redis.now, Settings(), s, k);
      }
      if markerTtl.None? { return false; }
      ghost var entry := Redis.Entry(Digits(redis.now / 1000), Some(redis.now + 1000 * markerTtl.value));
      Markers.KeysDiffer(k, k);
      AfterOther(redis.entries, redis.now, json, Markers.KeyOf(k), entry);
      var options := Redis.SetOptions(markerTtl, None, false, false);
      var r := redis.SetWithOptions(Markers.KeyOf(k), Digits(redis.now / 1000), options);
      ok := r.Ok?;
    }

    /** The three inserts of an enrolment, inside one transaction. */
    method Enroll(user: Id, row: User, tenant: Id, roles: set<Id>)
      modifies `db, `issued
      ensures db == Ops.Enroll(old(db), user, row, tenant, roles) && issued == old(issued) + {user}
      ensures PlainIds(old(db)) && Redis.PlainId(user) ==> PlainIds(db)
    {
      db := db.(users := db.users[user := row]);
      db := db.(memberships := db.memberships[Member(user, tenant) := true]);
      db := db.(assignments := db.assignments + set r | r in roles :: Assignment(user, tenant, r));
      issued := issued + {user};
    }
  }

  /** `access.service.ts`. */
  class AccessService {
    const store: Store

    constructor (store: Store)
      ensures this.store == store
    {
      this.store := store;
    }

    /** A cached answer, or a fresh one that is then cached for 300 seconds under the member's key. */
    method GetUserAccess(user: Id, tenant: Id) returns (access: Option<UserAccess>)
      requires store.Ready()
      modifies store.redis`entries
      ensures store.Ready() && (store.Now(), access) == AccessModel.GetUserAccess(old(store.Now()), user, tenant)
      ensures store.redis.entries ==
              if access.None? || Member(user, tenant) in old(store.Cache()) then old(store.redis.entries)
              else old(store.redis.entries)[Redis.CacheKey(tenant, user) :=
                     Redis.Entry(store.json.stringify(access.value), Some(store.redis.now + 1000 * TTL_SECONDS))]
    {
      hide CacheOf, Tidy, View, RoundTrips, Redis.VisibleOf;
      var m := Member(user, tenant);
      access := GetEntry(m);
      if access.Some? { return; }
      access := FindAccess(user, tenant);
      if access.Some? {
        assert Plain(m) by { FoundArePlain(store.db, user, tenant); }
        SetEntry(m, access.value);
      }
    }

    static lemma FoundArePlain(db: Db, user: Id, tenant: Id)
      requires PlainIds(db) && View(db, user, tenant).Some?
      ensures Plain(Member(user, tenant))
    {
    }

    /** `getJson`. */
    method GetEntry(m: Member) returns (a: Option<UserAccess>)
      requires store.Ready()
      ensures a == if m in store.Cache() then Some(store.Cache()[m]) else None
    {
      LookupAt(store.redis.entries, store.redis.now, store.json, m);
      hide CacheOf, Tidy;
      var text := store.redis.Get(Redis.CacheKey(m.tenant, m.user));
      a := if text.Some? && text.value != "" then Some(store.json.parse(text.value)) else None;
    }

    /** `setJson` with a lifetime. */
    method SetEntry(m: Member, a: UserAccess)
      requires store.Ready() && Plain(m)
      modifies store.redis`entries
      ensures store.Ready() && store.Cache() == old(store.Cache())[m := a]
      ensures store.redis.entries == old(store.redis.entries)[KeyOf(m) :=
                Redis.Entry(store.json.stringify(a), Some(store.redis.now + 1000 * TTL_SECONDS))]
    {
      hide CacheOf, Tidy, RoundTrips, Plain, Redis.VisibleOf, Redis.CacheKey;
      AfterSet(store.redis.entries, store.redis.now, store.json, m, a, store.redis.now + 1000 * TTL_SECONDS);
      var text, options := store.json.stringify(a), Redis.SetOptions(Some(TTL_SECONDS), None, false, false);
      var ok := store.redis.SetWithOptions(Redis.CacheKey(m.tenant, m.user), text, options);
    }

    /** The queries behind a cache miss. */
    method FindAccess(user: Id, tenant: Id) returns (access: Option<UserAccess>)
      ensures access == View(store.db, user, tenant)
    {
      var db, key := store.db, Member(user, tenant);
      if !(key in db.memberships && db.memberships[key] && user in db.users && db.users[user].active &&
           tenant in db.tenants && db.tenants[tenant].active)
      {
        return None;
      }
      var roles := Assigned(db, user, tenant);
      var codes := RoleCodes(db, roles);
      var permissions;
      if exists r :: r in roles && r in db.roles && IsSystemAdminRole(db.roles[r]) {
        permissions := EnabledCodes(db);
      } else {
        permissions := GrantedCodes(db, roles);
      }
      return Some(UserAccess(codes, permissions));
    }

    /** The key of one member, or every key the user's pattern matches: the entries of exactly these
        members go, and no key outside the access cache. */
    method InvalidateUser(user: Id, tenant: Option<Id>)
      requires store.Ready() && (tenant.None? ==> Redis.PlainId(user))
      modifies store.redis`entries
      ensures store.Ready() && Redis.OnlyAccessKeys(old(store.redis.entries), store.redis.entries, store.redis.now)
      ensures store.Now() == if tenant.Some? then InvalidateMember(old(store.Now()), user, tenant.value)
                             else AccessModel.InvalidateUser(old(store.Now()), user)
    {
      hide CacheOf, Tidy, RoundTrips, Redis.VisibleOf, Redis.CacheKey;
      if tenant.None? {
        DeleteByPattern("*:" + user);
        Patterns(user);
        UserPatternDrops(old(store.Cache()), user);
      } else {
        var m := Member(user, tenant.value);
        AfterDeleteOne(store.redis.entries, store.redis.now, store.json, m);
        Prefixed(m);
        assert Redis.SetOf([KeyOf(m)]) == {KeyOf(m)};
        var count := store.redis.Delete([Redis.CacheKey(tenant.value, user)]);
      }
    }

    method InvalidateTenant(tenant: Id)
      requires store.Ready() && Redis.PlainId(tenant)
      modifies store.redis`entries
      ensures store.Ready() && Redis.OnlyAccessKeys(old(store.redis.entries), store.redis.entries, store.redis.now)
      ensures store.Now() == AccessModel.InvalidateTenant(old(store.Now()), tenant)
    {
      hide CacheOf, Tidy;
      DeleteByPattern(tenant + ":*");
      Patterns(tenant);
      TenantPatternDrops(old(store.Cache()), tenant);
    }

    method InvalidateAll()
      requires store.Ready()
      modifies store.redis`entries
      ensures store.Ready() && Redis.OnlyAccessKeys(old(store.redis.entries), store.redis.entries, store.redis.now)
      ensures store.Now() == AccessModel.InvalidateAll(old(store.Now()))
    {
      hide CacheOf, Tidy;
      DeleteByPattern("*");
      AllPatternDrops(old(store.Cache()));
    }

    /** The SCAN loop on a pattern under the access prefix. */
    method DeleteByPattern(rest: string)
      requires store.Ready()
      modifies store.redis`entries
      ensures store.Ready() && Redis.OnlyAccessKeys(old(store.redis.entries), store.redis.entries, store.redis.now)
      ensures forall m :: m in old(store.Cache()) ==> Plain(m)
      ensures store.Cache() == map m | m in old(store.Cache()) && !Redis.GlobMatch(Redis.ACCESS_PREFIX + rest, KeyOf(m)) ::
                                 old(store.Cache())[m]
    {
      var redis := store.redis;
      var pages := redis.Scan(Redis.ACCESS_PREFIX + rest);
      var count := redis.DeleteByPattern(Redis.ACCESS_PREFIX + rest, pages);
      CachedArePlain(old(redis.entries), redis.now, store.json);
      AfterPattern(old(redis.entries), redis.entries, redis.now, store.json, Redis.ACCESS_PREFIX + rest);
      forall k | k in old(redis.entries) && !(Redis.ACCESS_PREFIX <= k) ensures !Redis.GlobMatch(Redis.ACCESS_PREFIX + rest, k) {
        if Redis.GlobMatch(Redis.ACCESS_PREFIX + rest, k) { Redis.PatternsStayInside(rest, k); }
      }
    }
  }

  /** `roles.service.ts`. */
  class RolesService {
    const store: Store
    const access: AccessService

    constructor (access: AccessService)
      ensures this.access == access && store == access.store
    {
      this.access := access;
      this.store := access.store;
    }

    ghost predicate Valid()
      reads store, store.redis
    {
      access.store == store && store.Valid()
    }

    method AssertRolesAssignable(actor: Id, tenant: Id, roles: set<Id>) returns (error: Option<Error>)
      requires Valid()
      modifies store.redis`entries
      ensures Valid() && Ops.Outcome(store.Now(), error) == Ops.RolesAssignable(old(store.Now()), actor, tenant, roles)
    {
      hide Good, CacheOf, Tidy, RoundTrips, PlainIds, Redis.VisibleOf, Redis.PlainId;
      AssignableKeeps(store.Now(), actor, tenant, roles);
      var db := store.db;
      var found := set r | r in roles && r in db.roles && db.roles[r].enabled && InScope(db.roles[r], tenant);
      if found != roles {
        assert exists r :: r in roles && r !in found;
        return Some(Ops.NotFound);
      }
      assert forall r :: r in roles ==> r in found;
      if exists r, c :: r in roles && r in db.roles && db.roles[r].code != SYSTEM_ADMIN &&
                        c in Ops.SwitchedOn(db, r) && c in PLATFORM_PERMISSIONS
      {
        return Some(Ops.Forbidden);
      }
      var actorAccess := access.GetUserAccess(actor, tenant);
      if actorAccess.None? { return Some(Ops.Unauthorized); }
      if SYSTEM_ADMIN in actorAccess.value.roles { return None; }
      if exists r :: r in roles && r in db.roles &&
                     (db.roles[r].code == SYSTEM_ADMIN || !(Ops.SwitchedOn(db, r) <= actorAccess.value.permissions))
      {
        return Some(Ops.Forbidden);
      }
      return None;
    }

    method Create(tenant: Id, actor: Id, code: string, permissions: seq<Id>, newId: Id) returns (error: Option<Error>)
      requires Valid() && newId !in store.issued
      modifies store, store.redis
      ensures Valid()
      ensures Ops.Outcome(store.Now(), error) == Ops.CreateRole(old(store.Now()), tenant, actor, code, permissions, newId)
    {
      hide Good, CacheOf, Tidy, RoundTrips, PlainIds, Redis.VisibleOf, Redis.PlainId;
      CreateRoleKeeps(store.Now(), tenant, actor, code, permissions, newId);
      var ids := Ops.SetFrom(permissions);
      if code in RESERVED { return Some(Ops.Conflict); }
      if exists p :: p in ids && !Enabled(store.db, p) { return Some(Ops.NotFound); }
      var actorAccess := access.GetUserAccess(actor, tenant);
      if actorAccess.None? { return Some(Ops.Unauthorized); }
      var refused := Ops.EnableError(Ops.CodesOf(store.db, ids), actorAccess.value);
      if refused.Some? { return refused; }
      if tenant !in store.db.tenants { return Some(Ops.Rejected); }
      if Ops.CodeTaken(store.db, tenant, code, None) || !Ops.Distinct(permissions) { return Some(Ops.Conflict); }
      store.db := store.db.(roles := store.db.roles[newId := Role(Some(tenant), code, false, true)]);
      store.db := Ops.SetBindings(store.db, newId, ids, ids);
      store.issued := store.issued + {newId};
      StillPlain(old(store.db), store.db);
      AccountsPlain(store.db);
      access.InvalidateTenant(tenant);
      return None;
    }

    method Update(tenant: Id, id: Id, code: Option<string>, enabled: Option<bool>) returns (error: Option<Error>)
      requires Valid()
      modifies store, store.redis
      ensures Valid()
      ensures Ops.Outcome(store.Now(), error) == Ops.UpdateRole(old(store.Now()), tenant, id, code, enabled)
    {
      hide Good, CacheOf, Tidy, RoundTrips, PlainIds, Redis.VisibleOf, Redis.PlainId;
      UpdateRoleKeeps(store.Now(), tenant, id, code, enabled);
      OwnersPlain(store.Now());
      var found := Ops.FindScoped(store.db, tenant, id);
      if found.None? { return Some(Ops.NotFound); }
      var role := found.value;
      if role.builtIn || role.tenant.None? { return Some(Ops.Forbidden); }
      if code.Some? && code.value in RESERVED { return Some(Ops.Conflict); }
      if code.Some? && Ops.CodeTaken(store.db, role.tenant.value, code.value, Some(id)) { return Some(Ops.Rejected); }
      if code.Some? { role := role.(code := code.value); }
      if enabled.Some? { role := role.(enabled := enabled.value); }
      store.db := store.db.(roles := store.db.roles[id := role]);
      StillPlain(old(store.db), store.db);
      access.InvalidateTenant(role.tenant.value);
      return None;
    }

    method Remove(tenant: Id, id: Id) returns (error: Option<Error>)
      requires Valid()
      modifies store, store.redis
      ensures Valid() && Ops.Outcome(store.Now(), error) == Ops.RemoveRole(old(store.Now()), tenant, id)
    {
      hide Good, CacheOf, Tidy, RoundTrips, PlainIds, Redis.VisibleOf, Redis.PlainId;
      RemoveRoleKeeps(store.Now(), tenant, id);
      OwnersPlain(store.Now());
      var found := Ops.FindScoped(store.db, tenant, id);
      if found.None? { return Some(Ops.NotFound); }
      if found.value.builtIn || found.value.tenant.None? { return Some(Ops.Forbidden); }
      store.db := Ops.DropRole(store.db, id);
      StillPlain(old(store.db), store.db);
      access.InvalidateTenant(found.value.tenant.value);
      return None;
    }

    method AssertPermissionTargetConfigurable(tenant: Id, id: Id, actor: Id) returns (target: Result<UserAccess, Error>)
      requires Valid()
      modifies store.redis`entries
      ensures Valid() && (store.Now(), target) == Ops.TargetConfigurable(old(store.Now()), tenant, id, actor)
    {
      hide Good, CacheOf, Tidy, RoundTrips, PlainIds, Redis.VisibleOf, Redis.PlainId;
      TargetKeeps(store.Now(), tenant, id, actor);
      var found := Ops.FindScoped(store.db, tenant, id);
      if found.None? { return Err(Ops.NotFound); }
      if IsSystemAdminRole(found.value) { return Err(Ops.Forbidden); }
      var actorAccess := access.GetUserAccess(actor, tenant);
      if actorAccess.None? { return Err(Ops.Unauthorized); }
      if found.value.tenant.None? && SYSTEM_ADMIN !in actorAccess.value.roles { return Err(Ops.Forbidden); }
      return Ok(actorAccess.value);
    }

    method InvalidateRoleAccess(role: Role)
      requires access.store == store && store.Ready() && (role.tenant.Some? ==> Redis.PlainId(role.tenant.value))
      modifies store.redis`entries
      ensures store.Ready() && store.Now() == Ops.InvalidateRoleAccess(old(store.Now()), role)
    {
      hide Good, CacheOf, Tidy, RoundTrips, PlainIds, Redis.VisibleOf, Redis.PlainId;
      if role.tenant.Some? {
        access.InvalidateTenant(role.tenant.value);
      } else {
        access.InvalidateAll();
      }
    }

    /** One upsert per enabled permission, then the entries the role may have influenced are dropped. */
    method SetPermissions(tenant: Id, id: Id, selected: set<Id>, actor: Id) returns (error: Option<Error>)
      requires Valid()
      modifies store, store.redis
      ensures Valid()
      ensures Ops.Outcome(store.Now(), error) == Ops.SetPermissions(old(store.Now()), tenant, id, selected, actor)
    {
      hide Good, CacheOf, Tidy, RoundTrips, PlainIds, Redis.VisibleOf, Redis.PlainId;
      SetPermissionsKeeps(store.Now(), tenant, id, selected, actor);
      TargetKeeps(store.Now(), tenant, id, actor);
      var target := AssertPermissionTargetConfigurable(tenant, id, actor);
      if target.Err? { return Some(target.error); }
      var db := store.db;
      var permissions := EnabledIds(db);
      if permissions * selected != selected {
        assert exists p :: p in selected && p !in permissions;
        return Some(Ops.NotFound);
      }
      assert forall p :: p in selected ==> p in permissions;
      var refused := Ops.EnableError(Ops.CodesOf(db, selected), target.value);
      if refused.Some? { return refused; }
      ghost var before := store.Now();
      UpsertAll(id, permissions, selected);
      OwnersPlain(old(store.Now()));
      StillPlain(old(store.db), store.db);
      InvalidateRoleAccess(db.roles[id]);
      assert store.Now() == Ops.EditAll(before, id, selected);
      var again := access.GetUserAccess(actor, tenant);
      return if again.None? then Some(Ops.Unauthorized) else None;
    }

    /** The transaction of `setPermissions`. */
    method UpsertAll(id: Id, permissions: set<Id>, selected: set<Id>)
      modifies store`db
      ensures store.db == Ops.SetBindings(old(store.db), id, permissions, selected)
    {
      var left := permissions;
      assert store.db == Ops.SetBindings(store.db, id, {}, selected);
      while left != {}
        invariant left <= permissions
        invariant store.db == Ops.SetBindings(old(store.db), id, permissions - left, selected)
      {
        var p :| p in left;
        UpsertOne(old(store.db), id, permissions - left, p, selected);
        store.db := store.db.(bindings := store.db.bindings[Binding(id, p) := p in selected]);
        assert permissions - (left - {p}) == permissions - left + {p};
        left := left - {p};
      }
      assert permissions - left == permissions;
    }

    static lemma UpsertOne(db: Db, id: Id, done: set<Id>, p: Id, selected: set<Id>)
      ensures var db' := Ops.SetBindings(db, id, done, selected);
              db'.(bindings := db'.bindings[Binding(id, p) := p in selected]) == Ops.SetBindings(db, id, done + {p}, selected)
    {
      var after := Ops.SetBindings(db, id, done, selected).bindings[Binding(id, p) := p in selected];
      var all := Ops.SetBindings(db, id, done + {p}, selected).bindings;
      hide Ops.SetBindings;
      forall b: Binding
        ensures b in after <==> b in all
        ensures b in after ==> after[b] == all[b]
      {
        BindingAt(db, id, done, selected, b);
        BindingAt(db, id, done + {p}, selected, b);
      }
      assert after == all;
    }

    method SetPermission(tenant: Id, id: Id, permission: Id, enabled: bool, actor: Id) returns (error: Option<Error>)
      requires Valid()
      modifies store, store.redis
      ensures Valid()
      ensures Ops.Outcome(store.Now(), error) ==
              Ops.SetPermission(old(store.Now()), tenant, id, permission, enabled, actor)
    {
      hide Good, CacheOf, Tidy, RoundTrips, PlainIds, Redis.VisibleOf, Redis.PlainId;
      SetPermissionKeeps(store.Now(), tenant, id, permission, enabled, actor);
      TargetKeeps(store.Now(), tenant, id, actor);
      var target := AssertPermissionTargetConfigurable(tenant, id, actor);
      if target.Err? { return Some(target.error); }
      var db := store.db;
      if !(permission in db.permissions && db.permissions[permission].enabled) { return Some(Ops.NotFound); }
      if enabled {
        var refused := Ops.EnableError(Ops.CodesOf(db, {permission}), target.value);
        if refused.Some? { return refused; }
      }
      ghost var before := store.Now();
      UpsertAll(id, {permission}, if enabled then {permission} else {});
      OwnersPlain(old(store.Now()));
      StillPlain(old(store.db), store.db);
      InvalidateRoleAccess(db.roles[id]);
      assert store.Now() == Ops.EditOne(before, id, permission, enabled);
      var again := access.GetUserAccess(actor, tenant);
      return if again.None? then Some(Ops.Unauthorized) else None;
    }

    method GetPermissionMatrix(tenant: Id, id: Id, actor: Id) returns (matrix: Result<map<Id, Entry>, Error>)
      requires Valid()
      modifies store.redis`entries
      ensures Valid() && (store.Now(), matrix) == Matrix(old(store.Now()), tenant, id, actor)
    {
      hide Good, CacheOf, Tidy, RoundTrips, PlainIds, Redis.VisibleOf, Redis.PlainId;
      FillKeeps(store.Now(), actor, tenant);
      var found := Ops.FindScoped(store.db, tenant, id);
      if found.None? { return Err(Ops.NotFound); }
      var actorAccess := access.GetUserAccess(actor, tenant);
      if actorAccess.None? { return Err(Ops.Unauthorized); }
      var db := store.db;
      return Ok(map p | p in db.permissions && Enabled(db, p) ::
        Entry(Granted(db, id, p), Configurable(found.value, db.permissions[p].code, Granted(db, id, p), actorAccess.value)));
    }
  }

  /** `users.service.ts`. */
  class UsersService {
    const store: Store
    const access: AccessService
    const roles: RolesService

    constructor (roles: RolesService)
      requires roles.access.store == roles.store
      ensures this.roles == roles && access == roles.access && store == roles.store
    {
      this.roles := roles;
      this.access := roles.access;
      this.store := roles.store;
    }

    ghost predicate Valid()
      reads store, store.redis
    {
      roles.store == store && roles.access == access && roles.Valid()
    }

    method Create(tenant: Id, actor: Id, email: string, roleIds: set<Id>, newId: Id)
      returns (error: Option<Error>, ghost op: Op)
      requires Valid() && newId !in store.issued && Redis.PlainId(newId)
      modifies store, store.redis
      ensures Valid()
      ensures op.CreateUser? && op.tenant == tenant && op.actor == actor && op.email == email && op.roles == roleIds
      ensures Legit(old(store.Now()), op) && store.Now() == Apply(old(store.Now()), op)
      ensures error == Ops.CreateUser(old(store.Now()), tenant, actor, email, roleIds, op.existing, op.memberRole, newId).error
    {
      hide Good, CacheOf, Tidy, RoundTrips, PlainIds, Redis.VisibleOf, Redis.PlainId, Ops.RolesAssignable, Ops.EnrollUser;
      var existing := FindByEmail(email);
      var memberRole := FindDefaultRole();
      op := Op.CreateUser(tenant, actor, email, roleIds, existing, memberRole, newId);
      CreateUserKeeps(store.Now(), tenant, actor, email, roleIds, existing, memberRole, newId);
      if roleIds != {} {
        error := roles.AssertRolesAssignable(actor, tenant, roleIds);
        if error.Some? { return; }
      }
      error := EnrollUser(tenant, email, roleIds, existing, memberRole, newId);
    }

    /** The transaction of `create`, with the check before it for an existing membership. */
    method EnrollUser(tenant: Id, email: string, roleIds: set<Id>, existing: Option<Id>, memberRole: Option<Id>, newId: Id)
      returns (error: Option<Error>)
      requires store.Ready() && Redis.PlainId(newId) && (existing.Some? ==> existing.value in store.db.users)
      modifies store
      ensures store.Ready()
      ensures Ops.Outcome(store.Now(), error) ==
              Ops.EnrollUser(old(store.Now()), tenant, email, roleIds, existing, memberRole, newId)
    {
      hide Good, CacheOf, Tidy, RoundTrips, PlainIds, Redis.VisibleOf, Redis.PlainId;
      var user := if existing.Some? then existing.value else newId;
      if Member(user, tenant) in store.db.memberships { return Some(Ops.Conflict); }
      if tenant !in store.db.tenants { return Some(Ops.Rejected); }
      var granted := roleIds;
      if roleIds == {} {
        if memberRole.None? { return Some(Ops.NotFound); }
        granted := {memberRole.value};
      }
      if exists r :: r in granted && Assignment(user, tenant, r) in store.db.assignments { return Some(Ops.Conflict); }
      var row := User(Some(email), true);
      if existing.Some? && user in store.db.users { row := store.db.users[user].(active := true); }
      AccountsPlain(store.db);
      hide Ops.Enroll;
      store.Enroll(user, row, tenant, granted);
      return None;
    }

    method FindByEmail(email: string) returns (user: Option<Id>)
      ensures Finds(user, Ops.ByEmail(store.db, email))
    {
      var all := Ops.ByEmail(store.db, email);
      if u :| u in all { return Some(u); }
      return None;
    }

    method FindDefaultRole() returns (role: Option<Id>)
      ensures Finds(role, DefaultRoles(store.db))
    {
      var all := DefaultRoles(store.db);
      if r :| r in all { return Some(r); }
      return None;
    }

    method Update(tenant: Id, id: Id, email: Option<string>) returns (error: Option<Error>)
      requires Valid()
      modifies store, store.redis
      ensures Valid() && Ops.Outcome(store.Now(), error) == Ops.UpdateUser(old(store.Now()), tenant, id, email)
    {
      hide Good, CacheOf, Tidy, RoundTrips, PlainIds, Redis.VisibleOf, Redis.PlainId;
      UpdateUserKeeps(store.Now(), tenant, id, email);
      if !Ops.IsMember(store.db, id, tenant) || id !in store.db.users { return Some(Ops.NotFound); }
      if email.Some? {
        if exists u :: u in Ops.ByEmail(store.db, email.value) && u != id { return Some(Ops.Rejected); }
        store.db := store.db.(users := store.db.users[id := store.db.users[id].(email := email)]);
      }
      assert store.db.users == store.db.users[id := store.db.users[id]];
      StillPlain(old(store.db), store.db);
      AccountsPlain(store.db);
      access.InvalidateUser(id, None);
      return None;
    }

    method SetRoles(tenant: Id, id: Id, roleIds: set<Id>, actor: Id) returns (error: Option<Error>)
      requires Valid()
      modifies store, store.redis
      ensures Valid() && Ops.Outcome(store.Now(), error) == Ops.SetRoles(old(store.Now()), tenant, id, roleIds, actor)
    {
      hide Good, CacheOf, Tidy, RoundTrips, PlainIds, Redis.VisibleOf, Redis.PlainId;
      SetRolesKeeps(store.Now(), tenant, id, roleIds, actor);
      if !Ops.IsMember(store.db, id, tenant) { return Some(Ops.NotFound); }
      error := roles.AssertRolesAssignable(actor, tenant, roleIds);
      if error.Some? { return; }
      var db := store.db;
      store.db := db.(assignments := set a | a in db.assignments && !(a.user == id && a.tenant == tenant));
      store.db := store.db.(assignments := store.db.assignments + set r | r in roleIds :: Assignment(id, tenant, r));
      StillPlain(old(store.db), store.db);
      access.InvalidateUser(id, Some(tenant));
      return None;
    }

    /** The marker against the user's access tokens comes last; when Redis refuses it (`marked` is false)
        the removal stands, and the caller sees an error all the same. In either case the markers change as
        a revocation changes them. */
    method Remove(tenant: Id, id: Id, hard: bool) returns (error: Option<Error>, marked: bool)
      requires Valid()
      modifies store, store.redis
      ensures Valid() && Ops.Outcome(store.Now(), error) == Ops.RemoveUser(old(store.Now()), tenant, id, hard)
      ensures marked <==> error.None? && Rev.Storable(store.Settings())
      ensures forall s :: Markers.Shows(old(store.redis.entries), store.redis.now, s) ==>
                Markers.Shows(store.redis.entries, store.redis.now,
                              if error.Some? then s else Rev.Do(store.Settings(), s, Rev.Revoke(Rev.OfUser(id))))
      ensures error.Some? ==> store.redis.entries == old(store.redis.entries)
    {
      hide Good, CacheOf, Tidy, RoundTrips, PlainIds, Redis.VisibleOf, Redis.PlainId, Redis.OnlyAccessKeys, Markers.Shows;
      RemoveUserKeeps(store.Now(), tenant, id, hard);
      if !Ops.IsMember(store.db, id, tenant) { return Some(Ops.NotFound), false; }
      DropMember(tenant, id, hard);
      ghost var before := store.redis.entries;
      access.InvalidateUser(id, Some(tenant));
      forall s | Markers.Shows(before, store.redis.now, s) ensures Markers.Shows(store.redis.entries, store.redis.now, s) {
        Markers.OthersShow(before, store.redis.entries, store.redis.now, s);
      }
      marked := store.Revoke(Rev.OfUser(id));
      return None, marked;
    }

    /** The rows that `remove` deletes or deactivates. */
    method DropMember(tenant: Id, id: Id, hard: bool)
      requires store.Ready() && Ops.IsMember(store.db, id, tenant)
      modifies store`db
      ensures store.Ready()
      ensures InvalidateMember(store.Now(), id, tenant) == Ops.RemoveUser(old(store.Now()), tenant, id, hard).sys
    {
      hide CacheOf, Tidy, RoundTrips, PlainIds, Redis.VisibleOf;
      if hard {
        store.db := Ops.SetAssignments(store.db, id, tenant, {});
        store.db := store.db.(memberships := store.db.memberships - {Member(id, tenant)});
        if !exists m :: m in store.db.memberships && m.user == id { store.db := Ops.DropUser(store.db, id); }
      } else {
        store.db := store.db.(memberships := store.db.memberships[Member(id, tenant) := false]);
      }
      StillPlain(old(store.db), store.db);
    }

    /** `registerVerifiedUser` of `auth.service.ts`. */
    method RegisterVerifiedUser(tenancy: TenancyService, email: Option<string>, newTenant: Id, newUser: Id)
      returns (error: Option<Error>, ghost op: Op)
      requires Valid() && tenancy.store == store
      requires newTenant !in store.issued && newUser !in store.issued && newTenant != newUser
      requires Redis.PlainId(newTenant) && Redis.PlainId(newUser)
      modifies store, store.redis
      ensures Valid()
      ensures op.Register? && op.newEmail == email
      ensures Legit(old(store.Now()), op) && store.Now() == Apply(old(store.Now()), op)
      ensures error == Ops.RegisterVerifiedUser(old(store.Now()), email, op.defaultTenant, op.memberRole, newTenant, newUser).error
    {
      hide Good, CacheOf, Tidy, RoundTrips, PlainIds, Redis.VisibleOf, Redis.PlainId, Ops.Enroll;
      var memberRole := FindDefaultRole();
      ghost var before := store.Now();
      var tenant, found := tenancy.BootstrapDefaultTenant(newTenant);
      op := Op.Register(email, found, memberRole, newTenant, newUser);
      RegisterKeeps(before, email, found, memberRole, newTenant, newUser);
      if tenant !in store.db.tenants || !store.db.tenants[tenant].active { return Some(Ops.Forbidden), op; }
      if email.Some? && Ops.ByEmail(store.db, email.value) != {} { return Some(Ops.Rejected), op; }
      if memberRole.None? { return Some(Ops.NotFound), op; }
      store.Enroll(newUser, User(email, true), tenant, {memberRole.value});
      return None, op;
    }
  }

  /** `tenancy.service.ts`. */
  class TenancyService {
    const store: Store

    constructor (store: Store)
      ensures this.store == store
    {
      this.store := store;
    }

    /** `systemRole` is the role that the query finds. */
    method Create(slug: string, creator: Id, newId: Id) returns (error: Option<Error>, ghost systemRole: Option<Id>)
      requires store.Valid() && newId !in store.issued && Redis.PlainId(newId)
      modifies store
      ensures store.Valid() && Finds(systemRole, SystemRoles(old(store.db)))
      ensures Ops.Outcome(store.Now(), error) == Ops.CreateTenant(old(store.Now()), slug, creator, systemRole, newId)
    {
      hide Good, CacheOf, Tidy, RoundTrips, PlainIds, Redis.VisibleOf, Redis.PlainId, Ops.Enroll, Ops.AddTenant;
      var all := SystemRoles(store.db);
      var found := None;
      if r :| r in all { found := Some(r); }
      systemRole := found;
      CreateTenantKeeps(store.Now(), slug, creator, systemRole, newId);
      if exists t :: t in store.db.tenants && store.db.tenants[t].slug == slug { return Some(Ops.Conflict), systemRole; }
      if creator !in store.db.users { return Some(Ops.Rejected), systemRole; }
      if found.None? { return Some(Ops.NotFound), systemRole; }
      PlainTenant(store.db, newId, slug);
      UserIssued(store.Now(), creator);
      AccountsPlain(store.db);
      store.db := Ops.AddTenant(store.db, newId, slug);
      store.issued := store.issued + {newId};
      store.Enroll(creator, store.db.users[creator], newId, {found.value});
      assert store.issued == old(store.issued) + {newId};
      return None, systemRole;
    }

    static lemma PlainTenant(db: Db, id: Id, slug: string)
      requires PlainIds(db) && Redis.PlainId(id)
      ensures PlainIds(Ops.AddTenant(db, id, slug)) && Ops.AddTenant(db, id, slug).users == db.users
    {
    }

    /** No access entry is dropped here: entries of the tenant live on until they expire. The marker against
        the tenant's access tokens comes last; when Redis refuses it, the removal stands. */
    method Remove(id: Id, hard: bool) returns (error: Option<Error>, marked: bool)
      requires store.Valid()
      modifies store`db, store.redis`entries
      ensures store.Valid() && Ops.Outcome(store.Now(), error) == Ops.RemoveTenant(old(store.Now()), id, hard)
      ensures marked <==> error.None? && Rev.Storable(store.Settings())
      ensures forall s :: Markers.Shows(old(store.redis.entries), store.redis.now, s) ==>
                Markers.Shows(store.redis.entries, store.redis.now,
                              if error.Some? then s else Rev.Do(store.Settings(), s, Rev.Revoke(Rev.OfTenant(id))))
      ensures !marked ==> store.redis.entries == old(store.redis.entries)
    {
      hide Good, CacheOf, Tidy, RoundTrips, PlainIds, Redis.VisibleOf, Ops.DropTenant, Markers.Shows;
      RemoveTenantKeeps(store.Now(), id, hard);
      error := DropTenant(id, hard);
      marked := false;
      if error.None? { marked := store.Revoke(Rev.OfTenant(id)); }
    }

    /** The row that `remove` deletes or deactivates. */
    method DropTenant(id: Id, hard: bool) returns (error: Option<Error>)
      requires store.Ready()
      modifies store`db
      ensures store.Ready() && Ops.Outcome(store.Now(), error) == Ops.RemoveTenant(old(store.Now()), id, hard)
    {
      hide CacheOf, Tidy, RoundTrips, PlainIds, Redis.VisibleOf;
      if id !in store.db.tenants { return Some(Ops.NotFound); }
      if hard {
        store.db := Ops.DropTenant(store.db, id);
      } else {
        if !store.db.tenants[id].active { return Some(Ops.NotFound); }
        store.db := store.db.(tenants := store.db.tenants[id := store.db.tenants[id].(active := false)]);
      }
      StillPlain(old(store.db), store.db);
      return None;
    }

    method BootstrapDefaultTenant(newId: Id) returns (tenant: Id, found: Option<Id>)
      requires store.Ready() && Redis.PlainId(newId)
      modifies store
      ensures store.Ready()
      ensures Finds(found, DefaultTenants(old(store.db)))
      ensures tenant == if found.Some? then found.value else newId
      ensures store.Now() == Ops.DefaultTenant(old(store.Now()), found, newId)
    {
      hide CacheOf, Tidy, RoundTrips;
      var all := DefaultTenants(store.db);
      if t :| t in all { return t, Some(t); }
      store.db := Ops.AddTenant(store.db, newId, "default");
      store.issued := store.issued + {newId};
      return newId, None;
    }
  }

  /** `roles.guard.ts`. */
  class RolesGuard {
    const access: AccessService

    constructor (access: AccessService)
      ensures this.access == access
    {
      this.access := access;
    }

    method CanActivate(required: set<string>, user: Id, tenant: Id) returns (error: Option<Error>)
      requires access.store.Ready()
      modifies access.store.redis`entries
      ensures access.store.Ready()
      ensures Ops.Outcome(access.store.Now(), error) == Ops.RolesGuard(old(access.store.Now()), user, tenant, required)
    {
      hide CacheOf, Tidy, RoundTrips, PlainIds, Redis.VisibleOf;
      if required == {} { return None; }
      var answer := access.GetUserAccess(user, tenant);
      if answer.None? { return Some(Ops.Unauthorized); }
      if SYSTEM_ADMIN in answer.value.roles { return None; }
      if required * answer.value.roles == {} { return Some(Ops.Forbidden); }
      return None;
    }
  }

  /** `permissions.guard.ts`. */
  class PermissionsGuard {
    const access: AccessService

    constructor (access: AccessService)
      ensures this.access == access
    {
      this.access := access;
    }

    method CanActivate(required: set<string>, user: Id, tenant: Id) returns (error: Option<Error>)
      requires access.store.Ready()
      modifies access.store.redis`entries
      ensures access.store.Ready()
      ensures Ops.Outcome(access.store.Now(), error) == Ops.PermissionsGuard(old(access.store.Now()), user, tenant, required)
    {
      hide CacheOf, Tidy, RoundTrips, PlainIds, Redis.VisibleOf;
      if required == {} { return None; }
      var answer := access.GetUserAccess(user, tenant);
      if answer.None? { return Some(Ops.Unauthorized); }
      if SYSTEM_ADMIN in answer.value.roles { return None; }
      if required * answer.value.permissions == {} { return Some(Ops.Forbidden); }
      return None;
    }
  }

  /** `tenancy.controller.ts` behind its guards. */
  class TenancyController {
    const tenancy: TenancyService
    const roles: RolesGuard
    const permissions: PermissionsGuard

    constructor (tenancy: TenancyService, roles: RolesGuard, permissions: PermissionsGuard)
      ensures this.tenancy == tenancy && this.roles == roles && this.permissions == permissions
    {
      this.tenancy, this.roles, this.permissions := tenancy, roles, permissions;
    }

    /** `POST /tenants`; `within` is the tenant of the token. */
    method Create(within: Id, creator: Id, slug: string, newId: Id) returns (error: Option<Error>, ghost op: Op)
      requires roles.access.store == permissions.access.store == tenancy.store && tenancy.store.Valid()
      requires newId !in tenancy.store.issued && Redis.PlainId(newId)
      modifies tenancy.store, tenancy.store.redis
      ensures tenancy.store.Valid()
      ensures op.CreateTenant? && op.within == within && op.slug == slug && op.creator == creator
      ensures Legit(old(tenancy.store.Now()), op) && tenancy.store.Now() == Apply(old(tenancy.store.Now()), op)
      ensures error == Ops.RequestTenant(old(tenancy.store.Now()), within, slug, creator, op.systemRole, newId).error
    {
      hide Good, CacheOf, Tidy, RoundTrips, PlainIds, Redis.VisibleOf, Redis.PlainId, Ops.CreateTenant, Ops.RolesGuard,
        Ops.PermissionsGuard;
      ghost var before := tenancy.store.Now();
      ghost var expected := Found(tenancy.store.db);
      RequestTenantKeeps(before, within, slug, creator, expected, newId);
      GuardsKeep(before, creator, within, {SYSTEM_ADMIN});
      op := Op.CreateTenant(within, slug, creator, expected, newId);
      error := roles.CanActivate({SYSTEM_ADMIN}, creator, within);
      if error.Some? { return; }
      GuardsKeep(tenancy.store.Now(), creator, within, {TENANT_CREATE});
      error := permissions.CanActivate({TENANT_CREATE}, creator, within);
      if error.Some? { return; }
      ghost var systemRole;
      error, systemRole := tenancy.Create(slug, creator, newId);
      op := Op.CreateTenant(within, slug, creator, systemRole, newId);
    }

    /** A role the query may find. */
    static ghost function Found(db: Db): (found: Option<Id>)
      ensures Finds(found, SystemRoles(db))
    {
      if r :| r in SystemRoles(db) then Some(r) else None
    }
  }

  /** `seed.service.ts`. */
  class SeedService {
    const store: Store
    const access: AccessService
    const tenancy: TenancyService

    constructor (access: AccessService, tenancy: TenancyService)
      requires access.store == tenancy.store
      ensures this.access == access && this.tenancy == tenancy && store == access.store
    {
      this.access := access;
      this.tenancy := tenancy;
      this.store := access.store;
    }

    method SeedAccessModel(permissionIds: seq<Id>, roleIds: seq<Id>)
      requires |permissionIds| == |BUILT_IN_PERMISSIONS| && |roleIds| == |BUILT_IN_ROLES|
      modifies store
      ensures store.db == Boots.Seed(old(store.db), permissionIds, roleIds)
      ensures store.issued == old(store.issued) + Ops.SetFrom(permissionIds) + Ops.SetFrom(roleIds)
    {
      hide Boots.UpsertPermission, Boots.UpsertRole, Boots.PrunePermissions, Boots.GrantMissing;
      ghost var db0 := store.db;
      for i := 0 to |BUILT_IN_PERMISSIONS|
        invariant store.db == Boots.UpsertPermissions(db0, BUILT_IN_PERMISSIONS[..i], permissionIds[..i])
        invariant store.issued == old(store.issued)
      {
        store.db := Boots.UpsertPermission(store.db, BUILT_IN_PERMISSIONS[i], permissionIds[i]);
        assert BUILT_IN_PERMISSIONS[..i + 1][..i] == BUILT_IN_PERMISSIONS[..i];
        assert permissionIds[..i + 1][..i] == permissionIds[..i];
      }
      assert BUILT_IN_PERMISSIONS[..|BUILT_IN_PERMISSIONS|] == BUILT_IN_PERMISSIONS;
      assert permissionIds[..|BUILT_IN_PERMISSIONS|] == permissionIds;
      store.db := Boots.PrunePermissions(store.db, BUILT_IN_PERMISSIONS);
      ghost var db1 := store.db;
      for i := 0 to |BUILT_IN_ROLES|
        invariant store.db == Boots.UpsertRoles(db1, BUILT_IN_ROLES[..i], roleIds[..i])
        invariant store.issued == old(store.issued)
      {
        store.db := Boots.UpsertRole(store.db, BUILT_IN_ROLES[i], roleIds[i]);
        assert BUILT_IN_ROLES[..i + 1][..i] == BUILT_IN_ROLES[..i];
        assert roleIds[..i + 1][..i] == roleIds[..i];
      }
      assert BUILT_IN_ROLES[..|BUILT_IN_ROLES|] == BUILT_IN_ROLES && roleIds[..|BUILT_IN_ROLES|] == roleIds;
      store.db := Boots.GrantMissing(store.db, SYSTEM_ADMIN, store.db.permissions.Keys);
      store.db := Boots.GrantMissing(store.db, ADMIN, Boots.IdsWithCodes(store.db, TENANT_ADMIN_PERMISSIONS));
      store.issued := store.issued + Ops.SetFrom(permissionIds) + Ops.SetFrom(roleIds);
    }

    /** The access entries are dropped between the seed and the administrator. */
    method OnApplicationBootstrap(permissionIds: seq<Id>, roleIds: seq<Id>, adminEmail: Option<string>,
                                  newTenant: Id, newUser: Id)
      returns (ghost op: Op)
      requires access.store == store && tenancy.store == store && store.Valid()
      requires |permissionIds| == |BUILT_IN_PERMISSIONS| && |roleIds| == |BUILT_IN_ROLES|
      requires Ops.Distinct(permissionIds) && Ops.Distinct(roleIds)
      requires Ops.SetFrom(permissionIds) !! store.issued && Ops.SetFrom(roleIds) !! store.issued
      requires {newTenant, newUser} !! (store.issued + Ops.SetFrom(permissionIds) + Ops.SetFrom(roleIds))
      requires newTenant != newUser && Redis.PlainId(newTenant) && Redis.PlainId(newUser)
      modifies store, store.redis
      ensures store.Valid()
      ensures op.Boot? && (op.admin.Some? <==> adminEmail.Some?) && (adminEmail.Some? ==> op.admin.value.email == adminEmail.value)
      ensures Legit(old(store.Now()), op) && store.Now() == Apply(old(store.Now()), op)
    {
      hide Boots.Seed, Boots.SeedAll, Boots.SeedAdmin, Boots.IsGlobal, Good, WfDb, Ops.SetFrom, Ops.Distinct, PlainIds,
        CacheOf, Tidy, RoundTrips, Redis.VisibleOf;
      ghost var before := store.Now();
      var role := SeedAndForget(permissionIds, roleIds);
      if adminEmail.None? { return Boot(permissionIds, roleIds, None, role); }
      ghost var seeded := store.Now();
      ghost var admin := SeedAdministrator(adminEmail.value, role, newTenant, newUser);
      op := Boot(permissionIds, roleIds, Some(admin), role);
      SeedAdminKeeps(seeded, admin, role);
      assert LegitAdmin(before, permissionIds, roleIds, admin, role);
    }

    static lemma Seeded(s: Sys, permissionIds: seq<Id>, roleIds: seq<Id>)
      requires |permissionIds| == |BUILT_IN_PERMISSIONS| && |roleIds| == |BUILT_IN_ROLES|
      requires Good(s) && Ops.Distinct(permissionIds) && Ops.Distinct(roleIds)
      requires Ops.SetFrom(permissionIds) !! s.issued && Ops.SetFrom(roleIds) !! s.issued
      ensures Good(Boots.SeedAll(s, permissionIds, roleIds))
      ensures var db := Boots.Seed(s.db, permissionIds, roleIds);
              exists r :: r in db.roles && Boots.IsGlobal(db, r, SYSTEM_ADMIN)
    {
      Boots.SeedWf(s.db, permissionIds, roleIds);
      SeedKeeps(s, permissionIds, roleIds);
      assert SYSTEM_ADMIN in BUILT_IN_ROLES;
      assert Boots.HasGlobal(Boots.Seed(s.db, permissionIds, roleIds), SYSTEM_ADMIN);
    }

    /** The first half, with the system_admin role the seed is sure to leave. */
    method SeedAndForget(permissionIds: seq<Id>, roleIds: seq<Id>) returns (role: Id)
      requires access.store == store && store.Valid()
      requires |permissionIds| == |BUILT_IN_PERMISSIONS| && |roleIds| == |BUILT_IN_ROLES|
      requires Ops.Distinct(permissionIds) && Ops.Distinct(roleIds)
      requires Ops.SetFrom(permissionIds) !! store.issued && Ops.SetFrom(roleIds) !! store.issued
      modifies store, store.redis
      ensures store.Now() == Boots.SeedAll(old(store.Now()), permissionIds, roleIds) && store.Valid()
      ensures store.Cache() == map[] && store.db == Boots.Seed(old(store.db), permissionIds, roleIds)
      ensures store.issued == old(store.issued) + Ops.SetFrom(permissionIds) + Ops.SetFrom(roleIds)
      ensures Boots.IsGlobal(store.db, role, SYSTEM_ADMIN)
    {
      hide Good, CacheOf, Tidy, RoundTrips, PlainIds, Redis.VisibleOf, Boots.Seed, Boots.IsGlobal;
      Seeded(store.Now(), permissionIds, roleIds);
      SeedAccessModel(permissionIds, roleIds);
      StillPlain(old(store.db), store.db);
      access.InvalidateAll();
      role :| role in store.db.roles && Boots.IsGlobal(store.db, role, SYSTEM_ADMIN);
    }

    method SeedAdministrator(email: string, role: Id, newTenant: Id, newUser: Id) returns (ghost admin: Boots.AdminSeed)
      requires tenancy.store == store && store.Ready() && Redis.PlainId(newTenant) && Redis.PlainId(newUser)
      modifies store
      ensures store.Ready() && store.Now() == Boots.SeedAdmin(old(store.Now()), admin, role)
      ensures admin.email == email && admin.newTenant == newTenant && admin.newUser == newUser
      ensures Finds(admin.existing, Ops.ByEmail(old(store.db), email))
      ensures Finds(admin.defaultTenant, DefaultTenants(old(store.db)))
    {
      var all := Ops.ByEmail(store.db, email);
      var existing := None;
      if u :| u in all { existing := Some(u); }
      hide Ops.Enroll, CacheOf, Tidy, RoundTrips;
      var tenant, found := tenancy.BootstrapDefaultTenant(newTenant);
      admin := Boots.AdminSeed(email, existing, found, newTenant, newUser);
      var user := if existing.Some? then existing.value else newUser;
      var row := if user in store.db.users then store.db.users[user].(active := true) else User(Some(email), true);
      store.Enroll(user, row, tenant, {role});
    }
  }
}
