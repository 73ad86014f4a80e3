/** The access cache as Redis holds it: one key per member and a JSON text for its access, read back as a
    map from members to their access. */
module AccessCache {
  import opened Common
  import opened Redis
  import opened AccessModel

  const TTL_SECONDS := 300

  /** `JSON.stringify` and `JSON.parse` on access records. */
  datatype Json = Json(stringify: UserAccess -> string, parse: string -> UserAccess)

  ghost predicate RoundTrips(json: Json) {
    forall a: UserAccess :: json.parse(json.stringify(a)) == a && json.stringify(a) != ""
  }

  /** Ids are generated: no glob characters and no ':'. */
  predicate Plain(m: Member) { PlainId(m.tenant) && PlainId(m.user) }

  function KeyOf(m: Member): string { CacheKey(m.tenant, m.user) }

  ghost predicate Names(key: string, m: Member) { Plain(m) && key == KeyOf(m) }

  ghost predicate IsAccessKey(key: string) { exists m :: Names(key, m) }

  ghost function MemberOf(key: string): (m: Member)
    requires IsAccessKey(key)
    ensures Names(key, m)
  {
    var m :| Names(key, m); m
  }

  /** A key names one member, even if the other ids are not plain. */
  lemma KeyNamesOne(m: Member, other: Member)
    requires Plain(m) && KeyOf(m) == KeyOf(other)
    ensures m == other
  {
    KeyTail(m.tenant, m.user);
    KeyTail(other.tenant, other.user);
    var a, b := m.tenant + ":" + m.user, other.tenant + ":" + other.user;
    assert a == b;
    OneColon(m.tenant, m.user, other.tenant, other.user);
  }

  lemma OneColon(a: string, b: string, c: string, d: string)
    requires a + ":" + b == c + ":" + d && ':' !in a && ':' !in b
    ensures a == c && b == d
  {
    var s := a + ":" + b;
    assert s == c + ":" + d;
    assert s[|c|] == ':';
    assert forall i :: 0 <= i < |a| ==> s[i] == a[i];
    assert forall i :: |a| < i < |s| ==> s[i] == b[i - |a| - 1];
    assert |c| == |a|;
    assert a == s[..|a|] == c && b == s[|a| + 1..] == d;
  }

  /** The members with a visible entry. */
  ghost function Members(visible: set<string>): set<Member> {
    set key | key in visible && IsAccessKey(key) :: MemberOf(key)
  }

  lemma MembersAt(visible: set<string>, m: Member)
    ensures m in Members(visible) <==> Plain(m) && KeyOf(m) in visible
  {
    if Plain(m) && KeyOf(m) in visible {
      assert Names(KeyOf(m), m);
      KeyNamesOne(m, MemberOf(KeyOf(m)));
    }
  }

  /** The cache a client sees in these entries. */
  ghost function CacheOf(entries: map<string, Entry>, now: int, json: Json): map<Member, UserAccess> {
    map m | m in Members(VisibleOf(entries, now)) && KeyOf(m) in entries :: json.parse(entries[KeyOf(m)].value)
  }

  lemma CacheAt(entries: map<string, Entry>, now: int, json: Json, m: Member)
    ensures m in CacheOf(entries, now, json) <==> Plain(m) && KeyOf(m) in VisibleOf(entries, now)
    ensures m in CacheOf(entries, now, json) ==>
              KeyOf(m) in entries && CacheOf(entries, now, json)[m] == json.parse(entries[KeyOf(m)].value)
  {
    MembersAt(VisibleOf(entries, now), m);
  }

  lemma Prefixed(m: Member)
    ensures ACCESS_PREFIX <= KeyOf(m)
  {
    KeyTail(m.tenant, m.user);
    assert KeyOf(m)[..|ACCESS_PREFIX|] == ACCESS_PREFIX;
  }

  ghost predicate NoEntries(entries: map<string, Entry>, now: int) {
    forall k :: k in VisibleOf(entries, now) ==> !(ACCESS_PREFIX <= k)
  }

  lemma NoneYet(entries: map<string, Entry>, now: int, json: Json)
    requires NoEntries(entries, now)
    ensures CacheOf(entries, now, json) == map[] && Tidy(entries, now)
  {
    forall m ensures m !in CacheOf(entries, now, json) {
      CacheAt(entries, now, json, m);
      Prefixed(m);
    }
  }

  /** Nothing but non-empty entries of members is kept under the prefix. */
  ghost predicate Tidy(entries: map<string, Entry>, now: int) {
    forall key :: key in VisibleOf(entries, now) && ACCESS_PREFIX <= key ==> IsAccessKey(key) && entries[key].value != ""
  }

  /** Looking up a key is looking up its member, whatever the ids. */
  lemma LookupAt(entries: map<string, Entry>, now: int, json: Json, m: Member)
    requires Tidy(entries, now)
    ensures m in CacheOf(entries, now, json) <==> KeyOf(m) in VisibleOf(entries, now)
    ensures m in CacheOf(entries, now, json) ==>
              CacheOf(entries, now, json)[m] == json.parse(entries[KeyOf(m)].value) && entries[KeyOf(m)].value != ""
  {
    CacheAt(entries, now, json, m);
    if KeyOf(m) in VisibleOf(entries, now) {
      KeyTail(m.tenant, m.user);
      KeyNamesOne(MemberOf(KeyOf(m)), m);
    }
  }

  /** Two stores show the same cache when they agree on the keys of members. */
  lemma SameCache(entries: map<string, Entry>, now: int, json: Json, cache: map<Member, UserAccess>)
    requires forall m: Member :: m in cache <==> Plain(m) && KeyOf(m) in VisibleOf(entries, now)
    requires forall m: Member :: m in cache ==> KeyOf(m) in entries && cache[m] == json.parse(entries[KeyOf(m)].value)
    ensures CacheOf(entries, now, json) == cache
  {
    forall m: Member
      ensures m in CacheOf(entries, now, json) <==> m in cache
      ensures m in cache ==> CacheOf(entries, now, json)[m] == cache[m]
    {
      CacheAt(entries, now, json, m);
    }
  }

  /** A fresh entry under the key of a member is a new value of that member. */
  lemma AfterSet(entries: map<string, Entry>, now: int, json: Json, m: Member, a: UserAccess, expiry: int)
    requires RoundTrips(json) && Plain(m) && now < expiry
    ensures var entries' := entries[KeyOf(m) := Entry(json.stringify(a), Some(expiry))];
            && CacheOf(entries', now, json) == CacheOf(entries, now, json)[m := a]
            && (Tidy(entries, now) ==> Tidy(entries', now))
  {
    var entries' := entries[KeyOf(m) := Entry(json.stringify(a), Some(expiry))];
    assert Names(KeyOf(m), m);
    forall n: Member
      ensures n in CacheOf(entries, now, json)[m := a] <==> Plain(n) && KeyOf(n) in VisibleOf(entries', now)
      ensures n in CacheOf(entries, now, json)[m := a] ==>
                KeyOf(n) in entries' && CacheOf(entries, now, json)[m := a][n] == json.parse(entries'[KeyOf(n)].value)
    {
      CacheAt(entries, now, json, n);
      if KeyOf(n) == KeyOf(m) { KeyNamesOne(m, n); }
    }
    SameCache(entries', now, json, CacheOf(entries, now, json)[m := a]);
  }

  /** Deleting keys deletes the members they name, and changes nothing about the others. */
  lemma AfterDelete(entries: map<string, Entry>, entries': map<string, Entry>, now: int, json: Json, gone: set<string>)
    requires VisibleOf(entries', now) == VisibleOf(entries, now) - gone
    requires forall k :: k in entries && k !in gone ==> k in entries' && entries'[k] == entries[k]
    ensures CacheOf(entries', now, json) ==
            map m | m in CacheOf(entries, now, json) && KeyOf(m) !in gone :: CacheOf(entries, now, json)[m]
    ensures Tidy(entries, now) ==> Tidy(entries', now)
  {
    var cache := CacheOf(entries, now, json);
    var left := map m | m in cache && KeyOf(m) !in gone :: cache[m];
    forall m: Member
      ensures m in left <==> Plain(m) && KeyOf(m) in VisibleOf(entries', now)
      ensures m in left ==> KeyOf(m) in entries' && left[m] == json.parse(entries'[KeyOf(m)].value)
    {
      CacheAt(entries, now, json, m);
    }
    SameCache(entries', now, json, left);
  }

  /** What deleting by the three patterns leaves of the cache. */
  lemma AfterPattern(entries: map<string, Entry>, entries': map<string, Entry>, now: int, json: Json, pattern: string)
    requires VisibleOf(entries', now) == VisibleOf(entries, now) - Matching(VisibleOf(entries, now), pattern)
    requires forall k :: k in entries && !GlobMatch(pattern, k) ==> k in entries' && entries'[k] == entries[k]
    ensures CacheOf(entries', now, json) ==
            map m | m in CacheOf(entries, now, json) && !GlobMatch(pattern, KeyOf(m)) :: CacheOf(entries, now, json)[m]
    ensures Tidy(entries, now) ==> Tidy(entries', now)
  {
  }

  /** Deleting one key forgets one member. */
  lemma AfterDeleteOne(entries: map<string, Entry>, now: int, json: Json, m: Member)
    requires Tidy(entries, now)
    ensures CacheOf(entries - {KeyOf(m)}, now, json) == CacheOf(entries, now, json) - {m}
    ensures Tidy(entries - {KeyOf(m)}, now)
  {
    VisibleAfterDelete(entries, now, {KeyOf(m)});
    hide CacheOf, Tidy, VisibleOf, KeyOf;
    AfterDelete(entries, entries - {KeyOf(m)}, now, json, {KeyOf(m)});
    CachedArePlain(entries, now, json);
    forall n: Member | n in CacheOf(entries, now, json) && KeyOf(n) == KeyOf(m) ensures n == m { KeyNamesOne(n, m); }
  }

  lemma CachedArePlain(entries: map<string, Entry>, now: int, json: Json)
    ensures forall m :: m in CacheOf(entries, now, json) ==> Plain(m)
  {
    forall m | m in CacheOf(entries, now, json) ensures Plain(m) { CacheAt(entries, now, json, m); }
  }

  lemma Patterns(id: Id)
    ensures UserPattern(id) == ACCESS_PREFIX + ("*:" + id) && TenantPattern(id) == ACCESS_PREFIX + (id + ":*")
  {
  }

  lemma TenantPatternDrops(cache: map<Member, UserAccess>, tenant: Id)
    requires PlainId(tenant) && forall m :: m in cache ==> Plain(m)
    ensures (map m | m in cache && !GlobMatch(TenantPattern(tenant), KeyOf(m)) :: cache[m]) ==
            map m | m in cache && m.tenant != tenant :: cache[m]
  {
    forall m: Member | Plain(m) ensures GlobMatch(TenantPattern(tenant), KeyOf(m)) <==> m.tenant == tenant {
      TenantPatternIsExact(tenant, m.tenant, m.user);
    }
  }

  lemma UserPatternDrops(cache: map<Member, UserAccess>, user: Id)
    requires PlainId(user) && forall m :: m in cache ==> Plain(m)
    ensures (map m | m in cache && !GlobMatch(UserPattern(user), KeyOf(m)) :: cache[m]) ==
            map m | m in cache && m.user != user :: cache[m]
  {
    forall m: Member | Plain(m) ensures GlobMatch(UserPattern(user), KeyOf(m)) <==> m.user == user {
      UserPatternIsExact(user, m.tenant, m.user);
    }
  }

  lemma AllPatternDrops(cache: map<Member, UserAccess>)
    requires forall m :: m in cache ==> Plain(m)
    ensures (map m | m in cache && !GlobMatch(ALL_PATTERN, KeyOf(m)) :: cache[m]) == map[]
  {
    forall m: Member | Plain(m) ensures GlobMatch(ALL_PATTERN, KeyOf(m)) {
      PatternsAreExact(m.tenant, m.user, m.tenant, m.user);
    }
  }

  lemma VisibleOther(entries: map<string, Entry>, now: int, key: string, entry: Entry)
    ensures forall k :: k != key ==> (k in VisibleOf(entries[key := entry], now) <==> k in VisibleOf(entries, now))
  {
  }

  /** Keys of other kinds do not show in the cache. */
  lemma AfterOther(entries: map<string, Entry>, now: int, json: Json, key: string, entry: Entry)
    requires !(ACCESS_PREFIX <= key)
    ensures CacheOf(entries[key := entry], now, json) == CacheOf(entries, now, json)
    ensures Tidy(entries, now) ==> Tidy(entries[key := entry], now)
  {
    var cache := CacheOf(entries, now, json);
    VisibleOther(entries, now, key, entry);
    hide VisibleOf, CacheOf, IsAccessKey, KeyOf;
    forall m: Member
      ensures m in cache <==> Plain(m) && KeyOf(m) in VisibleOf(entries[key := entry], now)
      ensures m in cache ==> KeyOf(m) in entries[key := entry] && cache[m] == json.parse(entries[key := entry][KeyOf(m)].value)
    {
      CacheAt(entries, now, json, m);
      Prefixed(m);
    }
    SameCache(entries[key := entry], now, json, cache);
  }
}
