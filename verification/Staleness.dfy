/** Access lookups that overlap with changes: the read of the tables and the write of the cache entry are
    separate steps, and changes and invalidations fall between them. Time is in seconds. */
module Staleness {
  import opened Common
  import opened AccessModel

  const TTL := 300

  /** The tables as they have been since a moment. */
  datatype Version = Version(db: Db, since: nat)

  /** A lookup that missed the cache, with what it read, when, and from which version. */
  datatype Fill = Fill(key: Member, read: Option<UserAccess>, at: nat, version: nat)

  /** A cache entry; `fill` only records where it came from. */
  datatype Entry = Entry(access: UserAccess, expires: nat, fill: Fill)

  datatype State = State(now: nat, versions: seq<Version>, cache: map<Member, Entry>, fills: map<nat, Fill>)

  /** Any change of the tables, any set of deleted entries, in any order. */
  datatype Action =
    | Wait(seconds: nat)
    | Change(db: Db)
    | Invalidate(keys: set<Member>)
    | Read(fill: nat, key: Member)
    | Write(fill: nat)

  function Cached(s: State, key: Member): Option<UserAccess> {
    if key in s.cache && s.now < s.cache[key].expires then Some(s.cache[key].access) else None
  }

  /** `longest` bounds the time between a lookup's read and its write. */
  predicate CanDo(s: State, a: Action, longest: nat) {
    match a
    case Wait(_) => true
    case Change(_) => true
    case Invalidate(_) => true
    case Read(fill, key) => fill !in s.fills && Cached(s, key).None? && s.versions != []
    case Write(fill) => fill in s.fills && s.fills[fill].read.Some? && s.now <= s.fills[fill].at + longest
  }

  function Do(s: State, a: Action, longest: nat): State
    requires CanDo(s, a, longest)
  {
    match a
    case Wait(seconds) => s.(now := s.now + seconds)
    case Change(db) => s.(versions := s.versions + [Version(db, s.now)])
    case Invalidate(keys) => s.(cache := s.cache - keys)
    case Read(fill, key) =>
      var last := |s.versions| - 1;
      s.(fills := s.fills[fill := Fill(key, View(s.versions[last].db, key.user, key.tenant), s.now, last)])
    case Write(fill) =>
      var f := s.fills[fill];
      s.(cache := s.cache[f.key := Entry(f.read.value, s.now + TTL, f)], fills := s.fills - {fill})
  }

  predicate Valid(s: State, run: seq<Action>, longest: nat)
    decreases |run|
  {
    run == [] || (CanDo(s, run[0], longest) && Valid(Do(s, run[0], longest), run[1..], longest))
  }

  function Exec(s: State, run: seq<Action>, longest: nat): State
    requires Valid(s, run, longest)
    decreases |run|
  {
    if run == [] then s else Exec(Do(s, run[0], longest), run[1..], longest)
  }

  function Start(db: Db): State { State(0, [Version(db, 0)], map[], map[]) }

  /** Version `i` was in force at `moment`. */
  predicate InForce(versions: seq<Version>, i: nat, moment: nat) {
    i < |versions| && versions[i].since <= moment && (i + 1 < |versions| ==> moment <= versions[i + 1].since)
  }

  /** What a lookup read was the truth when it read. */
  predicate Truthful(s: State, f: Fill) {
    && f.at <= s.now && InForce(s.versions, f.version, f.at)
    && f.read == View(s.versions[f.version].db, f.key.user, f.key.tenant)
  }

  ghost predicate Inv(s: State, longest: nat) {
    && s.versions != []
    && (forall i :: 0 <= i < |s.versions| ==> s.versions[i].since <= s.now)
    && (forall n :: n in s.fills ==> Truthful(s, s.fills[n]))
    && (forall k :: k in s.cache ==>
         var e := s.cache[k];
         Truthful(s, e.fill) && e.fill.key == k && e.fill.read == Some(e.access) && e.expires <= e.fill.at + longest + TTL)
  }

  lemma InvStep(s: State, a: Action, longest: nat)
    requires Inv(s, longest) && CanDo(s, a, longest)
    ensures Inv(Do(s, a, longest), longest)
  {
    hide View;
    var s' := Do(s, a, longest);
    forall f: Fill | Truthful(s, f) ensures Truthful(s', f) {
      if a.Change? { assert s'.versions[f.version] == s.versions[f.version]; }
    }
  }

  lemma {:induction false} InvRun(s: State, run: seq<Action>, longest: nat)
    requires Inv(s, longest) && Valid(s, run, longest)
    ensures Inv(Exec(s, run, longest), longest)
    decreases |run|
  {
    if run != [] {
      InvStep(s, run[0], longest);
      InvRun(Do(s, run[0], longest), run[1..], longest);
    }
  }

  /** However lookups, changes and invalidations interleave, an answer from the cache was the true access
      at some moment less than 300 seconds plus the longest lookup ago. */
  lemma AnswersWereTrue(db: Db, run: seq<Action>, longest: nat, key: Member)
    requires Valid(Start(db), run, longest)
    requires Cached(Exec(Start(db), run, longest), key).Some?
    ensures var s := Exec(Start(db), run, longest);
            exists i: nat, moment: nat :: InForce(s.versions, i, moment) && moment <= s.now < moment + TTL + longest &&
                                View(s.versions[i].db, key.user, key.tenant) == Cached(s, key)
  {
    InvRun(Start(db), run, longest);
    var s := Exec(Start(db), run, longest);
    var f := s.cache[key].fill;
    assert InForce(s.versions, f.version, f.at);
  }

  /** An answer computed by a lookup itself was true when it read. */
  lemma LookupsWereTrue(db: Db, run: seq<Action>, longest: nat, fill: nat)
    requires Valid(Start(db), run, longest)
    requires fill in Exec(Start(db), run, longest).fills
    ensures Truthful(Exec(Start(db), run, longest), Exec(Start(db), run, longest).fills[fill])
  {
    InvRun(Start(db), run, longest);
  }

  /** So a refusal in the tables (a deactivated tenant, a removed member) reaches the cache by itself, even
      though `TenancyService.remove` invalidates nothing. */
  lemma RefusalReachesTheCache(db: Db, run: seq<Action>, longest: nat, key: Member, since: nat)
    requires Valid(Start(db), run, longest)
    requires var s := Exec(Start(db), run, longest);
             && since + TTL + longest <= s.now
             && forall i: nat, moment: nat :: InForce(s.versions, i, moment) && since <= moment <= s.now ==>
                  View(s.versions[i].db, key.user, key.tenant).None?
    ensures Cached(Exec(Start(db), run, longest), key).None?
  {
    InvRun(Start(db), run, longest);
    var s := Exec(Start(db), run, longest);
    if key in s.cache {
      var f := s.cache[key].fill;
      assert InForce(s.versions, f.version, f.at);
    }
  }

  /** The bound is tight, and coherence does need completed operations: a lookup that reads before a
      change and writes after its invalidation leaves the old access for all that time. */
  lemma OverlappingFillIsStale(before: Db, after: Db, key: Member, longest: nat) returns (run: seq<Action>)
    requires View(before, key.user, key.tenant).Some?
    requires View(after, key.user, key.tenant) != View(before, key.user, key.tenant)
    ensures Valid(Start(before), run, longest)
    ensures var s := Exec(Start(before), run, longest);
            && s.now == TTL + longest - 1
            && s.versions == [Version(before, 0), Version(after, 0)]
            && Cached(s, key) == View(before, key.user, key.tenant)
  {
    hide View;
    var a := [Read(0, key), Change(after), Invalidate({key}), Wait(longest), Write(0), Wait(TTL - 1)];
    var s0 := Start(before);
    var s1 := Do(s0, a[0], longest);
    var s2 := Do(s1, a[1], longest);
    var s3 := Do(s2, a[2], longest);
    var s4 := Do(s3, a[3], longest);
    var s5 := Do(s4, a[4], longest);
    var s6 := Do(s5, a[5], longest);
    run := a;
    assert Valid(s6, a[6..], longest) && Exec(s6, a[6..], longest) == s6;
    assert a[5..][1..] == a[6..] && Valid(s5, a[5..], longest) && Exec(s5, a[5..], longest) == s6;
    assert a[4..][1..] == a[5..] && Valid(s4, a[4..], longest) && Exec(s4, a[4..], longest) == s6;
    assert a[3..][1..] == a[4..] && Valid(s3, a[3..], longest) && Exec(s3, a[3..], longest) == s6;
    assert a[2..][1..] == a[3..] && Valid(s2, a[2..], longest) && Exec(s2, a[2..], longest) == s6;
    assert a[1..][1..] == a[2..] && Valid(s1, a[1..], longest) && Exec(s1, a[1..], longest) == s6;
    assert Exec(s0, a, longest) == s6;
  }
}
