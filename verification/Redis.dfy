/** The Redis commands the services rely on: SET with expiry and NX/XX, DEL, EXISTS, and deletion of
    every key matching a glob through a SCAN loop. */
module Redis {
  import opened Common

  datatype Entry = Entry(value: string, expiresAt: Option<int>)

  datatype SetOptions = SetOptions(ttlSeconds: Option<int>, ttlMilliseconds: Option<int>, nx: bool, xx: bool)

  datatype SetError = InvalidExpire

  /** Glob matching on literals, `*` and `?`. */
  predicate GlobMatch(p: string, s: string)
    decreases |p| + |s|
  {
    if p == [] then s == []
    else if p[0] == '*' then GlobMatch(p[1..], s) || (s != [] && GlobMatch(p, s[1..]))
    else s != [] && (p[0] == '?' || p[0] == s[0]) && GlobMatch(p[1..], s[1..])
  }

  predicate IsGlobChar(c: char) { c == '*' || c == '?' || c == '[' || c == ']' || c == '\\' || c == '^' }

  predicate Literal(s: string) { forall i :: 0 <= i < |s| ==> !IsGlobChar(s[i]) }

  lemma {:induction false} LiteralPrefix(lit: string, p: string, s: string)
    requires Literal(lit)
    ensures GlobMatch(lit + p, s) <==> lit <= s && GlobMatch(p, s[|lit|..])
  {
    if lit == [] {
      assert lit + p == p && s[0..] == s;
    } else {
      assert (lit + p)[1..] == lit[1..] + p;
      if s != [] {
        LiteralPrefix(lit[1..], p, s[1..]);
        assert lit <= s <==> lit[0] == s[0] && lit[1..] <= s[1..];
        assert |lit| <= |s| ==> s[1..][|lit[1..]|..] == s[|lit|..];
      }
    }
  }

  lemma {:induction false} LiteralWhole(lit: string, s: string)
    requires Literal(lit)
    ensures GlobMatch(lit, s) <==> s == lit
  {
    LiteralPrefix(lit, [], s);
    assert lit + [] == lit;
  }

  lemma {:induction false} StarAll(s: string)
    ensures GlobMatch("*", s)
  {
    if s != [] { StarAll(s[1..]); }
  }

  lemma {:induction false} StarSuffix(lit: string, s: string)
    requires Literal(lit)
    ensures GlobMatch("*" + lit, s) <==> |lit| <= |s| && s[|s| - |lit|..] == lit
  {
    assert ("*" + lit)[1..] == lit;
    LiteralWhole(lit, s);
    if s != [] {
      StarSuffix(lit, s[1..]);
      if |lit| <= |s[1..]| { assert s[1..][|s[1..]| - |lit|..] == s[|s| - |lit|..]; }
    }
  }

  // ---------------------------------------------------------------- the access cache's keys

  const ACCESS_PREFIX := "auth:access:"

  predicate PlainId(s: string) { Literal(s) && ':' !in s }

  function CacheKey(tenantId: string, userId: string): string { ACCESS_PREFIX + tenantId + ":" + userId }

  function UserPattern(userId: string): string { ACCESS_PREFIX + "*:" + userId }

  function TenantPattern(tenantId: string): string { ACCESS_PREFIX + tenantId + ":*" }

  const ALL_PATTERN := ACCESS_PREFIX + "*"

  /** Where the first ':' of `a:b` is decided by `a` alone. */
  lemma ColonSplit(a: string, b: string, c: string, d: string)
    requires a + ":" + b == c + ":" + d
    requires (':' !in a && ':' !in c) || (':' !in b && ':' !in d)
    ensures a == c && b == d
  {
    var s, t := a + ":" + b, c + ":" + d;
    assert forall i :: 0 <= i < |a| ==> s[i] == a[i];
    assert forall i :: 0 <= i < |c| ==> t[i] == c[i];
    assert forall i :: |a| < i < |s| ==> s[i] == b[i - |a| - 1];
    assert forall i :: |c| < i < |t| ==> t[i] == d[i - |c| - 1];
    assert s[|a|] == ':' && t[|c|] == ':';
    assert a == s[..|a|] && c == t[..|c|];
    assert b == s[|a| + 1..] && d == t[|c| + 1..];
  }

  /** Every access key is the prefix followed by `tenant:user`. */
  lemma KeyTail(tenantId: string, userId: string)
    ensures var tail := tenantId + ":" + userId;
            CacheKey(tenantId, userId) == ACCESS_PREFIX + tail && CacheKey(tenantId, userId)[|ACCESS_PREFIX|..] == tail
  {
  }

  lemma UserPatternIsExact(u: string, tenantId: string, userId: string)
    requires PlainId(u) && PlainId(userId)
    ensures GlobMatch(UserPattern(u), CacheKey(tenantId, userId)) <==> userId == u
  {
    hide GlobMatch;
    var tail, end := tenantId + ":" + userId, ":" + u;
    KeyTail(tenantId, userId);
    LiteralPrefix(ACCESS_PREFIX, "*" + end, CacheKey(tenantId, userId));
    assert UserPattern(u) == ACCESS_PREFIX + ("*" + end);
    StarSuffix(end, tail);
    if |end| <= |tail| && tail[|tail| - |end|..] == end {
      var head := tail[..|tail| - |end|];
      assert tail == head + ":" + u;
      ColonSplit(tenantId, userId, head, u);
    }
    assert userId == u ==> tail == tenantId + end;
  }

  lemma TenantPatternIsExact(t: string, tenantId: string, userId: string)
    requires PlainId(t) && ':' !in tenantId
    ensures GlobMatch(TenantPattern(t), CacheKey(tenantId, userId)) <==> tenantId == t
  {
    hide GlobMatch;
    var tail, bound := tenantId + ":" + userId, t + ":";
    KeyTail(tenantId, userId);
    LiteralPrefix(ACCESS_PREFIX, bound + "*", CacheKey(tenantId, userId));
    assert TenantPattern(t) == ACCESS_PREFIX + (bound + "*");
    LiteralPrefix(bound, "*", tail);
    if bound <= tail {
      var rest := tail[|bound|..];
      StarAll(rest);
      assert tail == t + ":" + rest;
      ColonFirst(tenantId, userId, t, rest);
    }
    assert tenantId == t ==> tail == bound + userId;
  }

  /** The three invalidation patterns select exactly the entries of the user, of the tenant, of
      everybody. */
  lemma PatternsAreExact(t: string, u: string, tenantId: string, userId: string)
    requires PlainId(t) && PlainId(u) && PlainId(tenantId) && PlainId(userId)
    ensures GlobMatch(UserPattern(u), CacheKey(tenantId, userId)) <==> userId == u
    ensures GlobMatch(TenantPattern(t), CacheKey(tenantId, userId)) <==> tenantId == t
    ensures GlobMatch(ALL_PATTERN, CacheKey(tenantId, userId))
  {
    UserPatternIsExact(u, tenantId, userId);
    TenantPatternIsExact(t, tenantId, userId);
    KeyTail(tenantId, userId);
    LiteralPrefix(ACCESS_PREFIX, "*", CacheKey(tenantId, userId));
    StarAll(tenantId + ":" + userId);
  }

  lemma ColonFirst(a: string, b: string, c: string, d: string)
    requires a + ":" + b == c + ":" + d && ':' !in a && ':' !in c
    ensures a == c
  {
    ColonSplit(a, b, c, d);
  }

  /** No pattern reaches a key outside the access cache. */
  lemma PatternsStayInside(rest: string, key: string)
    requires GlobMatch(ACCESS_PREFIX + rest, key)
    ensures ACCESS_PREFIX <= key
  {
    LiteralPrefix(ACCESS_PREFIX, rest, key);
  }

  // ---------------------------------------------------------------- the store

  /** One answer of SCAN: the next cursor and some of the keys that match. */
  datatype Page = Page(cursor: string, keys: seq<string>)

  /** What SCAN promises of a whole iteration over keys present throughout: it ends with cursor "0",
      reports only matching keys, possibly more than once, and misses none. */
  ghost predicate FullScan(pages: seq<Page>, pattern: string, present: set<string>) {
    && pages != []
    && (forall i :: 0 <= i < |pages| ==> (pages[i].cursor == "0" <==> i == |pages| - 1))
    && (forall i, k :: 0 <= i < |pages| && k in pages[i].keys ==> GlobMatch(pattern, k))
    && (forall k :: k in present && GlobMatch(pattern, k) ==> exists i :: 0 <= i < |pages| && k in pages[i].keys)
  }

  function Matching(keys: set<string>, pattern: string): set<string> { set k | k in keys && GlobMatch(pattern, k) }

  function SetOf(keys: seq<string>): set<string> { set k | k in keys }

  function VisibleOf(entries: map<string, Entry>, now: int): set<string> {
    set k | k in entries && (entries[k].expiresAt.None? || now < entries[k].expiresAt.value)
  }

  /** Keys of other kinds (flags, locks, revocation markers) are left alone. */
  ghost predicate OnlyAccessKeys(entries: map<string, Entry>, entries': map<string, Entry>, now: int) {
    && (forall k :: k in entries && !(ACCESS_PREFIX <= k) ==> k in entries' && entries'[k] == entries[k])
    && (forall k :: k in VisibleOf(entries', now) && !(ACCESS_PREFIX <= k) ==> k in VisibleOf(entries, now))
  }

  lemma VisibleAfterDelete(entries: map<string, Entry>, now: int, gone: set<string>)
    ensures VisibleOf(entries - gone, now) == VisibleOf(entries, now) - gone
  {
  }

  lemma DeleteTwice(entries: map<string, Entry>, a: set<string>, b: set<string>)
    ensures (entries - a) - b == entries - (a + b)
  {
  }

  lemma NothingReported(entries: map<string, Entry>, visible: set<string>)
    ensures entries - {} == entries && visible * {} == {} && SetOf([]) == {}
  {
  }

  lemma MinusMeet(all: set<string>, some: set<string>)
    ensures all - some == all - all * some
  {
  }

  lemma OnePage(keys: seq<string>, pattern: string, present: set<string>)
    requires SetOf(keys) == Matching(present, pattern)
    ensures FullScan([Page("0", keys)], pattern, present)
  {
    var pages := [Page("0", keys)];
    assert pages[0].keys == keys;
    forall k | k in keys ensures GlobMatch(pattern, k) { assert k in SetOf(keys); }
    forall k | k in present && GlobMatch(pattern, k) ensures exists i :: 0 <= i < |pages| && k in pages[i].keys {
      assert k in Matching(present, pattern);
    }
  }

  class RedisService {
    var entries: map<string, Entry>
    var now: nat     // milliseconds

    predicate Live(k: string)
      reads this
    {
      k in entries && (entries[k].expiresAt.None? || now < entries[k].expiresAt.value)
    }

    /** The keys a client can see. */
    function Visible(): set<string>
      reads this
    {
      VisibleOf(entries, now)
    }

    method Get(key: string) returns (v: Option<string>)
      ensures v == if Live(key) then Some(entries[key].value) else None
    {
      v := if Live(key) then Some(entries[key].value) else None;
    }

    method Exists(key: string) returns (b: bool)
      ensures b <==> key in Visible()
    {
      b := Live(key);
    }

    /** DEL: returns how many of the keys were there. */
    method Delete(keys: seq<string>) returns (count: nat)
      modifies this`entries
      ensures entries == old(entries) - SetOf(keys) && count == |old(Visible()) * SetOf(keys)|
      ensures Visible() == old(Visible()) - SetOf(keys)
    {
      count := |Visible() * SetOf(keys)|;
      entries := entries - SetOf(keys);
    }

    /** The keys of one SCAN answer; an empty answer sends no command. */
    method DeleteBatch(keys: seq<string>) returns (count: nat)
      modifies this`entries
      ensures entries == old(entries) - SetOf(keys) && count == |VisibleOf(old(entries), now) * SetOf(keys)|
    {
      count := 0;
      NothingReported(entries, VisibleOf(entries, now));
      if keys != [] { count := Delete(keys); }
    }

    /** When the value set with these options expires. */
    function Expiry(o: SetOptions): Option<int>
      reads this`now
    {
      if o.ttlSeconds.Some? then Some(now + 1000 * o.ttlSeconds.value)
      else if o.ttlMilliseconds.Some? then Some(now + o.ttlMilliseconds.value)
      else None
    }

    /** One SET command: `require` is the NX (Some(false)) or XX (Some(true)) condition. */
    method Command(key: string, value: string, expiry: Option<int>, require: Option<bool>)
      returns (r: Result<bool, SetError>)
      modifies this`entries
      ensures r == if expiry.Some? && expiry.value <= now then Err(InvalidExpire)
                   else Ok(require.None? || require.value == (key in old(Visible())))
      ensures entries == if r == Ok(true) then old(entries)[key := Entry(value, expiry)] else old(entries)
    {
      if expiry.Some? && expiry.value <= now { return Err(InvalidExpire); }
      if require.Some? && require.value != Live(key) { return Ok(false); }
      entries := entries[key := Entry(value, expiry)];
      r := Ok(true);
    }

    /** `setWithOptions`: NX wins over XX, seconds win over milliseconds. */
    method SetWithOptions(key: string, value: string, o: SetOptions) returns (r: Result<bool, SetError>)
      modifies this`entries
      ensures r.Ok? <==> Expiry(o).None? || now < Expiry(o).value
      ensures r.Ok? ==> r.value == if o.nx then key !in old(Visible()) else if o.xx then key in old(Visible()) else true
      ensures entries == if r == Ok(true) then old(entries)[key := Entry(value, Expiry(o))] else old(entries)
    {
      if o.ttlSeconds.Some? && o.nx {
        r := Command(key, value, Some(now + 1000 * o.ttlSeconds.value), Some(false));
      } else if o.ttlSeconds.Some? && o.xx {
        r := Command(key, value, Some(now + 1000 * o.ttlSeconds.value), Some(true));
      } else if o.ttlMilliseconds.Some? && o.nx {
        r := Command(key, value, Some(now + o.ttlMilliseconds.value), Some(false));
      } else if o.ttlMilliseconds.Some? && o.xx {
        r := Command(key, value, Some(now + o.ttlMilliseconds.value), Some(true));
      } else if o.ttlSeconds.Some? {
        r := Command(key, value, Some(now + 1000 * o.ttlSeconds.value), None);
      } else if o.ttlMilliseconds.Some? {
        r := Command(key, value, Some(now + o.ttlMilliseconds.value), None);
      } else if o.nx {
        r := Command(key, value, None, Some(false));
      } else if o.xx {
        r := Command(key, value, None, Some(true));
      } else {
        r := Command(key, value, None, None);
      }
    }

    /** A whole iteration of SCAN. Callers know of it what SCAN promises, and no more. */
    method Scan(pattern: string) returns (pages: seq<Page>)
      ensures FullScan(pages, pattern, Visible())
    {
      var left, keys := Matching(Visible(), pattern), [];
      while left != {}
        invariant SetOf(keys) + left == Matching(Visible(), pattern)
      {
        var k :| k in left;
        left, keys := left - {k}, keys + [k];
      }
      pages := [Page("0", keys)];
      OnePage(keys, pattern, Visible());
    }

    /** Deletes every key matching `pattern`; `pages` are the answers of SCAN. */
    method DeleteByPattern(pattern: string, pages: seq<Page>) returns (deleted: nat)
      requires FullScan(pages, pattern, Visible())
      modifies this`entries
      ensures Visible() == old(Visible()) - Matching(old(Visible()), pattern)
      ensures deleted == |Matching(old(Visible()), pattern)|
      ensures forall k :: k in old(entries) && !GlobMatch(pattern, k) ==> k in entries && entries[k] == old(entries)[k]
    {
      ScanSeesAll(pages, pattern, Visible());
      hide VisibleOf, FullScan, GlobMatch, Matching, Reported, SetOf;
      deleted := 0;
      var i := 0;
      var cursor := "0";
      ghost var before, seen := entries, Reported(pages[..0]);
      NothingReported(entries, VisibleOf(entries, now));
      while true
        invariant 0 <= i < |pages|
        invariant seen == Reported(pages[..i]) && entries == before - seen
        invariant deleted == |VisibleOf(before, now) * seen|
        decreases |pages| - i
      {
        var page := pages[i];
        cursor := page.cursor;
        ghost var keys := SetOf(page.keys);
        ReportedNext(pages, i);
        VisibleAfterDelete(before, now, seen);
        DeleteTwice(before, seen, keys);
        CardSplit(VisibleOf(before, now), seen, keys);
        var n := DeleteBatch(page.keys);
        deleted := deleted + n;
        seen := seen + keys;
        if cursor == "0" { break; }
        i := i + 1;
      }
      assert pages[..i + 1] == pages;
      VisibleAfterDelete(before, now, seen);
      MinusMeet(VisibleOf(before, now), seen);
    }
  }

  /** All keys reported by a sequence of SCAN answers. */
  ghost function Reported(pages: seq<Page>): set<string> {
    if pages == [] then {} else Reported(pages[..|pages| - 1]) + SetOf(pages[|pages| - 1].keys)
  }

  lemma ReportedNext(pages: seq<Page>, i: nat)
    requires i < |pages|
    ensures Reported(pages[..i + 1]) == Reported(pages[..i]) + SetOf(pages[i].keys)
    ensures Reported([]) == {} && pages[..0] == []
  {
    assert pages[..i + 1][..i] == pages[..i];
  }

  lemma {:induction false} ReportedKeys(pages: seq<Page>, k: string)
    ensures k in Reported(pages) <==> exists i :: 0 <= i < |pages| && k in pages[i].keys
  {
    if pages != [] {
      var init := pages[..|pages| - 1];
      ReportedKeys(init, k);
      if i :| 0 <= i < |pages| && k in pages[i].keys && i < |init| { assert k in init[i].keys; }
    }
  }

  lemma ScanSeesAll(pages: seq<Page>, pattern: string, present: set<string>)
    requires FullScan(pages, pattern, present)
    ensures present * Reported(pages) == Matching(present, pattern)
    ensures forall k :: k in Reported(pages) ==> GlobMatch(pattern, k)
    ensures pages != [] && Reported(pages[..0]) == {}
    ensures forall i :: 0 <= i < |pages| ==> (pages[i].cursor == "0" <==> i == |pages| - 1)
  {
    forall k ensures k in Reported(pages) <==> exists i :: 0 <= i < |pages| && k in pages[i].keys {
      ReportedKeys(pages, k);
    }
  }

  lemma CardSplit(all: set<string>, a: set<string>, b: set<string>)
    ensures |all * (a + b)| == |all * a| + |(all - a) * b|
  {
    assert all * (a + b) == all * a + (all - a) * b;
  }
}
