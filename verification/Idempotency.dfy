/** The processed flag and the processing lock as Redis keys. */
module Idempotency {
  import opened Common
  import opened Redis
  import Pipeline

  const PROCESSED_PREFIX := "event:processed:"
  const PROCESSING_PREFIX := "event:processing:"
  const FLAG_SECONDS := 86400 * 7
  const LOCK_SECONDS := 300

  function ProcessedKey(eventId: string, routingKey: string): string { PROCESSED_PREFIX + routingKey + ":" + eventId }

  function ProcessingKey(eventId: string, routingKey: string): string { PROCESSING_PREFIX + routingKey + ":" + eventId }

  /** A ':' inside the one event id has been read as the end of the other's routing key. */
  ghost predicate Shifted(e: string, k: string, e': string, k': string) {
    exists x :: k' == k + ":" + x && e == x + ":" + e'
  }

  /** Two pairs share a flag or a lock exactly when they are the same, or one id begins with what the other
      key ends in, up to a ':'; a flag is never a lock. */
  lemma KeysAreInjective(e: string, k: string, e': string, k': string)
    ensures ProcessedKey(e, k) == ProcessedKey(e', k') <==>
              (e == e' && k == k') || Shifted(e, k, e', k') || Shifted(e', k', e, k)
    ensures ProcessingKey(e, k) == ProcessingKey(e', k') <==> ProcessedKey(e, k) == ProcessedKey(e', k')
    ensures ProcessedKey(e, k) != ProcessingKey(e', k')
  {
    var tail, tail' := k + ":" + e, k' + ":" + e';
    assert ProcessedKey(e, k) == PROCESSED_PREFIX + tail && ProcessedKey(e', k') == PROCESSED_PREFIX + tail';
    assert ProcessingKey(e, k) == PROCESSING_PREFIX + tail && ProcessingKey(e', k') == PROCESSING_PREFIX + tail';
    assert ProcessedKey(e, k)[|PROCESSED_PREFIX|..] == tail && ProcessedKey(e', k')[|PROCESSED_PREFIX|..] == tail';
    assert ProcessingKey(e, k)[|PROCESSING_PREFIX|..] == tail && ProcessingKey(e', k')[|PROCESSING_PREFIX|..] == tail';
    assert ProcessedKey(e, k)[13] == 'e' && ProcessingKey(e', k')[13] == 'i';
    SameTail(e, k, e', k');
  }

  lemma SameTail(e: string, k: string, e': string, k': string)
    ensures k + ":" + e == k' + ":" + e' <==> (e == e' && k == k') || Shifted(e, k, e', k') || Shifted(e', k', e, k)
  {
    if k + ":" + e == k' + ":" + e' {
      if |k| <= |k'| { Overlap(e, k, e', k'); } else { Overlap(e', k', e, k); }
    }
    if Shifted(e, k, e', k') { Joined(e, k, e', k'); }
    if Shifted(e', k', e, k) { Joined(e', k', e, k); }
  }

  lemma Overlap(e: string, k: string, e': string, k': string)
    requires k + ":" + e == k' + ":" + e' && |k| <= |k'|
    ensures (e == e' && k == k') || Shifted(e, k, e', k')
  {
    var s, t := k + ":" + e, k' + ":" + e';
    assert s[..|k|] == k && t[..|k'|] == k' && s[|k|] == ':';
    assert s[|k| + 1..] == e && t[|k'| + 1..] == e';
    if |k| < |k'| {
      var x := k'[|k| + 1..];
      assert k' == k'[..|k|] + [k'[|k|]] + x;
      assert k'[..|k|] == k && k'[|k|] == ':';
      assert e == s[|k| + 1..|k'|] + [s[|k'|]] + s[|k'| + 1..];
      assert s[|k| + 1..|k'|] == x && s[|k'|] == t[|k'|] == ':';
      assert k' == k + ":" + x && e == x + ":" + e';
    }
  }

  lemma Joined(e: string, k: string, e': string, k': string)
    requires Shifted(e, k, e', k')
    ensures k + ":" + e == k' + ":" + e'
  {
    var x :| k' == k + ":" + x && e == x + ":" + e';
    assert k + ":" + (x + ":" + e') == (k + ":" + x) + ":" + e';
  }

  /** Ids free of ':' (generated ids are) never collide. */
  lemma PlainKeysDiffer(e: string, k: string, e': string, k': string)
    requires ':' !in e && ':' !in e'
    ensures ProcessedKey(e, k) == ProcessedKey(e', k') <==> e == e' && k == k'
    ensures ProcessingKey(e, k) == ProcessingKey(e', k') <==> e == e' && k == k'
    ensures ProcessedKey(e, k) != ProcessingKey(e', k')
  {
    KeysAreInjective(e, k, e', k');
    if Shifted(e, k, e', k') { ShiftedHasColon(e, k, e', k'); }
    if Shifted(e', k', e, k) { ShiftedHasColon(e', k', e, k); }
  }

  lemma ShiftedHasColon(e: string, k: string, e': string, k': string)
    requires Shifted(e, k, e', k')
    ensures ':' in e
  {
    var x :| k' == k + ":" + x && e == x + ":" + e';
    assert e[|x|] == ':';
  }

  /** With ':' allowed in ids the pair is no longer recoverable. */
  lemma ColonsCollide()
    ensures ProcessedKey("b:c", "a") == ProcessedKey("c", "a:b")
  {
  }

  // ---------------------------------------------------------------- the machine's flags and locks

  function KeyFor(eventId: string, routingKey: string): Pipeline.Key { Pipeline.Key(routingKey, Pipeline.Event(eventId)) }

  /** The visible keys are the flags and the locks of the pipeline machine, for ids free of ':'. */
  ghost predicate Shows(visible: set<string>, s: Pipeline.State) {
    && (forall e, k :: ':' !in e ==> (ProcessedKey(e, k) in visible <==> KeyFor(e, k) in s.flags))
    && (forall e, k :: ':' !in e ==> (ProcessingKey(e, k) in visible <==> KeyFor(e, k) in s.locks))
  }

  lemma FlagShows(visible: set<string>, s: Pipeline.State, e: string, k: string)
    requires Shows(visible, s) && ':' !in e
    ensures Shows(visible + {ProcessedKey(e, k)}, Pipeline.SetFlag(s, KeyFor(e, k), Pipeline.Answered))
  {
    forall e', k' | ':' !in e'
      ensures ProcessedKey(e', k') == ProcessedKey(e, k) <==> KeyFor(e', k') == KeyFor(e, k)
      ensures ProcessingKey(e', k') != ProcessedKey(e, k)
    {
      PlainKeysDiffer(e, k, e', k');
    }
  }

  lemma LockShows(visible: set<string>, s: Pipeline.State, e: string, k: string, w: nat)
    requires Shows(visible, s) && ':' !in e
    ensures Shows(visible + {ProcessingKey(e, k)}, s.(locks := s.locks[KeyFor(e, k) := w]))
    ensures Shows(visible - {ProcessingKey(e, k)}, Pipeline.DropLock(s, KeyFor(e, k), Pipeline.Answered))
  {
    forall e', k' | ':' !in e'
      ensures ProcessingKey(e', k') == ProcessingKey(e, k) <==> KeyFor(e', k') == KeyFor(e, k)
      ensures ProcessingKey(e, k) != ProcessedKey(e', k')
    {
      PlainKeysDiffer(e', k', e, k);
      PlainKeysDiffer(e, k, e', k');
    }
  }

  lemma LockAt(visible: set<string>, s: Pipeline.State, e: string, k: string)
    requires Shows(visible, s) && ':' !in e
    ensures ProcessingKey(e, k) in visible <==> KeyFor(e, k) in s.locks
  {
  }

  function Seconds(n: int, nx: bool): SetOptions { SetOptions(Some(n), None, nx, false) }

  class IdempotencyService {
    const redis: RedisService

    constructor (redis: RedisService)
      ensures this.redis == redis
    {
      this.redis := redis;
    }

    method IsProcessed(eventId: string, routingKey: string) returns (b: bool)
      ensures b <==> ProcessedKey(eventId, routingKey) in redis.Visible()
      ensures forall s :: Shows(redis.Visible(), s) && ':' !in eventId ==> (b <==> KeyFor(eventId, routingKey) in s.flags)
    {
      b := redis.Exists(ProcessedKey(eventId, routingKey));
    }

    /** The flag is up for seven days, and no other key changes: the machine's flag is set. */
    method MarkProcessed(eventId: string, routingKey: string)
      modifies redis`entries
      ensures redis.entries == old(redis.entries)[ProcessedKey(eventId, routingKey) := Entry("1", Some(redis.now + 1000 * FLAG_SECONDS))]
      ensures redis.Visible() == old(redis.Visible()) + {ProcessedKey(eventId, routingKey)}
      ensures forall s :: Shows(old(redis.Visible()), s) && ':' !in eventId ==>
                Shows(redis.Visible(), Pipeline.SetFlag(s, KeyFor(eventId, routingKey), Pipeline.Answered))
    {
      hide Shows;
      ghost var before := redis.Visible();
      var r := redis.SetWithOptions(ProcessedKey(eventId, routingKey), "1", Seconds(FLAG_SECONDS, false));
      assert r == Ok(true);
      assert redis.Visible() == before + {ProcessedKey(eventId, routingKey)};
      forall s | Shows(before, s) && ':' !in eventId
        ensures Shows(redis.Visible(), Pipeline.SetFlag(s, KeyFor(eventId, routingKey), Pipeline.Answered))
      {
        FlagShows(before, s, eventId, routingKey);
      }
    }

    /** Taken exactly when nobody holds it, for at most 300 seconds: the machine's lock is set, with delivery `w`
        as its holder. */
    method AcquireProcessingLock(eventId: string, routingKey: string, ghost w: nat) returns (taken: bool)
      modifies redis`entries
      ensures taken <==> ProcessingKey(eventId, routingKey) !in old(redis.Visible())
      ensures redis.Visible() == old(redis.Visible()) + {ProcessingKey(eventId, routingKey)}
      ensures redis.entries ==
              if taken then old(redis.entries)[ProcessingKey(eventId, routingKey) := Entry("1", Some(redis.now + 1000 * LOCK_SECONDS))]
              else old(redis.entries)
      ensures forall s :: Shows(old(redis.Visible()), s) && ':' !in eventId ==>
                var key := KeyFor(eventId, routingKey);
                && (taken <==> key !in s.locks)
                && Shows(redis.Visible(), if taken then s.(locks := s.locks[key := w]) else s)
    {
      hide Shows;
      ghost var before := redis.Visible();
      var r := redis.SetWithOptions(ProcessingKey(eventId, routingKey), "1", Seconds(LOCK_SECONDS, true));
      assert r.Ok?;
      taken := r.value;
      assert redis.Visible() == before + {ProcessingKey(eventId, routingKey)};
      forall s | Shows(before, s) && ':' !in eventId
        ensures taken <==> KeyFor(eventId, routingKey) !in s.locks
        ensures Shows(redis.Visible(), if taken then s.(locks := s.locks[KeyFor(eventId, routingKey) := w]) else s)
      {
        LockShows(before, s, eventId, routingKey, w);
        LockAt(before, s, eventId, routingKey);
        assert !taken ==> redis.Visible() == before;
      }
    }

    /** Deletes the lock whoever holds it, as the machine does: nothing ties it to the caller. */
    method ReleaseProcessingLock(eventId: string, routingKey: string)
      modifies redis`entries
      ensures redis.entries == old(redis.entries) - {ProcessingKey(eventId, routingKey)}
      ensures redis.Visible() == old(redis.Visible()) - {ProcessingKey(eventId, routingKey)}
      ensures forall s :: Shows(old(redis.Visible()), s) && ':' !in eventId ==>
                Shows(redis.Visible(), Pipeline.DropLock(s, KeyFor(eventId, routingKey), Pipeline.Answered))
    {
      hide Shows;
      ghost var before := redis.Visible();
      assert SetOf([ProcessingKey(eventId, routingKey)]) == {ProcessingKey(eventId, routingKey)};
      var n := redis.Delete([ProcessingKey(eventId, routingKey)]);
      forall s | Shows(before, s) && ':' !in eventId
        ensures Shows(redis.Visible(), Pipeline.DropLock(s, KeyFor(eventId, routingKey), Pipeline.Answered))
      {
        LockShows(before, s, eventId, routingKey, 0);
      }
    }
  }
}
