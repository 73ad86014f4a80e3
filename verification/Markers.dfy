/** The revocation markers as Redis holds them: one key per user or tenant, the second in decimal, and the
    lifetime as the key's expiry. */
module Markers {
  import opened Common
  import opened Decimal
  import opened Redis
  import Rev = Revocation

  const LAST_LOGOUT_PREFIX := "lastLogoutAt:"
  const TENANT_DEACTIVATED_PREFIX := "tenantDeactivatedAt:"

  function KeyOf(k: Rev.Subject): string {
    match k
    case OfUser(id) => LAST_LOGOUT_PREFIX + id
    case OfTenant(id) => TENANT_DEACTIVATED_PREFIX + id
  }

  lemma KeysDiffer(k: Rev.Subject, k': Rev.Subject)
    ensures KeyOf(k) == KeyOf(k') <==> k == k'
    ensures !(ACCESS_PREFIX <= KeyOf(k))
  {
    assert KeyOf(k)[0] == if k.OfUser? then 'l' else 't';
    assert KeyOf(k')[0] == if k'.OfUser? then 'l' else 't';
    assert k.OfUser? ==> KeyOf(k)[|LAST_LOGOUT_PREFIX|..] == k.id;
    assert k'.OfUser? ==> KeyOf(k')[|LAST_LOGOUT_PREFIX|..] == k'.id;
    assert k.OfTenant? ==> KeyOf(k)[|TENANT_DEACTIVATED_PREFIX|..] == k.id;
    assert k'.OfTenant? ==> KeyOf(k')[|TENANT_DEACTIVATED_PREFIX|..] == k'.id;
  }

  function EntryOf(m: Rev.Marker): Entry { Entry(Digits(m.value), Some(m.expiresAt)) }

  /** What is visible under the key of a subject is its marker, if it has a live one. */
  ghost predicate ShowsAt(entries: map<string, Entry>, now: nat, s: Rev.State, k: Rev.Subject) {
    if KeyOf(k) in VisibleOf(entries, now) then
      k in s.markers && now < s.markers[k].expiresAt && entries[KeyOf(k)] == EntryOf(s.markers[k])
    else k in s.markers ==> s.markers[k].expiresAt <= now
  }

  ghost predicate Shows(entries: map<string, Entry>, now: nat, s: Rev.State) {
    s.now == now && forall k :: ShowsAt(entries, now, s, k)
  }

  /** Setting the key carries out a revocation; a lifetime that is refused sets nothing. */
  lemma MarkShows(entries: map<string, Entry>, now: nat, cfg: Rev.Config, s: Rev.State, k: Rev.Subject)
    requires Shows(entries, now, s)
    ensures var after := if Rev.Storable(cfg) then
                         entries[KeyOf(k) := Entry(Digits(now / 1000), Some(now + 1000 * cfg.ttl.value))]
                       else entries;
            Shows(after, now, Rev.Do(cfg, s, Rev.Revoke(k)))
  {
    var s' := Rev.Do(cfg, s, Rev.Revoke(k));
    if Rev.Storable(cfg) {
      var after := entries[KeyOf(k) := Entry(Digits(now / 1000), Some(now + 1000 * cfg.ttl.value))];
      forall k' ensures ShowsAt(after, now, s', k') {
        KeysDiffer(k, k');
        assert ShowsAt(entries, now, s, k');
      }
    } else {
      forall k' ensures ShowsAt(entries, now, s', k') { assert ShowsAt(entries, now, s, k'); }
    }
  }

  /** Keys expire as markers do. */
  lemma WaitShows(entries: map<string, Entry>, now: nat, cfg: Rev.Config, s: Rev.State, time: nat)
    requires Shows(entries, now, s)
    ensures Shows(entries, now + time, Rev.Do(cfg, s, Rev.Wait(time)))
  {
    var later, s' := now + time, Rev.Do(cfg, s, Rev.Wait(time));
    forall k ensures ShowsAt(entries, later, s', k) {
      assert ShowsAt(entries, now, s, k);
    }
  }

  /** Other keys do not matter. */
  lemma OthersShow(entries: map<string, Entry>, entries': map<string, Entry>, now: nat, s: Rev.State)
    requires Shows(entries, now, s) && OnlyAccessKeys(entries, entries', now)
    ensures Shows(entries', now, s)
  {
    forall k ensures ShowsAt(entries', now, s, k) {
      assert ShowsAt(entries, now, s, k);
      KeysDiffer(k, k);
    }
  }

  lemma NoneShow(entries: map<string, Entry>, now: nat)
    requires forall k: Rev.Subject :: KeyOf(k) !in VisibleOf(entries, now)
    ensures Shows(entries, now, Rev.INIT.(now := now))
  {
  }

  /** What a reader of the key finds decides what the marker decides. */
  lemma ReadShows(entries: map<string, Entry>, now: nat, s: Rev.State, k: Rev.Subject, iat: nat)
    requires Shows(entries, now, s)
    ensures Rev.RejectedBy(s, k, iat) <==>
              KeyOf(k) in VisibleOf(entries, now) && AllDigits(entries[KeyOf(k)].value) && iat < Value(entries[KeyOf(k)].value)
    ensures KeyOf(k) in VisibleOf(entries, now) ==> AllDigits(entries[KeyOf(k)].value) && entries[KeyOf(k)].value != ""
  {
    assert ShowsAt(entries, now, s, k);
    if k in s.markers {
      ValueOfDigits(s.markers[k].value);
      DigitsAreDigits(s.markers[k].value);
    }
  }
}
