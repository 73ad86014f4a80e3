/** Revocation markers against access tokens (RFC 7519: `iat` section 4.1.6, `exp` section 4.1.4). Time runs
    in milliseconds; tokens and markers are dated in whole seconds. */
module Revocation {
  import opened Common
  import opened Decimal
  import opened Durations

  type Id = string

  datatype Jwt = Jwt(sub: Id, tenant: Id, active: bool, iat: nat, exp: int)

  /** The two kinds of marker: `lastLogoutAt:<user>` and `tenantDeactivatedAt:<tenant>`. */
  datatype Subject = OfUser(id: Id) | OfTenant(id: Id)

  /** The second written, and the millisecond Redis drops the key. */
  datatype Marker = Marker(value: nat, expiresAt: int)

  /** Lifetime of a signed token, and the marker lifetime `parseTtlSeconds` computes (`None` is NaN). */
  datatype Config = Config(life: int, ttl: Option<int>)

  /** `revoked` records every revocation with its moment; `markers` is what Redis holds. */
  datatype State = State(now: nat, markers: map<Subject, Marker>, revoked: set<(Subject, nat)>)

  datatype Action = Wait(milliseconds: nat) | Revoke(subject: Subject)

  function Sec(ms: nat): nat { ms / 1000 }

  /** Redis refuses an expiry that is not positive. */
  predicate Storable(cfg: Config) { cfg.ttl.Some? && cfg.ttl.value > 0 }

  function Do(cfg: Config, s: State, a: Action): State {
    match a
    case Wait(d) => s.(now := s.now + d)
    case Revoke(k) =>
      s.(revoked := s.revoked + {(k, s.now)},
         markers := if Storable(cfg) then s.markers[k := Marker(Sec(s.now), s.now + 1000 * cfg.ttl.value)] else s.markers)
  }

  function Exec(cfg: Config, s: State, run: seq<Action>): State
    decreases |run|
  {
    if run == [] then s else Exec(cfg, Do(cfg, s, run[0]), run[1..])
  }

  const INIT := State(0, map[], {})

  /** A token as `createAccessToken` signs it at a moment. */
  function Sign(cfg: Config, sub: Id, tenant: Id, at: nat): Jwt { Jwt(sub, tenant, true, Sec(at), Sec(at) + cfg.life) }

  predicate RejectedBy(s: State, k: Subject, iat: nat) {
    k in s.markers && s.now < s.markers[k].expiresAt && iat < s.markers[k].value
  }

  /** The strategy's verdict: signature library first (expiry), then `validate`. */
  predicate Accepts(s: State, t: Jwt) {
    && Sec(s.now) < t.exp && t.active
    && (t.iat == 0 || (!RejectedBy(s, OfUser(t.sub), t.iat) && !RejectedBy(s, OfTenant(t.tenant), t.iat)))
  }

  predicate Concerns(k: Subject, t: Jwt) { k == OfUser(t.sub) || k == OfTenant(t.tenant) }

  /** Revoked for its user or tenant in a second after the one it was signed in. */
  ghost predicate RevokedSince(s: State, t: Jwt) {
    exists r :: r in s.revoked && Concerns(r.0, t) && t.iat < Sec(r.1)
  }

  /** A token signed under the configuration, not in the first second of the epoch. */
  predicate Signed(cfg: Config, t: Jwt) { t.active && t.iat > 0 && t.exp == t.iat + cfg.life }

  /** Markers last long enough. */
  predicate Outlives(cfg: Config) { cfg.life <= 1 || (cfg.ttl.Some? && cfg.ttl.value >= cfg.life - 1) }

  // ---------------------------------------------------------------- the invariant

  /** Every revocation is covered by a marker at least as late, and every marker stems from one. */
  ghost predicate Inv(cfg: Config, s: State) {
    && (forall r :: r in s.revoked ==>
         && r.1 <= s.now
         && (Storable(cfg) ==>
              r.0 in s.markers && Sec(r.1) <= s.markers[r.0].value && r.1 + 1000 * cfg.ttl.value <= s.markers[r.0].expiresAt))
    && (forall k :: k in s.markers ==> exists r :: r in s.revoked && r.0 == k && s.markers[k].value == Sec(r.1))
  }

  lemma InvStep(cfg: Config, s: State, a: Action)
    requires Inv(cfg, s)
    ensures Inv(cfg, Do(cfg, s, a))
  {
  }

  lemma {:induction false} InvRun(cfg: Config, s: State, run: seq<Action>)
    requires Inv(cfg, s)
    ensures Inv(cfg, Exec(cfg, s, run))
    decreases |run|
  {
    if run != [] {
      InvStep(cfg, s, run[0]);
      InvRun(cfg, Do(cfg, s, run[0]), run[1..]);
    }
  }

  /** As long as the token lives, so does the marker. */
  lemma MarkerStillThere(cfg: Config, s: State, t: Jwt, r: (Subject, nat))
    requires Inv(cfg, s) && Outlives(cfg) && Signed(cfg, t)
    requires r in s.revoked && Concerns(r.0, t) && t.iat < Sec(r.1) && Sec(s.now) < t.exp
    ensures RejectedBy(s, r.0, t.iat)
  {
  }

  /** With markers that last long enough, a token is accepted exactly until it expires or its user or
      tenant is revoked in a later second, whatever later revocations overwrite the marker. */
  lemma AcceptedExactlyWhen(cfg: Config, run: seq<Action>, t: Jwt)
    requires Outlives(cfg) && Signed(cfg, t)
    ensures var s := Exec(cfg, INIT, run);
            Accepts(s, t) <==> Sec(s.now) < t.exp && !RevokedSince(s, t)
  {
    InvRun(cfg, INIT, run);
    var s := Exec(cfg, INIT, run);
    if Sec(s.now) < t.exp && RevokedSince(s, t) {
      var r :| r in s.revoked && Concerns(r.0, t) && t.iat < Sec(r.1);
      MarkerStillThere(cfg, s, t, r);
    }
    forall k | RejectedBy(s, k, t.iat) && Concerns(k, t) ensures RevokedSince(s, t) {
      var r :| r in s.revoked && r.0 == k && s.markers[k].value == Sec(r.1);
    }
  }

  lemma ExecWaits(cfg: Config, s: State, run: seq<Action>, a: Action)
    ensures Exec(cfg, s, [a] + run) == Exec(cfg, Do(cfg, s, a), run)
  {
  }

  /** A token signed at 1 s, revoked at 2 s, and presented when the marker (if any) has just gone. */
  lemma ShortMarkersForget(cfg: Config, user: Id, tenant: Id) returns (run: seq<Action>, t: Jwt)
    requires !Outlives(cfg)
    ensures Signed(cfg, t) && t == Sign(cfg, user, tenant, 1000)
    ensures var s := Exec(cfg, INIT, run); RevokedSince(s, t) && Accepts(s, t)
  {
    t := Sign(cfg, user, tenant, 1000);
    var rest := if Storable(cfg) then 1000 * cfg.ttl.value else 0;
    run := [Wait(2000)] + ([Revoke(OfUser(user))] + ([Wait(rest)] + []));
    var s1 := Do(cfg, INIT, Wait(2000));
    var s2 := Do(cfg, s1, Revoke(OfUser(user)));
    var s3 := Do(cfg, s2, Wait(rest));
    ExecWaits(cfg, INIT, [Revoke(OfUser(user))] + ([Wait(rest)] + []), Wait(2000));
    ExecWaits(cfg, s1, [Wait(rest)] + [], Revoke(OfUser(user)));
    ExecWaits(cfg, s2, [], Wait(rest));
    assert Exec(cfg, INIT, run) == s3;
    assert (OfUser(user), 2000) in s3.revoked;
    assert s3.now == 2000 + rest;
  }

  /** The condition is exact: revoked tokens stay rejected in every run if and only if it holds. */
  lemma RevocationLastsExactlyWhen(cfg: Config)
    ensures Outlives(cfg) <==>
            forall run: seq<Action>, t: Jwt :: Signed(cfg, t) && RevokedSince(Exec(cfg, INIT, run), t) ==>
              !Accepts(Exec(cfg, INIT, run), t)
  {
    if Outlives(cfg) {
      forall run: seq<Action>, t: Jwt | Signed(cfg, t) && RevokedSince(Exec(cfg, INIT, run), t)
        ensures !Accepts(Exec(cfg, INIT, run), t)
      {
        AcceptedExactlyWhen(cfg, run, t);
      }
    } else {
      var run, t := ShortMarkersForget(cfg, "", "");
      assert RevokedSince(Exec(cfg, INIT, run), t) && Accepts(Exec(cfg, INIT, run), t);
    }
  }

  // ---------------------------------------------------------------- a refresh revokes after signing

  lemma {:induction false} ExecSplit(cfg: Config, s: State, a: seq<Action>, b: seq<Action>)
    ensures Exec(cfg, s, a + b) == Exec(cfg, Exec(cfg, s, a), b)
    decreases |a|
  {
    if a == [] {
      assert a + b == b;
    } else {
      assert (a + b)[1..] == a[1..] + b;
      ExecSplit(cfg, Do(cfg, s, a[0]), a[1..], b);
    }
  }

  /** The access token a refresh returns was signed before the refresh set the marker: it works exactly
      when both fell into the same second (until it expires, or a further revocation). */
  lemma RefreshedTokenSurvivesExactlyWhen(cfg: Config, before: seq<Action>, user: Id, tenant: Id, gap: nat, later: nat)
    requires Outlives(cfg) && Sec(Exec(cfg, INIT, before).now) > 0
    requires Sec(Exec(cfg, INIT, before).now + gap + later) < Sec(Exec(cfg, INIT, before).now) + cfg.life
    ensures var signedAt := Exec(cfg, INIT, before).now;
            var t := Sign(cfg, user, tenant, signedAt);
            var s := Exec(cfg, INIT, before + [Wait(gap), Revoke(OfUser(user)), Wait(later)]);
            Accepts(s, t) <==> Sec(signedAt + gap) == Sec(signedAt)
  {
    var s0, tail := Exec(cfg, INIT, before), [Wait(gap), Revoke(OfUser(user)), Wait(later)];
    var s, t := Exec(cfg, s0, tail), Sign(cfg, user, tenant, Exec(cfg, INIT, before).now);
    InvRun(cfg, INIT, before);
    ExecSplit(cfg, INIT, before, tail);
    RefreshTail(cfg, s0, user, gap, later);
    RevokedOnlyNow(cfg, s0, s, user, tenant, gap);
    AcceptedExactlyWhen(cfg, before + tail, t);
    hide Exec, RevokedSince, Accepts, Inv, Outlives;
  }

  lemma RefreshTail(cfg: Config, s0: State, user: Id, gap: nat, later: nat)
    ensures var s := Exec(cfg, s0, [Wait(gap), Revoke(OfUser(user)), Wait(later)]);
            s.now == s0.now + gap + later && s.revoked == s0.revoked + {(OfUser(user), s0.now + gap)}
  {
    var tail := [Wait(gap)] + ([Revoke(OfUser(user))] + ([Wait(later)] + []));
    assert tail == [Wait(gap), Revoke(OfUser(user)), Wait(later)];
    var s1 := Do(cfg, s0, Wait(gap));
    var s2 := Do(cfg, s1, Revoke(OfUser(user)));
    ExecWaits(cfg, s0, [Revoke(OfUser(user))] + ([Wait(later)] + []), Wait(gap));
    ExecWaits(cfg, s1, [Wait(later)] + [], Revoke(OfUser(user)));
    ExecWaits(cfg, s2, [], Wait(later));
    assert Exec(cfg, Do(cfg, s2, Wait(later)), []) == Do(cfg, s2, Wait(later));
  }

  lemma RevokedOnlyNow(cfg: Config, s0: State, s: State, user: Id, tenant: Id, gap: nat)
    requires Inv(cfg, s0) && s.revoked == s0.revoked + {(OfUser(user), s0.now + gap)}
    ensures RevokedSince(s, Sign(cfg, user, tenant, s0.now)) <==> Sec(s0.now) < Sec(s0.now + gap)
  {
    var t := Sign(cfg, user, tenant, s0.now);
    assert (OfUser(user), s0.now + gap) in s.revoked && Concerns(OfUser(user), t);
    assert forall r :: r in s0.revoked ==> Sec(r.1) <= Sec(s0.now);
  }

  // ---------------------------------------------------------------- durations as configured

  /** `JWT_EXPIRES_IN` in the notation of the signing library. */
  function Configured(d: Duration): Config
    requires WellFormed(d)
  {
    Config(LifeSeconds(d), ParseTtlSeconds(Written(d)))
  }

  /** Markers outlive the tokens exactly when the duration is negative, counts seconds or milliseconds, or
      leaves less than two seconds unread: the fraction after a unit spelled `m`, `h` or `d`, the whole
      amount after any other spelling of a minute or a longer unit. */
  lemma UnitsThatOutlive(d: Duration)
    requires WellFormed(d)
    ensures var unit := UnitOf(d.spelling).value;
            Outlives(Configured(d)) <==> d.negative || unit.Millisecond? || unit.Second? || Unread(d) < 2.0
  {
    TtlOf(d);
    SpellingFactor(d.spelling);
    PartBelowOne(d.fraction);
    assert d.whole == [] ==> Value(d.whole) == 0;
    var w, p, u := Value(d.whole), Part(d.fraction), UnitOf(d.spelling).value;
    var f, known := ReadFactor(d.spelling), Known(d.spelling);
    assert Configured(d) == Config(InSeconds(Amount(d.negative, w, p), u),
                                   if d.whole == [] then None else Some(WithSign(d.negative, w) * f));
    assert Unread(d) == UnreadSeconds(known, w, p, u);
    hide *;
    Judged(d.negative, d.whole == [], w, p, u, f, known);
  }

  lemma Judged(negative: bool, unread: bool, w: nat, p: real, u: Unit, f: nat, known: bool)
    requires 0.0 <= p < 1.0 && f >= 1 && (unread ==> w == 0)
    requires known ==> f as real == Seconds(u)
    requires !known && !u.Millisecond? && !u.Second? ==> f == 1
    ensures var ttl := if unread then None else Some(WithSign(negative, w) * f);
            Outlives(Config(InSeconds(Amount(negative, w, p), u), ttl)) <==>
              negative || u.Millisecond? || u.Second? || UnreadSeconds(known, w, p, u) < 2.0
  {
    if negative {
      BelowZero(w, p, u);
      hide Seconds;
    } else if u.Millisecond? || u.Second? {
      Unrounded(w, p, u, f);
      hide Seconds;
    } else if known {
      JudgedScaled(unread, w, p, u, f);
    } else {
      JudgedUnscaled(unread, w, p, u);
    }
  }

  lemma JudgedScaled(unread: bool, w: nat, p: real, u: Unit, f: nat)
    requires 0.0 <= p < 1.0 && f as real == Seconds(u) && (unread ==> w == 0)
    ensures Outlives(Config(InSeconds(Amount(false, w, p), u), if unread then None else Some(WithSign(false, w) * f))) <==>
              UnreadSeconds(true, w, p, u) < 2.0
  {
    ScaledLife(w, p, u, f);
    ScaledRest(w, p, u, f);
    hide *;
    JudgedProduct(unread, w * f, p * f as real);
  }

  lemma ScaledLife(w: nat, p: real, u: Unit, f: nat)
    requires 0.0 <= p && f as real == Seconds(u)
    ensures InSeconds(Amount(false, w, p), u) == w * f + (p * f as real).Floor
  {
    Scaled(w, p, f);
  }

  lemma ScaledRest(w: nat, p: real, u: Unit, f: nat)
    requires 0.0 <= p && f as real == Seconds(u)
    ensures UnreadSeconds(true, w, p, u) == p * f as real >= 0.0
    ensures WithSign(false, w) * f == w * f >= 0 && (w == 0 ==> w * f == 0)
  {
  }

  lemma JudgedProduct(unread: bool, product: nat, x: real)
    requires 0.0 <= x && (unread ==> product == 0)
    ensures Outlives(Config(product + x.Floor, if unread then None else Some(product))) <==> x < 2.0
  {
  }

  lemma JudgedUnscaled(unread: bool, w: nat, p: real, u: Unit)
    requires 0.0 <= p < 1.0 && !u.Millisecond? && !u.Second? && (unread ==> w == 0)
    ensures Outlives(Config(InSeconds(Amount(false, w, p), u), if unread then None else Some(WithSign(false, w) * 1))) <==>
              UnreadSeconds(false, w, p, u) < 2.0
  {
    Unscaled(w, p, u);
    hide Seconds;
  }

  lemma BelowZero(w: nat, p: real, u: Unit)
    requires 0.0 <= p
    ensures (-(w as real + p) * Seconds(u)).Floor <= 0
  {
  }

  lemma Unrounded(w: nat, p: real, u: Unit, f: nat)
    requires 0.0 <= p < 1.0 && f >= 1 && (u.Millisecond? || u.Second?)
    ensures ((w as real + p) * Seconds(u)).Floor <= w <= w * f
  {
  }

  lemma Scaled(w: nat, p: real, f: nat)
    requires 0.0 <= p
    ensures ((w as real + p) * f as real).Floor == w * f + (p * f as real).Floor
  {
    assert (w as real + p) * f as real == (w * f) as real + p * f as real;
  }

  lemma Unscaled(w: nat, p: real, u: Unit)
    requires 0.0 <= p && !u.Millisecond? && !u.Second?
    ensures ((w as real + p) * Seconds(u)).Floor <= w + 1 <==> (p + w as real) * Seconds(u) < 2.0
  {
  }

  /** A whole number of minutes, hours, days, weeks or years: only `m`, `h` and `d` will do. */
  lemma WholeAmountsThatOutlive(n: nat, blanks: nat, spelling: string)
    requires UnitOf(spelling).Some?
    ensures var d := Duration(false, Digits(n), "", blanks, spelling);
            var unit := UnitOf(spelling).value;
            WellFormed(d) && (Outlives(Configured(d)) <==> unit.Millisecond? || unit.Second? || Known(spelling) || n == 0)
  {
    var d := Duration(false, Digits(n), "", blanks, spelling);
    DigitsAreDigits(n);
    ValueOfDigits(n);
    UnitsThatOutlive(d);
    WholeUnread(n, d);
  }

  lemma WholeUnread(n: nat, d: Duration)
    requires WellFormed(d) && Value(d.whole) == n && d.fraction == ""
    ensures var unit := UnitOf(d.spelling).value;
            !unit.Millisecond? && !unit.Second? ==> (Unread(d) < 2.0 <==> Known(d.spelling) || n == 0)
  {
    assert Part(d.fraction) == 0.0;
    var u := UnitOf(d.spelling).value;
    hide UnitOf, Known, Value, Part;
  }
}
