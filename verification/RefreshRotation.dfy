/** Refresh-token rotation when logins, refreshes, logouts, clean-ups and deletions run concurrently.
    Every database statement is one step; the conditional update is the only synchronisation. */
module RefreshRotation {
  import opened Common

  type Id = string

  const RETENTION := 30 * 86400 * 1000

  /** A row of the token table; `family` only records the login it descends from. */
  datatype Token = Token(user: Id, tenant: Id, family: nat, expiresAt: int, revokedAt: Option<int>, replacedBy: Option<nat>)

  /** A refresh in flight: it has read a usable token; it has also stored the replacement; its update hit
      no row and the replacement must go. */
  datatype Call = Read(token: nat, row: Token) | Issued(token: nat, replacement: nat) | Lost(replacement: nat)

  datatype Win = Win(token: nat, replacement: nat)

  /** Who a family was opened for. */
  datatype Owner = Owner(user: Id, tenant: Id)

  /** When a token was stored, and for how long. */
  datatype Birth = Birth(at: nat, life: nat)

  /** `committed` are the tokens a client may hold: handed out by a login or a winning refresh. `ids` and
      `families` were ever used, with what is known of them; `wins` logs the refreshes that won their
      update. */
  datatype State = State(now: nat, tokens: map<nat, Token>, calls: map<nat, Call>, logouts: map<nat, nat>,
                         committed: set<nat>, ids: map<nat, Birth>, families: map<nat, Owner>, wins: seq<Win>)

  datatype Action =
    | Wait(time: nat)
    | Login(user: Id, tenant: Id, newId: nat, family: nat, life: nat)
    | RefreshRead(call: nat, token: nat)
    | RefreshRefused(call: nat)
    | RefreshIssue(call: nat, newId: nat, life: nat)
    | RefreshRotate(call: nat)
    | RefreshRevoke(call: nat)
    | Crash(call: nat)
    | LogoutRead(call: nat, token: nat)
    | LogoutRevoke(call: nat)
    | Cleanup
    | DeleteOf(users: set<Id>, tenants: set<Id>)

  predicate Unrevoked(s: State, t: nat) { t in s.tokens && s.tokens[t].revokedAt.None? }

  predicate CanDo(s: State, a: Action) {
    match a
    case Wait(_) => true
    case Login(_, _, newId, family, _) => newId !in s.ids && family !in s.families
    case RefreshRead(call, token) =>
      call !in s.calls && token in s.committed && Unrevoked(s, token) && s.now < s.tokens[token].expiresAt
    case RefreshRefused(call) => call in s.calls && s.calls[call].Read?
    case RefreshIssue(call, newId, _) =>
      call in s.calls && s.calls[call].Read? && newId !in s.ids
    case RefreshRotate(call) => call in s.calls && s.calls[call].Issued?
    case RefreshRevoke(call) => call in s.calls && s.calls[call].Lost?
    case Crash(call) => call in s.calls
    case LogoutRead(call, token) => call !in s.logouts && token in s.committed && Unrevoked(s, token)
    case LogoutRevoke(call) => call in s.logouts
    case Cleanup => true
    case DeleteOf(_, _) => true
  }

  function RevokeRow(tokens: map<nat, Token>, t: nat, at: int): map<nat, Token> {
    if t in tokens then tokens[t := tokens[t].(revokedAt := Some(at))] else tokens
  }

  /** What `cleanupExpiredTokens` deletes. */
  predicate Outdated(t: Token, now: int) {
    t.expiresAt < now - RETENTION || (t.revokedAt.Some? && t.revokedAt.value < now - RETENTION)
  }

  function Do(s: State, a: Action): State
    requires CanDo(s, a)
  {
    match a
    case Wait(time) => s.(now := s.now + time)
    case Login(user, tenant, newId, family, life) =>
      s.(tokens := s.tokens[newId := Token(user, tenant, family, s.now + life, None, None)],
         committed := s.committed + {newId}, ids := s.ids[newId := Birth(s.now, life)],
         families := s.families[family := Owner(user, tenant)])
    case RefreshRead(call, token) => s.(calls := s.calls[call := Read(token, s.tokens[token])])
    case RefreshRefused(call) => s.(calls := s.calls - {call})
    case RefreshIssue(call, newId, life) =>
      var row := s.calls[call].row;
      s.(tokens := s.tokens[newId := Token(row.user, row.tenant, row.family, s.now + life, None, None)],
         ids := s.ids[newId := Birth(s.now, life)], calls := s.calls[call := Issued(s.calls[call].token, newId)])
    case RefreshRotate(call) =>
      var c := s.calls[call];
      if Unrevoked(s, c.token) then
        s.(tokens := s.tokens[c.token := s.tokens[c.token].(revokedAt := Some(s.now), replacedBy := Some(c.replacement))],
           committed := s.committed + {c.replacement}, calls := s.calls - {call},
           wins := s.wins + [Win(c.token, c.replacement)])
      else s.(calls := s.calls[call := Lost(c.replacement)])
    case RefreshRevoke(call) =>
      s.(tokens := RevokeRow(s.tokens, s.calls[call].replacement, s.now), calls := s.calls - {call})
    case Crash(call) => s.(calls := s.calls - {call})
    case LogoutRead(call, token) => s.(logouts := s.logouts[call := token])
    case LogoutRevoke(call) => s.(tokens := RevokeRow(s.tokens, s.logouts[call], s.now), logouts := s.logouts - {call})
    case Cleanup => s.(tokens := map t | t in s.tokens && !Outdated(s.tokens[t], s.now) :: s.tokens[t])
    case DeleteOf(users, tenants) =>
      s.(tokens := map t | t in s.tokens && s.tokens[t].user !in users && s.tokens[t].tenant !in tenants :: s.tokens[t])
  }

  predicate Valid(s: State, run: seq<Action>)
    decreases |run|
  {
    run == [] || (CanDo(s, run[0]) && Valid(Do(s, run[0]), run[1..]))
  }

  function Exec(s: State, run: seq<Action>): State
    requires Valid(s, run)
    decreases |run|
  {
    if run == [] then s else Exec(Do(s, run[0]), run[1..])
  }

  const INIT := State(0, map[], map[], map[], {}, map[], map[], [])

  // ---------------------------------------------------------------- the invariant

  ghost predicate Recorded(s: State) {
    && s.tokens.Keys <= s.ids.Keys && s.committed <= s.ids.Keys
    && (forall t :: t in s.tokens ==> s.tokens[t].family in s.families)
    && (forall c :: c in s.logouts ==> s.logouts[c] in s.committed)
  }

  /** Calls hold tokens a client had, and replacements nobody else knows. */
  ghost predicate CallsSound(s: State) { CallsKnown(s) && CallsApart(s) && CallsInFamily(s) }

  ghost predicate CallsKnown(s: State) {
    && (forall c :: c in s.calls && !s.calls[c].Lost? ==> s.calls[c].token in s.committed)
    && (forall c :: c in s.calls && !s.calls[c].Read? ==>
         s.calls[c].replacement in s.ids && s.calls[c].replacement !in s.committed)
  }

  ghost predicate CallsApart(s: State) {
    forall c, d :: c in s.calls && d in s.calls && !s.calls[c].Read? && !s.calls[d].Read? ==>
      s.calls[c].replacement == s.calls[d].replacement ==> c == d
  }

  ghost predicate CallsInFamily(s: State) {
    && (forall c :: c in s.calls && s.calls[c].Read? ==>
         s.calls[c].row.family in s.families &&
         (s.calls[c].token in s.tokens ==> s.tokens[s.calls[c].token].family == s.calls[c].row.family))
    && (forall c :: (c in s.calls && s.calls[c].Issued? && s.calls[c].token in s.tokens && s.calls[c].replacement in s.tokens) ==>
         s.tokens[s.calls[c].token].family == s.tokens[s.calls[c].replacement].family)
  }

  /** A token that was rotated once is spent, and each was rotated once. */
  ghost predicate WinsSound(s: State) {
    && (forall i :: 0 <= i < |s.wins| ==> s.wins[i].token in s.ids && !Unrevoked(s, s.wins[i].token))
    && (forall i, j :: 0 <= i < j < |s.wins| ==> s.wins[i].token != s.wins[j].token)
  }

  /** One live token per login that a client may hold. */
  ghost predicate OneLive(s: State) {
    forall a, b :: a in s.committed && b in s.committed && Unrevoked(s, a) && Unrevoked(s, b) ==>
      s.tokens[a].family == s.tokens[b].family ==> a == b
  }

  ghost predicate Inv(s: State) { Recorded(s) && CallsSound(s) && WinsSound(s) && OneLive(s) }

  lemma RecordedStep(s: State, a: Action)
    requires Inv(s) && CanDo(s, a)
    ensures Recorded(Do(s, a))
  {
  }

  lemma CallsStep(s: State, a: Action)
    requires Inv(s) && CanDo(s, a)
    ensures CallsSound(Do(s, a))
  {
    hide Inv, Do, CanDo, CallsKnown, CallsApart, CallsInFamily;
    CallsKnownStep(s, a);
    CallsApartStep(s, a);
    CallsInFamilyStep(s, a);
  }

  lemma CallsKnownStep(s: State, a: Action)
    requires Inv(s) && CanDo(s, a)
    ensures CallsKnown(Do(s, a))
  {
    hide WinsSound, OneLive, CallsInFamily;
  }

  lemma CallsApartStep(s: State, a: Action)
    requires Inv(s) && CanDo(s, a)
    ensures CallsApart(Do(s, a))
  {
    hide WinsSound, OneLive, CallsInFamily;
  }

  lemma CallsInFamilyStep(s: State, a: Action)
    requires Inv(s) && CanDo(s, a)
    ensures CallsInFamily(Do(s, a))
  {
    hide WinsSound, OneLive, CallsApart;
  }

  lemma WinsStep(s: State, a: Action)
    requires Inv(s) && CanDo(s, a)
    ensures WinsSound(Do(s, a))
  {
  }

  lemma OneLiveStep(s: State, a: Action)
    requires Inv(s) && CanDo(s, a)
    ensures OneLive(Do(s, a))
  {
    hide WinsSound;
  }

  lemma {:induction false} InvRun(s: State, run: seq<Action>)
    requires Inv(s) && Valid(s, run)
    ensures Inv(Exec(s, run))
    decreases |run|
  {
    if run != [] {
      RecordedStep(s, run[0]);
      CallsStep(s, run[0]);
      WinsStep(s, run[0]);
      OneLiveStep(s, run[0]);
      InvRun(Do(s, run[0]), run[1..]);
    }
  }

  /** However many refreshes present the same token at once, at most one of them ever wins. */
  lemma EachTokenIsRotatedOnce(run: seq<Action>, i: nat, j: nat)
    requires Valid(INIT, run) && i < j < |Exec(INIT, run).wins|
    ensures Exec(INIT, run).wins[i].token != Exec(INIT, run).wins[j].token
  {
    InvRun(INIT, run);
  }

  /** At every moment, whatever crashed, a login has at most one unrevoked token a client may hold. */
  lemma OneLiveTokenPerLogin(run: seq<Action>, a: nat, b: nat)
    requires Valid(INIT, run)
    requires var s := Exec(INIT, run);
             a in s.committed && b in s.committed && Unrevoked(s, a) && Unrevoked(s, b) && s.tokens[a].family == s.tokens[b].family
    ensures a == b
  {
    InvRun(INIT, run);
  }

  // ---------------------------------------------------------------- no login is lost

  ghost predicate LoginsLive(s: State) {
    forall f :: f in s.families ==> exists t :: t in s.committed && Unrevoked(s, t) && s.tokens[t].family == f
  }

  ghost predicate CallsReady(s: State) {
    && (forall c :: c in s.calls && s.calls[c].Issued? ==> s.calls[c].token in s.tokens && Unrevoked(s, s.calls[c].replacement))
    && (forall c :: c in s.calls && s.calls[c].Read? ==> s.calls[c].token in s.tokens)
  }

  ghost predicate NotStranded(s: State) { LoginsLive(s) && CallsReady(s) }

  predicate EndsTokens(a: Action) { a.LogoutRevoke? || a.Cleanup? || a.DeleteOf? }

  lemma NotStrandedStep(s: State, a: Action)
    requires Inv(s) && NotStranded(s) && CanDo(s, a) && !EndsTokens(a)
    ensures NotStranded(Do(s, a))
  {
    LoginsLiveStep(s, a);
    CallsReadyStep(s, a);
  }

  lemma CallsReadyStep(s: State, a: Action)
    requires Inv(s) && NotStranded(s) && CanDo(s, a) && !EndsTokens(a)
    ensures CallsReady(Do(s, a))
  {
    hide WinsSound, OneLive, LoginsLive, CallsInFamily;
  }

  lemma LoginsLiveStep(s: State, a: Action)
    requires Inv(s) && NotStranded(s) && CanDo(s, a) && !EndsTokens(a)
    ensures LoginsLive(Do(s, a))
  {
    hide WinsSound, OneLive;
    var s' := Do(s, a);
    forall f | f in s'.families ensures exists t :: t in s'.committed && Unrevoked(s', t) && s'.tokens[t].family == f {
      if a.Login? && f == a.family {
        assert Unrevoked(s', a.newId);
      } else {
        var t :| t in s.committed && Unrevoked(s, t) && s.tokens[t].family == f;
        if a.RefreshRotate? && t == s.calls[a.call].token {
          assert Unrevoked(s', s.calls[a.call].replacement);
        } else {
          assert Unrevoked(s', t);
        }
      }
    }
  }

  lemma {:induction false} NotStrandedRun(s: State, run: seq<Action>)
    requires Inv(s) && NotStranded(s) && Valid(s, run)
    requires forall i :: 0 <= i < |run| ==> !EndsTokens(run[i])
    ensures NotStranded(Exec(s, run))
    decreases |run|
  {
    if run != [] {
      NotStrandedStep(s, run[0]);
      RecordedStep(s, run[0]);
      CallsStep(s, run[0]);
      WinsStep(s, run[0]);
      OneLiveStep(s, run[0]);
      NotStrandedRun(Do(s, run[0]), run[1..]);
    }
  }

  /** Until a logout, a clean-up or a deletion, racing refreshes (even crashing ones) leave every login
      exactly one unrevoked token that a client may hold. */
  lemma EveryLoginKeepsOneToken(run: seq<Action>, family: nat)
    requires Valid(INIT, run) && family in Exec(INIT, run).families
    requires forall i :: 0 <= i < |run| ==> !EndsTokens(run[i])
    ensures var s := Exec(INIT, run);
            exists t :: t in s.committed && Unrevoked(s, t) && s.tokens[t].family == family &&
              forall u :: u in s.committed && Unrevoked(s, u) && s.tokens[u].family == family ==> u == t
  {
    NotStrandedRun(INIT, run);
    InvRun(INIT, run);
    var s := Exec(INIT, run);
    var t :| t in s.committed && Unrevoked(s, t) && s.tokens[t].family == family;
    forall u | u in s.committed && Unrevoked(s, u) && s.tokens[u].family == family ensures u == t {
      OneLiveTokenPerLogin(run, u, t);
    }
  }

  // ---------------------------------------------------------------- losing replacements

  /** A refresh in flight has stored the token and will hand it out or revoke it. */
  ghost predicate InFlight(s: State, t: nat) {
    exists c :: c in s.calls && !s.calls[c].Read? && s.calls[c].replacement == t
  }

  /** The replacements whose refresh dies in the run before it could hand them out or revoke them. */
  function Abandoned(s: State, run: seq<Action>): set<nat>
    requires Valid(s, run)
    decreases |run|
  {
    if run == [] then {} else AbandonedBy(s, run[0]) + Abandoned(Do(s, run[0]), run[1..])
  }

  function AbandonedBy(s: State, a: Action): set<nat> {
    if a.Crash? && a.call in s.calls && !s.calls[a.call].Read? then {s.calls[a.call].replacement} else {}
  }

  /** A stored token that no client was given is unrevoked exactly while its refresh is in flight, and for
      good if that refresh died. */
  ghost predicate Accounted(s: State, dead: set<nat>) {
    DeadApart(s, dead) && forall t :: Fated(s, dead, t)
  }

  ghost predicate DeadApart(s: State, dead: set<nat>) {
    dead <= s.ids.Keys && dead !! s.committed && forall t :: t in dead ==> !InFlight(s, t)
  }

  ghost predicate Fated(s: State, dead: set<nat>, t: nat) {
    t in s.tokens && t !in s.committed ==> (Unrevoked(s, t) <==> InFlight(s, t) || t in dead)
  }

  lemma InFlightStep(s: State, a: Action, t: nat)
    requires Inv(s) && CanDo(s, a)
    ensures InFlight(Do(s, a), t) <==>
            if InFlight(s, t) then
              !((a.RefreshRotate? || a.RefreshRevoke? || a.Crash?) && Ends(s, a, t))
            else a.RefreshIssue? && a.newId == t
  {
    hide WinsSound, OneLive;
    var s' := Do(s, a);
    if c :| c in s.calls && !s.calls[c].Read? && s.calls[c].replacement == t && c in s'.calls {
      assert !s'.calls[c].Read? && s'.calls[c].replacement == t;
    }
    if a.RefreshIssue? { assert s'.calls[a.call].replacement == a.newId; }
  }

  /** The step is the last of the refresh that stored `t`. */
  predicate Ends(s: State, a: Action, t: nat)
    requires (a.RefreshRotate? || a.RefreshRevoke? || a.Crash?) && CanDo(s, a)
  {
    !s.calls[a.call].Read? && s.calls[a.call].replacement == t && a.call !in Do(s, a).calls
  }

  lemma AccountedStep(s: State, a: Action, dead: set<nat>)
    requires Inv(s) && Accounted(s, dead) && CanDo(s, a)
    ensures Accounted(Do(s, a), dead + AbandonedBy(s, a))
  {
    if (a.RefreshRotate? || a.RefreshRevoke? || a.Crash?) && !s.calls[a.call].Read? {
      assert InFlight(s, s.calls[a.call].replacement);
    }
    hide WinsSound, OneLive, CallsApart, CallsInFamily, InFlight;
    forall t | t in dead + AbandonedBy(s, a) ensures !InFlight(Do(s, a), t) { InFlightStep(s, a, t); }
    forall t ensures Fated(Do(s, a), dead + AbandonedBy(s, a), t) { FatedStep(s, a, dead, t); }
  }

  lemma FatedStep(s: State, a: Action, dead: set<nat>, t: nat)
    requires Inv(s) && Accounted(s, dead) && CanDo(s, a)
    ensures Fated(Do(s, a), dead + AbandonedBy(s, a), t)
  {
    if (a.RefreshRotate? || a.RefreshRevoke? || a.Crash?) && !s.calls[a.call].Read? {
      assert InFlight(s, s.calls[a.call].replacement);
    }
    hide WinsSound, OneLive, CallsApart, CallsInFamily, InFlight;
    InFlightStep(s, a, t);
    assert Fated(s, dead, t);
  }

  lemma {:induction false} AccountedRun(s: State, run: seq<Action>, dead: set<nat>)
    requires Inv(s) && Accounted(s, dead) && Valid(s, run)
    ensures Accounted(Exec(s, run), dead + Abandoned(s, run))
    decreases |run|
  {
    if run != [] {
      AccountedStep(s, run[0], dead);
      RecordedStep(s, run[0]);
      CallsStep(s, run[0]);
      WinsStep(s, run[0]);
      OneLiveStep(s, run[0]);
      AccountedRun(Do(s, run[0]), run[1..], dead + AbandonedBy(s, run[0]));
      assert dead + Abandoned(s, run) == dead + AbandonedBy(s, run[0]) + Abandoned(Do(s, run[0]), run[1..]);
    } else {
      assert dead + Abandoned(s, run) == dead;
    }
  }

  /** In every run, the token of a refresh that did not win is revoked once the refresh has ended, unless
      the refresh died on the way: then it stays unrevoked for as long as its row exists. */
  lemma LosersAreRevoked(run: seq<Action>, t: nat)
    requires Valid(INIT, run) && t in Exec(INIT, run).tokens && t !in Exec(INIT, run).committed
    ensures Unrevoked(Exec(INIT, run), t) <==> InFlight(Exec(INIT, run), t) || t in Abandoned(INIT, run)
  {
    AccountedRun(INIT, run, {});
    assert Fated(Exec(INIT, run), {} + Abandoned(INIT, run), t);
  }

  /** When no refresh has died holding a replacement and none is in flight, no losing replacement is left
      usable: a login has at most one unrevoked token, and a client may hold it. */
  lemma AtRestOneTokenPerLogin(run: seq<Action>, a: nat, b: nat)
    requires Valid(INIT, run) && Abandoned(INIT, run) == {} && Exec(INIT, run).calls == map[]
    requires var s := Exec(INIT, run); Unrevoked(s, a) && Unrevoked(s, b) && s.tokens[a].family == s.tokens[b].family
    ensures a == b && a in Exec(INIT, run).committed
  {
    InvRun(INIT, run);
    AccountedRun(INIT, run, {});
    assert Fated(Exec(INIT, run), {} + Abandoned(INIT, run), a) && Fated(Exec(INIT, run), {} + Abandoned(INIT, run), b);
  }

  /** Such a death happens: it leaves a login a second unrevoked token, though one no client was given. */
  lemma CrashLeavesAnOrphan(user: Id, tenant: Id) returns (run: seq<Action>)
    ensures Valid(INIT, run) && Exec(INIT, run).calls == map[]
    ensures var s := Exec(INIT, run);
            Unrevoked(s, 0) && Unrevoked(s, 1) && s.tokens[0].family == s.tokens[1].family && 1 !in s.committed
  {
    run := [Login(user, tenant, 0, 0, 10), RefreshRead(0, 0), RefreshIssue(0, 1, 10), Crash(0)];
    var s1 := Do(INIT, run[0]);
    var s2 := Do(s1, run[1]);
    var s3 := Do(s2, run[2]);
    var s4 := Do(s3, run[3]);
    assert run[3..][1..] == [] && Valid(s4, run[3..][1..]) && Exec(s4, run[3..][1..]) == s4;
    assert run[2..][1..] == run[3..] && Valid(s3, run[3..]) && Exec(s3, run[3..]) == s4;
    assert run[1..][1..] == run[2..] && Valid(s2, run[2..]) && Exec(s2, run[2..]) == s4;
    assert Valid(s1, run[1..]) && Exec(s1, run[1..]) == s4;
    assert s4.calls == map[];
  }

  /** Cleaning up never takes a token anybody could still use. */
  lemma CleanupSparesUsableTokens(s: State, t: nat)
    requires Unrevoked(s, t) && s.now < s.tokens[t].expiresAt
    ensures t in Do(s, Cleanup).tokens && Do(s, Cleanup).tokens[t] == s.tokens[t]
  {
  }
}
