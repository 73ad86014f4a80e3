/** The authentication service as it runs: refresh tokens and revocation markers change together. Each
    stretch between two awaits is a method, so calls on one object interleave as requests do. */
module Auth {
  import opened Common
  import Rot = RefreshRotation
  import Hist = RefreshHistory
  import opened Decimal
  import Rev = Revocation
  import Markers
  import Redis

  type Id = string

  datatype Response = Response(access: Rev.Jwt, refresh: nat)

  datatype Error = Invalid | Expired | UserInactive | NotMember | AlreadyUsed | MarkerRefused

  /** Whether a step is part of the refresh `call`. */
  predicate Touches(a: Rot.Action, call: nat) {
    match a
    case RefreshRead(c, _) => c == call
    case RefreshRefused(c) => c == call
    case RefreshIssue(c, _, _) => c == call
    case RefreshRotate(c) => c == call
    case RefreshRevoke(c) => c == call
    case Crash(c) => c == call
    case _ => false
  }

  lemma MineStays(s: Rot.State, a: Rot.Action, call: nat)
    requires Rot.CanDo(s, a) && !Touches(a, call)
    ensures call in Rot.Do(s, a).calls <==> call in s.calls
    ensures call in s.calls ==> Rot.Do(s, a).calls[call] == s.calls[call]
  {
  }

  lemma TimePasses(s: Rot.State, a: Rot.Action)
    requires Rot.CanDo(s, a)
    ensures s.now <= Rot.Do(s, a).now
  {
  }

  /** The token table and the markers. */
  datatype Both = Both(rot: Rot.State, rev: Rev.State)

  /** A step of some request: on the table, or a marker set. */
  datatype Step = Row(a: Rot.Action) | Mark(subject: Rev.Subject)

  ghost predicate CanStep(b: Both, s: Step) { s.Row? ==> Rot.CanDo(b.rot, s.a) }

  ghost function DoStep(cfg: Rev.Config, b: Both, s: Step): Both
    requires CanStep(b, s)
  {
    match s
    case Row(a) => var next := Rot.Do(b.rot, a); Both(next, b.rev.(now := next.now))
    case Mark(k) => Both(b.rot, Rev.Do(cfg, b.rev, Rev.Revoke(k)))
  }

  ghost predicate ValidSteps(cfg: Rev.Config, b: Both, steps: seq<Step>)
    decreases |steps|
  {
    steps == [] || (CanStep(b, steps[0]) && ValidSteps(cfg, DoStep(cfg, b, steps[0]), steps[1..]))
  }

  ghost function ExecSteps(cfg: Rev.Config, b: Both, steps: seq<Step>): Both
    requires ValidSteps(cfg, b, steps)
    decreases |steps|
  {
    if steps == [] then b else ExecSteps(cfg, DoStep(cfg, b, steps[0]), steps[1..])
  }

  /** What other requests do while a refresh waits: for its replacement to be stored, for its update, and
      for its last write. */
  datatype Others = Others(beforeIssue: seq<Step>, beforeUpdate: seq<Step>, afterUpdate: seq<Step>)

  ghost predicate ByOthers(cfg: Rev.Config, b: Both, call: nat, steps: seq<Step>) {
    ValidSteps(cfg, b, steps) && forall i :: 0 <= i < |steps| && steps[i].Row? ==> !Touches(steps[i].a, call)
  }

  /** The parameters of a refresh. */
  datatype Request = Request(call: nat, token: nat, newId: nat, life: nat)

  /** The other requests' steps are possible where they happen, and none belongs to this refresh. */
  ghost predicate Interleaves(cfg: Rev.Config, b: Both, q: Request, o: Others) {
    && CanStep(b, Row(Rot.RefreshRead(q.call, q.token)))
    && ByOthers(cfg, DoStep(cfg, b, Row(Rot.RefreshRead(q.call, q.token))), q.call, o.beforeIssue)
    && CanStep(AtIssue(cfg, b, q, o), Row(Rot.RefreshIssue(q.call, q.newId, q.life)))
    && ByOthers(cfg, DoStep(cfg, AtIssue(cfg, b, q, o), Row(Rot.RefreshIssue(q.call, q.newId, q.life))), q.call, o.beforeUpdate)
    && CanStep(AtUpdate(cfg, b, q, o), Row(Rot.RefreshRotate(q.call)))
    && ByOthers(cfg, DoStep(cfg, AtUpdate(cfg, b, q, o), Row(Rot.RefreshRotate(q.call))), q.call, o.afterUpdate)
  }

  ghost function AtIssue(cfg: Rev.Config, b: Both, q: Request, o: Others): Both
    requires CanStep(b, Row(Rot.RefreshRead(q.call, q.token)))
    requires ValidSteps(cfg, DoStep(cfg, b, Row(Rot.RefreshRead(q.call, q.token))), o.beforeIssue)
  {
    ExecSteps(cfg, DoStep(cfg, b, Row(Rot.RefreshRead(q.call, q.token))), o.beforeIssue)
  }

  ghost function AtUpdate(cfg: Rev.Config, b: Both, q: Request, o: Others): Both
    requires CanStep(b, Row(Rot.RefreshRead(q.call, q.token)))
    requires ValidSteps(cfg, DoStep(cfg, b, Row(Rot.RefreshRead(q.call, q.token))), o.beforeIssue)
    requires CanStep(AtIssue(cfg, b, q, o), Row(Rot.RefreshIssue(q.call, q.newId, q.life)))
    requires ValidSteps(cfg, DoStep(cfg, AtIssue(cfg, b, q, o), Row(Rot.RefreshIssue(q.call, q.newId, q.life))), o.beforeUpdate)
  {
    ExecSteps(cfg, DoStep(cfg, AtIssue(cfg, b, q, o), Row(Rot.RefreshIssue(q.call, q.newId, q.life))), o.beforeUpdate)
  }

  ghost function AtEnd(cfg: Rev.Config, b: Both, q: Request, o: Others): Both
    requires Interleaves(cfg, b, q, o)
  {
    ExecSteps(cfg, DoStep(cfg, AtUpdate(cfg, b, q, o), Row(Rot.RefreshRotate(q.call))), o.afterUpdate)
  }

  /** A token is the number of its row: hashes are injective and plain tokens unguessable. */
  class AuthService {
    const cfg: Rev.Config
    const refreshLife: nat
    const redis: Redis.RedisService
    var tokens: map<nat, Rot.Token>
    var calls: map<nat, Rot.Call>
    var logouts: map<nat, nat>
    // bookkeeping of the model
    var committed: set<nat>
    var ids: map<nat, Rot.Birth>
    var families: map<nat, Rot.Owner>
    var wins: seq<Rot.Win>
    ghost var markers: map<Rev.Subject, Rev.Marker>
    ghost var revoked: set<(Rev.Subject, nat)>

    constructor (cfg: Rev.Config, refreshLife: nat, redis: Redis.RedisService)
      requires forall k: Rev.Subject :: Markers.KeyOf(k) !in Redis.VisibleOf(redis.entries, redis.now)
      ensures Valid() && this.cfg == cfg && this.refreshLife == refreshLife && this.redis == redis
      ensures World() == Rot.INIT.(now := redis.now) && Marks() == Rev.INIT.(now := redis.now)
    {
      this.cfg, this.refreshLife, this.redis := cfg, refreshLife, redis;
      tokens, markers, calls, logouts := map[], map[], map[], map[];
      committed, ids, families, wins, revoked := {}, map[], map[], [], {};
      new;
      Markers.NoneShow(redis.entries, redis.now);
    }

    function World(): Rot.State
      reads this, redis
    {
      Rot.State(redis.now, tokens, calls, logouts, committed, ids, families, wins)
    }

    ghost function Marks(): Rev.State
      reads this, redis
    {
      Rev.State(redis.now, markers, revoked)
    }

    ghost function Now(): Both
      reads this, redis
    {
      Both(World(), Marks())
    }

    /** The markers are what Redis shows. */
    ghost predicate Valid()
      reads this, redis
    {
      Rot.Inv(World()) && Hist.Lineage(World()) && Rev.Inv(cfg, Marks()) && Markers.Shows(redis.entries, redis.now, Marks())
    }

    ghost predicate Usable(token: nat)
      reads this, redis
    {
      Rot.Unrevoked(World(), token) && redis.now < tokens[token].expiresAt
    }

    method Wait(time: nat)
      requires Valid()
      modifies redis`now
      ensures Valid() && World() == Rot.Do(old(World()), Rot.Wait(time)) && Marks() == Rev.Do(cfg, old(Marks()), Rev.Wait(time))
    {
      hide Rot.Inv, Hist.Lineage, Rev.Inv, Markers.Shows;
      Keeps(World(), Rot.Wait(time));
      Rev.InvStep(cfg, Marks(), Rev.Wait(time));
      Markers.WaitShows(redis.entries, redis.now, cfg, Marks(), time);
      redis.now := redis.now + time;
    }

    static lemma Keeps(s: Rot.State, a: Rot.Action)
      requires Rot.Inv(s) && Hist.Lineage(s) && Rot.CanDo(s, a)
      ensures Rot.Inv(Rot.Do(s, a)) && Hist.Lineage(Rot.Do(s, a))
    {
      Hist.LineageStep(s, a);
      Rot.RecordedStep(s, a);
      Rot.CallsStep(s, a);
      Rot.WinsStep(s, a);
      Rot.OneLiveStep(s, a);
    }

    method CreateAccessToken(user: Id, tenant: Id) returns (jwt: Rev.Jwt)
      ensures jwt == Rev.Sign(cfg, user, tenant, redis.now)
    {
      var iat := redis.now / 1000;
      jwt := Rev.Jwt(user, tenant, true, iat, iat + cfg.life);
    }

    /** `login` and its variants, once the credentials and the membership were checked. */
    method Login(user: Id, tenant: Id, newId: nat, family: nat) returns (r: Response)
      requires Valid() && newId !in ids && family !in families
      modifies this
      ensures Valid() && r == Response(Rev.Sign(cfg, user, tenant, redis.now), newId)
      ensures World() == Rot.Do(old(World()), Rot.Login(user, tenant, newId, family, refreshLife)) && Marks() == old(Marks())
    {
      hide Rot.Inv, Hist.Lineage, Rev.Inv, Markers.Shows;
      Keeps(World(), Rot.Login(user, tenant, newId, family, refreshLife));
      tokens := tokens[newId := Rot.Token(user, tenant, family, redis.now + refreshLife, None, None)];
      committed := committed + {newId};
      ids, families := ids[newId := Rot.Birth(redis.now, refreshLife)], families[family := Rot.Owner(user, tenant)];
      var access := CreateAccessToken(user, tenant);
      r := Response(access, newId);
    }

    /** Why a refresh of this token is refused at once, if it is. */
    ghost function Refusal(token: nat, userActive: bool, member: bool): Option<Error>
      reads this, redis
    {
      if !Rot.Unrevoked(World(), token) then Some(Invalid)
      else if tokens[token].expiresAt <= redis.now then Some(Expired)
      else if !userActive then Some(UserInactive)
      else if !member then Some(NotMember)
      else None
    }

    /** `refresh` up to the membership check. Clients present tokens they were given, or rubbish. */
    method FindUsable(call: nat, token: nat, userActive: bool, member: bool) returns (error: Option<Error>)
      requires Valid() && call !in calls && (token in tokens ==> token in committed)
      modifies `calls
      ensures Valid() && error == old(Refusal(token, userActive, member))
      ensures error == Some(Invalid) <==> token !in tokens || tokens[token].revokedAt.Some?
      ensures error == Some(Expired) <==> Rot.Unrevoked(World(), token) && tokens[token].expiresAt <= redis.now
      ensures error == Some(UserInactive) <==> old(Usable(token)) && !userActive
      ensures error == Some(NotMember) <==> old(Usable(token)) && userActive && !member
      ensures error.None? <==> old(Usable(token)) && userActive && member
      ensures World() == if error.Some? then old(World()) else Rot.Do(old(World()), Rot.RefreshRead(call, token))
      ensures error.None? ==> token in tokens && call in calls && calls[call] == Rot.Read(token, tokens[token])
    {
      hide Rot.Inv, Hist.Lineage, Rev.Inv, Markers.Shows;
      if token !in tokens || tokens[token].revokedAt.Some? { return Some(Invalid); }
      if tokens[token].expiresAt <= redis.now { return Some(Expired); }
      if !userActive { return Some(UserInactive); }
      if !member { return Some(NotMember); }
      Keeps(World(), Rot.RefreshRead(call, token));
      calls := calls[call := Rot.Read(token, tokens[token])];
      return None;
    }

    /** The replacement row and the new access token. */
    method IssueReplacement(call: nat, newId: nat) returns (r: Response)
      requires Valid() && call in calls && calls[call].Read? && newId !in ids
      modifies `calls, `tokens, `ids
      ensures Valid() && World() == Rot.Do(old(World()), Rot.RefreshIssue(call, newId, refreshLife))
      ensures r == Response(Rev.Sign(cfg, old(calls[call].row.user), old(calls[call].row.tenant), redis.now), newId)
      ensures var row := old(calls[call].row); row.family in families && Hist.OwnedBy(row, families[row.family])
      ensures call in calls && calls[call] == Rot.Issued(old(calls[call].token), newId)
    {
      hide Rot.Inv, Hist.Lineage, Rev.Inv, Markers.Shows;
      Keeps(World(), Rot.RefreshIssue(call, newId, refreshLife));
      var stored := calls[call];
      OwnedRow(call);
      tokens := tokens[newId := Rot.Token(stored.row.user, stored.row.tenant, stored.row.family, redis.now + refreshLife, None, None)];
      ids := ids[newId := Rot.Birth(redis.now, refreshLife)];
      var access := CreateAccessToken(stored.row.user, stored.row.tenant);
      calls := calls[call := Rot.Issued(stored.token, newId)];
      r := Response(access, newId);
    }

    /** A refresh works on the row of its family's owner. */
    lemma OwnedRow(call: nat)
      requires Valid() && call in calls && calls[call].Read?
      ensures calls[call].row.family in families && Hist.OwnedBy(calls[call].row, families[calls[call].row.family])
    {
      assert Hist.InFamily(World(), calls[call].row);
    }

    lemma OwnedToken(token: nat)
      requires Valid() && token in tokens
      ensures tokens[token].family in families && Hist.OwnedBy(tokens[token], families[tokens[token].family])
    {
      assert Hist.InFamily(World(), tokens[token]);
    }

    /** The conditional update: `won` when it hit the row. */
    method Rotate(call: nat) returns (won: bool)
      requires Valid() && call in calls && calls[call].Issued?
      modifies `calls, `tokens, `committed, `wins
      ensures Valid() && World() == Rot.Do(old(World()), Rot.RefreshRotate(call))
      ensures won <==> old(Rot.Unrevoked(World(), calls[call].token))
      ensures won ==> call !in calls
      ensures !won ==> call in calls && calls[call] == Rot.Lost(old(calls[call].replacement))
    {
      hide Rot.Inv, Hist.Lineage, Rev.Inv, Markers.Shows;
      Keeps(World(), Rot.RefreshRotate(call));
      var c := calls[call];
      won := c.token in tokens && tokens[c.token].revokedAt.None?;
      if won {
        tokens := tokens[c.token := tokens[c.token].(revokedAt := Some(redis.now), replacedBy := Some(c.replacement))];
        committed, wins := committed + {c.replacement}, wins + [Rot.Win(c.token, c.replacement)];
        calls := calls - {call};
      } else {
        calls := calls[call := Rot.Lost(c.replacement)];
      }
    }

    method RevokeReplacement(call: nat)
      requires Valid() && call in calls && calls[call].Lost?
      modifies `calls, `tokens
      ensures Valid() && call !in calls && World() == Rot.Do(old(World()), Rot.RefreshRevoke(call))
      ensures !Rot.Unrevoked(World(), old(calls[call].replacement)) && old(calls[call].replacement) !in committed
    {
      assert calls[call].replacement !in committed;
      Keeps(World(), Rot.RefreshRevoke(call));
      var t := calls[call].replacement;
      if t in tokens { tokens := tokens[t := tokens[t].(revokedAt := Some(redis.now))]; }
      calls := calls - {call};
    }

    /** `revokeAccessTokens`; removing a user or a tenant writes the same kind of marker. */
    method Revoke(subject: Rev.Subject) returns (ok: bool)
      requires Valid()
      modifies redis`entries, `markers, `revoked
      ensures Valid() && ok == Rev.Storable(cfg) && Marks() == Rev.Do(cfg, old(Marks()), Rev.Revoke(subject))
      ensures redis.entries == if ok then old(redis.entries)[Markers.KeyOf(subject) :=
                                      Redis.Entry(Digits(redis.now / 1000), Some(redis.now + 1000 * cfg.ttl.value))]
                               else old(redis.entries)
    {
      hide Rot.Inv, Hist.Lineage, Rev.Inv, Markers.Shows, Redis.VisibleOf;
      Rev.InvStep(cfg, Marks(), Rev.Revoke(subject));
      Markers.MarkShows(redis.entries, redis.now, cfg, Marks(), subject);
      revoked := revoked + {(subject, redis.now)};
      if cfg.ttl.None? { return false; }
      var r := redis.SetWithOptions(Markers.KeyOf(subject), Digits(redis.now / 1000), Redis.SetOptions(cfg.ttl, None, false, false));
      ok := r.Ok?;
      if ok { markers := markers[subject := Rev.Marker(redis.now / 1000, redis.now + 1000 * cfg.ttl.value)]; }
    }

    /** `refresh`, while other requests do anything at each of its awaits. It wins exactly when its token is
        still unrevoked at the update; otherwise the token it stored is revoked before it reports failure. */
    method Refresh(q: Request, userActive: bool, member: bool, others: Others) returns (r: Result<Response, Error>)
      requires Valid() && q.call !in calls && q.newId !in ids && q.life == refreshLife
      requires q.token in tokens ==> q.token in committed
      requires Usable(q.token) ==> Interleaves(cfg, Now(), q, others)
      modifies this, redis
      ensures Valid() && q.call !in calls
      ensures var refusal := old(Refusal(q.token, userActive, member));
              if refusal.Some? then r == Err(refusal.value) else r.Ok? || r.error in {AlreadyUsed, MarkerRefused}
      ensures old(Usable(q.token)) && userActive && member ==>
                var s := AtUpdate(cfg, old(Now()), q, others).rot;
                var end := AtEnd(cfg, old(Now()), q, others);
                && (r == Err(AlreadyUsed) <==> !Rot.Unrevoked(s, q.token))
                && (r.Ok? <==> Rot.Unrevoked(s, q.token) && Rev.Storable(cfg))
                && (if Rot.Unrevoked(s, q.token) then Now() == DoStep(cfg, end, Mark(Rev.OfUser(old(tokens[q.token]).user)))
                    else && CanStep(end, Row(Rot.RefreshRevoke(q.call)))
                         && Now() == DoStep(cfg, end, Row(Rot.RefreshRevoke(q.call)))
                         && !Rot.Unrevoked(World(), q.newId) && q.newId !in committed)
      ensures r.Ok? ==>
                var family := old(tokens[q.token].family);
                && family in old(families)
                && var owner := old(families)[family];
                   r.value == Response(Rev.Sign(cfg, owner.user, owner.tenant, AtIssue(cfg, old(Now()), q, others).rot.now), q.newId)
    {
      if q.token in tokens { OwnedToken(q.token); }
      hide Valid, Interleaves, AtIssue, AtUpdate, AtEnd, CanStep, Refusal, Rot.Do, Rot.CanDo;
      ghost var before := Now();
      var error := FindUsable(q.call, q.token, userActive, member);
      if error.Some? { return Err(error.value); }
      r := CarryOn(q, tokens[q.token].user, tokens[q.token].tenant, others, before);
    }

    /** `refresh` from the membership check on. */
    method CarryOn(q: Request, user: Id, tenant: Id, others: Others, ghost before: Both) returns (r: Result<Response, Error>)
      requires Valid() && Interleaves(cfg, before, q, others) && q.life == refreshLife
      requires Now() == DoStep(cfg, before, Row(Rot.RefreshRead(q.call, q.token)))
      requires before.rot.tokens[q.token].user == user && before.rot.tokens[q.token].tenant == tenant
      modifies this, redis
      ensures Valid() && q.call !in calls && (r.Ok? || r.error in {AlreadyUsed, MarkerRefused})
      ensures var s := AtUpdate(cfg, before, q, others).rot;
              var end := AtEnd(cfg, before, q, others);
              && (r == Err(AlreadyUsed) <==> !Rot.Unrevoked(s, q.token))
              && (r.Ok? <==> Rot.Unrevoked(s, q.token) && Rev.Storable(cfg))
              && (if Rot.Unrevoked(s, q.token) then Now() == DoStep(cfg, end, Mark(Rev.OfUser(user)))
                  else && CanStep(end, Row(Rot.RefreshRevoke(q.call)))
                       && Now() == DoStep(cfg, end, Row(Rot.RefreshRevoke(q.call)))
                       && !Rot.Unrevoked(World(), q.newId) && q.newId !in committed)
      ensures r.Ok? ==>
                r.value == Response(Rev.Sign(cfg, user, tenant, AtIssue(cfg, before, q, others).rot.now), q.newId)
    {
      hide Valid, Interleaves, AtIssue, AtUpdate, AtEnd, CanStep, Rot.Do, Rot.CanDo;
      var response := Reissue(q, user, tenant, others, before);
      var won := Conclude(q, others, before);
      if !won { return Err(AlreadyUsed); }
      var ok := Revoke(Rev.OfUser(user));
      return if ok then Ok(response) else Err(MarkerRefused);
    }

    /** `refresh` from the membership check to its conditional update. */
    method Reissue(q: Request, user: Id, tenant: Id, others: Others, ghost before: Both) returns (response: Response)
      requires Valid() && Interleaves(cfg, before, q, others) && q.life == refreshLife
      requires Now() == DoStep(cfg, before, Row(Rot.RefreshRead(q.call, q.token)))
      requires before.rot.tokens[q.token].user == user && before.rot.tokens[q.token].tenant == tenant
      modifies this, redis
      ensures Valid() && Now() == AtUpdate(cfg, before, q, others)
      ensures q.call in calls && calls[q.call] == Rot.Issued(q.token, q.newId)
      ensures response == Response(Rev.Sign(cfg, user, tenant, AtIssue(cfg, before, q, others).rot.now), q.newId)
    {
      assert q.call in calls && calls[q.call] == Rot.Read(q.token, before.rot.tokens[q.token]);
      hide Valid, Rot.Do, ExecSteps, ValidSteps;
      Meanwhile(q.call, others.beforeIssue);
      response := IssueReplacement(q.call, q.newId);
      Meanwhile(q.call, others.beforeUpdate);
    }

    /** `refresh` from its conditional update on, but for the marker. */
    method Conclude(q: Request, others: Others, ghost before: Both) returns (won: bool)
      requires Valid() && Interleaves(cfg, before, q, others)
      requires Now() == AtUpdate(cfg, before, q, others)
      requires q.call in calls && calls[q.call] == Rot.Issued(q.token, q.newId)
      modifies this, redis
      ensures Valid() && q.call !in calls && won == old(Rot.Unrevoked(World(), q.token))
      ensures var end := AtEnd(cfg, before, q, others);
              if won then Now() == end
              else && CanStep(end, Row(Rot.RefreshRevoke(q.call))) && Now() == DoStep(cfg, end, Row(Rot.RefreshRevoke(q.call)))
                   && !Rot.Unrevoked(World(), q.newId) && q.newId !in committed
    {
      hide Valid, Rot.Do, ExecSteps, ValidSteps;
      won := Rotate(q.call);
      Meanwhile(q.call, others.afterUpdate);
      if !won { RevokeReplacement(q.call); }
    }

    /** What other requests do to the table and the markers. */
    method Meanwhile(call: nat, steps: seq<Step>)
      requires Valid() && ByOthers(cfg, Now(), call, steps)
      modifies this, redis
      ensures Valid() && Now() == ExecSteps(cfg, old(Now()), steps)
      ensures call in calls <==> call in old(calls)
      ensures call in calls ==> calls[call] == old(calls[call])
      decreases |steps|
    {
      if steps == [] { return; }
      hide Rot.Inv, Hist.Lineage, Rev.Inv, Rot.Do, Rot.CanDo, Markers.Shows;
      match steps[0] {
        case Row(a) => Change(call, a);
        case Mark(subject) => var ok := Revoke(subject);
      }
      Meanwhile(call, steps[1..]);
    }

    /** A step of another request on the table. */
    method Change(call: nat, a: Rot.Action)
      requires Valid() && Rot.CanDo(World(), a) && !Touches(a, call)
      modifies this, redis`now
      ensures Valid() && Now() == DoStep(cfg, old(Now()), Row(a))
      ensures call in calls <==> call in old(calls)
      ensures call in calls ==> calls[call] == old(calls[call])
    {
      hide Rot.Inv, Hist.Lineage, Rev.Inv, Rot.Do, Rot.CanDo, Touches, Markers.Shows;
      var next := Rot.Do(World(), a);
      Keeps(World(), a);
      TimePasses(World(), a);
      MineStays(World(), a, call);
      Rev.InvStep(cfg, Marks(), Rev.Wait(next.now - redis.now));
      Markers.WaitShows(redis.entries, redis.now, cfg, Marks(), next.now - redis.now);
      redis.now := next.now;
      tokens, calls, logouts := next.tokens, next.calls, next.logouts;
      committed, ids, families, wins := next.committed, next.ids, next.families, next.wins;
      assert World() == next;
    }

    /** `logout`: silent when the token is unknown or already revoked. */
    method Logout(call: nat, token: nat) returns (ok: bool)
      requires Valid() && call !in logouts && (token in tokens ==> token in committed)
      modifies `tokens, redis`entries, `markers, `revoked
      ensures Valid() && !Rot.Unrevoked(World(), token)
      ensures ok <==> (old(Rot.Unrevoked(World(), token)) ==> Rev.Storable(cfg))
      ensures if old(Rot.Unrevoked(World(), token)) then
                World() == Rot.Do(Rot.Do(old(World()), Rot.LogoutRead(call, token)), Rot.LogoutRevoke(call)) &&
                Marks() == Rev.Do(cfg, old(Marks()), Rev.Revoke(Rev.OfUser(old(tokens[token].user))))
              else World() == old(World()) && Marks() == old(Marks())
    {
      hide Rot.Inv, Hist.Lineage, Rev.Inv, Markers.Shows;
      ok := true;
      if token in tokens && tokens[token].revokedAt.None? {
        Keeps(World(), Rot.LogoutRead(call, token));
        Keeps(Rot.Do(World(), Rot.LogoutRead(call, token)), Rot.LogoutRevoke(call));
        var user := tokens[token].user;
        assert logouts[call := token] - {call} == logouts;
        tokens := tokens[token := tokens[token].(revokedAt := Some(redis.now))];
        ok := Revoke(Rev.OfUser(user));
      }
    }

    method CleanupExpiredTokens() returns (count: nat)
      requires Valid()
      modifies `tokens
      ensures Valid() && World() == Rot.Do(old(World()), Rot.Cleanup)
      ensures count == |old(tokens)| - |tokens|
    {
      hide Rot.Inv, Hist.Lineage, Rev.Inv, Markers.Shows;
      Keeps(World(), Rot.Cleanup);
      var cutoff := redis.now - Rot.RETENTION;
      var kept := map t | t in tokens && !(tokens[t].expiresAt < cutoff ||
                                           (tokens[t].revokedAt.Some? && tokens[t].revokedAt.value < cutoff)) :: tokens[t];
      KeysShrink(tokens, kept);
      assert kept == Rot.Do(World(), Rot.Cleanup).tokens;
      count := |tokens| - |kept|;
      tokens := kept;
    }

    static lemma KeysShrink(all: map<nat, Rot.Token>, kept: map<nat, Rot.Token>)
      requires kept.Keys <= all.Keys
      ensures |kept| <= |all|
    {
      assert all.Keys == kept.Keys + (all.Keys - kept.Keys);
      assert |kept.Keys| == |kept| && |all.Keys| == |all|;
    }

    /** The strategy of `jwt.strategy.ts`, after the library has checked the expiry. */
    method Validate(t: Rev.Jwt) returns (ok: bool)
      requires Valid()
      ensures ok <==> Rev.Accepts(Marks(), t)
    {
      hide Rot.Inv, Hist.Lineage, Rev.Inv, Markers.Shows, Rev.RejectedBy;
      if redis.now / 1000 >= t.exp { return false; }
      if !t.active { return false; }
      if t.iat != 0 {
        var logout := Revoked(Rev.OfUser(t.sub), t.iat);
        var deactivated := Revoked(Rev.OfTenant(t.tenant), t.iat);
        return !logout && !deactivated;
      }
      return true;
    }

    /** Whether the number under the subject's key is a later second. */
    method Revoked(k: Rev.Subject, iat: nat) returns (b: bool)
      requires Markers.Shows(redis.entries, redis.now, Marks())
      ensures b <==> Rev.RejectedBy(Marks(), k, iat)
    {
      Markers.ReadShows(redis.entries, redis.now, Marks(), k, iat);
      hide Markers.Shows, Rev.RejectedBy;
      var text := redis.Get(Markers.KeyOf(k));
      b := text.Some? && text.value != "" && iat < Value(text.value);
    }
  }
}
