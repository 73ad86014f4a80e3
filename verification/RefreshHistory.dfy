/** Where tokens come from and what becomes of their rows: whose they are, how long they live, what
    replaced them, and when their rows go. */
module RefreshHistory {
  import opened Common
  import opened RefreshRotation

  predicate OwnedBy(t: Token, o: Owner) { t.user == o.user && t.tenant == o.tenant }

  /** Every stored token, and every row a refresh has read, is that of its family's owner and expires when
      its birth says. */
  ghost predicate Lineage(s: State) { StoredInFamily(s) && ReadInFamily(s) }

  ghost predicate StoredInFamily(s: State) {
    forall t :: t in s.tokens ==> t in s.ids && InFamily(s, s.tokens[t]) && LivesAs(s.tokens[t], s.ids[t])
  }

  ghost predicate ReadInFamily(s: State) {
    forall c :: c in s.calls && s.calls[c].Read? ==> InFamily(s, s.calls[c].row)
  }

  predicate InFamily(s: State, t: Token) { t.family in s.families && OwnedBy(t, s.families[t.family]) }

  predicate LivesAs(t: Token, b: Birth) { t.expiresAt == b.at + b.life }

  lemma LineageStep(s: State, a: Action)
    requires Lineage(s) && CanDo(s, a)
    ensures Lineage(Do(s, a))
  {
    hide StoredInFamily, ReadInFamily, Do, CanDo;
    StoredStep(s, a);
    ReadStep(s, a);
  }

  lemma StoredStep(s: State, a: Action)
    requires Lineage(s) && CanDo(s, a)
    ensures StoredInFamily(Do(s, a))
  {
  }

  lemma ReadStep(s: State, a: Action)
    requires Lineage(s) && CanDo(s, a)
    ensures ReadInFamily(Do(s, a))
  {
  }

  /** What is known of families and births never changes. */
  lemma HistoryStep(s: State, a: Action)
    requires CanDo(s, a)
    ensures forall f :: f in s.families ==> f in Do(s, a).families && Do(s, a).families[f] == s.families[f]
    ensures forall t :: t in s.ids ==> t in Do(s, a).ids && Do(s, a).ids[t] == s.ids[t]
  {
  }

  lemma {:induction false} HistoryRun(s: State, run: seq<Action>)
    requires Valid(s, run) && Lineage(s)
    ensures Lineage(Exec(s, run))
    ensures forall f :: f in s.families ==> f in Exec(s, run).families && Exec(s, run).families[f] == s.families[f]
    ensures forall t :: t in s.ids ==> t in Exec(s, run).ids && Exec(s, run).ids[t] == s.ids[t]
    decreases |run|
  {
    if run != [] {
      LineageStep(s, run[0]);
      HistoryStep(s, run[0]);
      HistoryRun(Do(s, run[0]), run[1..]);
    }
  }

  lemma {:induction false} RunParts(s: State, before: seq<Action>, a: Action, after: seq<Action>)
    requires Valid(s, before + ([a] + after))
    ensures Valid(s, before) && CanDo(Exec(s, before), a) && Valid(Do(Exec(s, before), a), after)
    ensures Exec(s, before + ([a] + after)) == Exec(Do(Exec(s, before), a), after)
    decreases |before|
  {
    if before == [] {
      assert before + ([a] + after) == [a] + after && ([a] + after)[1..] == after;
    } else {
      assert (before + ([a] + after))[1..] == before[1..] + ([a] + after);
      RunParts(Do(s, before[0]), before[1..], a, after);
    }
  }

  /** However often it has been refreshed: a token descending from a login is that login's user's, for that
      login's tenant. */
  lemma FamilyKeepsItsLogin(before: seq<Action>, login: Action, after: seq<Action>, t: nat)
    requires login.Login? && Valid(INIT, before + ([login] + after))
    requires var s := Exec(INIT, before + ([login] + after)); t in s.tokens && s.tokens[t].family == login.family
    ensures var s := Exec(INIT, before + ([login] + after));
            s.tokens[t].user == login.user && s.tokens[t].tenant == login.tenant
  {
    RunParts(INIT, before, login, after);
    HistoryRun(INIT, before);
    LineageStep(Exec(INIT, before), login);
    HistoryRun(Do(Exec(INIT, before), login), after);
  }

  /** A token expires its configured lifetime after the moment it was stored, whether a login stored it or a
      refresh. */
  lemma TokensLiveAsIssued(before: seq<Action>, issue: Action, after: seq<Action>)
    requires (issue.Login? || issue.RefreshIssue?) && Valid(INIT, before + ([issue] + after))
    ensures var s := Exec(INIT, before + ([issue] + after));
            Valid(INIT, before) &&
            (issue.newId in s.tokens ==> s.tokens[issue.newId].expiresAt == Exec(INIT, before).now + issue.life)
  {
    RunParts(INIT, before, issue, after);
    HistoryRun(INIT, before);
    LineageStep(Exec(INIT, before), issue);
    HistoryRun(Do(Exec(INIT, before), issue), after);
  }

  // ---------------------------------------------------------------- successors

  /** A stored token names its successor exactly when a refresh of it has won. */
  ghost predicate Linked(s: State) {
    forall t: nat, r: nat :: t in s.tokens ==> (s.tokens[t].replacedBy == Some(r) <==> Win(t, r) in s.wins)
  }

  lemma LinkedStep(s: State, a: Action)
    requires Inv(s) && Linked(s) && CanDo(s, a)
    ensures Linked(Do(s, a))
  {
    hide OneLive, CallsKnown, CallsApart, CallsInFamily;
    var s' := Do(s, a);
    assert s'.wins != s.wins ==> s'.wins == s.wins + [s'.wins[|s.wins|]];
    forall t: nat, r: nat | t in s'.tokens ensures s'.tokens[t].replacedBy == Some(r) <==> Win(t, r) in s'.wins {
      if (a.Login? || a.RefreshIssue?) && t == a.newId {
        assert forall i :: 0 <= i < |s.wins| ==> s.wins[i].token in s.ids;
      } else {
        assert s.tokens[t].replacedBy == Some(r) <==> Win(t, r) in s.wins;
        if Win(t, r) in s.wins { WonOnce(s, a, t, r); }
      }
    }
  }

  /** A win that is just being entered is the first of its token. */
  lemma WonOnce(s: State, a: Action, t: nat, r: nat)
    requires Inv(s) && CanDo(s, a) && t in s.tokens && Win(t, r) in s.wins
    ensures a.RefreshRotate? && Unrevoked(s, s.calls[a.call].token) ==> s.calls[a.call].token != t
  {
    var i :| 0 <= i < |s.wins| && s.wins[i] == Win(t, r);
    assert !Unrevoked(s, s.wins[i].token);
  }

  lemma {:induction false} LinkedRun(s: State, run: seq<Action>)
    requires Inv(s) && Linked(s) && Valid(s, run)
    ensures Linked(Exec(s, run))
    decreases |run|
  {
    if run != [] {
      LinkedStep(s, run[0]);
      RecordedStep(s, run[0]);
      CallsStep(s, run[0]);
      WinsStep(s, run[0]);
      OneLiveStep(s, run[0]);
      LinkedRun(Do(s, run[0]), run[1..]);
    }
  }

  lemma SuccessorsAreRecorded(run: seq<Action>, t: nat, r: nat)
    requires Valid(INIT, run) && t in Exec(INIT, run).tokens
    ensures Exec(INIT, run).tokens[t].replacedBy == Some(r) <==> Win(t, r) in Exec(INIT, run).wins
  {
    LinkedRun(INIT, run);
  }

  // ---------------------------------------------------------------- rows

  /** A step revokes a row now or not at all, and changes nothing else about it but its successor. */
  lemma RowsChangeOnlySo(s: State, a: Action, t: nat)
    requires Recorded(s) && CanDo(s, a) && t in s.tokens && t in Do(s, a).tokens
    ensures var was, row := s.tokens[t], Do(s, a).tokens[t];
            && row == was.(revokedAt := row.revokedAt, replacedBy := row.replacedBy)
            && (row.revokedAt == was.revokedAt || row.revokedAt == Some(s.now))
            && (row.replacedBy != was.replacedBy ==> row.revokedAt == Some(s.now) && was.revokedAt.None?)
  {
  }

  /** A row goes exactly when it is cleaned up, 30 days after it expired or was revoked, or when its user or
      tenant is deleted. */
  lemma RowsGoExactlyWhen(s: State, a: Action, t: nat)
    requires CanDo(s, a) && t in s.tokens
    ensures var row := s.tokens[t];
            t !in Do(s, a).tokens <==>
              || (a.Cleanup? && (row.expiresAt + RETENTION < s.now ||
                                 (row.revokedAt.Some? && row.revokedAt.value + RETENTION < s.now)))
              || (a.DeleteOf? && (row.user in a.users || row.tenant in a.tenants))
  {
  }
}
