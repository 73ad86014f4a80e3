/** What every step of the pipeline keeps, and what follows for whole runs. */
module PipelineSafety {
  import opened Topology
  import opened Pipeline

  /** A delivery's own step leaves every queue and every other delivery alone, and keeps its copy. */
  lemma AdvanceFrame(s: State, w: nat, r: Reply)
    requires IsBusy(s, w) && !ReadyToSettle(s.workers[w].phase)
    ensures var s' := AdvanceTo(s, w, r);
            && s'.main == s.main && s'.retry == s.retry && s'.dlq == s.dlq && s'.entered == s.entered
            && IsBusy(s', w) && s'.workers == s.workers[w := Busy(s.workers[w].copy, s'.workers[w].phase)]
  {
  }

  /** Settling frees the slot and touches nothing but the retry and dead-letter queues. */
  lemma SettleFrame(cfg: Config, s: State, w: nat, send: Send)
    requires IsBusy(s, w) && ReadyToSettle(s.workers[w].phase)
    ensures var s' := SettleTo(cfg, s, w, send);
            && s'.workers == s.workers[w := Idle] && s'.main == s.main && s'.locks == s.locks && s'.flags == s.flags
            && s'.rows == s.rows && s'.recorded == s.recorded && s'.handled == s.handled && s'.entered == s.entered
  {
  }

  // ---------------------------------------------------------------- lock ownership

  /** Whoever acquired the lock last is still between acquire and release. */
  predicate Owned(s: State, k: Key)
    requires k in s.locks
  {
    IsBusy(s, s.locks[k]) && InSection(s.workers[s.locks[k]].phase) && KeyOf(s.workers[s.locks[k]].copy) == k
  }

  /** Every lock is owned, or (unless `all`) every lock of an event without a record. */
  ghost predicate LockOwned(s: State, all: bool) {
    forall k :: k in s.locks && (all || k.event !in s.recorded) ==> Owned(s, k)
  }

  lemma LockOwnedStep(cfg: Config, s: State, a: Action, all: bool)
    requires CanDo(cfg, s, a) && LockOwned(s, all)
    requires if all then !LeavesLock(s, a) else !OrphansEvent(s, a)
    ensures LockOwned(Do(cfg, s, a), all)
  {
    match a
    case Advance(w, r) => LockOwnedAdvance(s, w, r, all);
    case Settle(w, send) => SettleFrame(cfg, s, w, send);
    case _ =>
  }

  lemma LockOwnedAdvance(s: State, w: nat, r: Reply, all: bool)
    requires IsBusy(s, w) && !ReadyToSettle(s.workers[w].phase) && LockOwned(s, all)
    requires if all then !LeavesLock(s, Advance(w, r)) else !OrphansEvent(s, Advance(w, r))
    ensures LockOwned(AdvanceTo(s, w, r), all)
  {
    AdvanceFrame(s, w, r);
    var s' := AdvanceTo(s, w, r);
    assert s.recorded <= s'.recorded;
    forall k | k in s'.locks && (all || k.event !in s'.recorded) ensures Owned(s', k) {
      if k != KeyOf(s.workers[w].copy) { assert k in s.locks; }
    }
  }

  // ---------------------------------------------------------------- deduplication records

  /** Phases reached only once a row for the event has been written. */
  predicate AfterRecord(p: Phase) {
    p == MarkSeen || p == Mark || p == Release || p == DupMark || p == DupRelease || p == DupReleaseAgain || p == Done
  }

  ghost predicate Honest(s: State) { RecordsHonest(s) && DeliveriesHonest(s) }

  ghost predicate RecordsHonest(s: State) {
    && (forall k :: k in s.flags ==> k.event in s.recorded)
    && s.rows <= s.recorded
    && (forall e :: e in s.recorded ==> e in s.handled)
  }

  ghost predicate DeliveriesHonest(s: State) {
    && (forall w: nat :: IsBusy(s, w) && AfterRecord(s.workers[w].phase) ==> s.workers[w].copy.event in s.recorded)
    && (forall w: nat :: IsBusy(s, w) && s.workers[w].phase == Insert ==> s.workers[w].copy.event in s.handled)
  }

  lemma HonestStep(cfg: Config, s: State, a: Action)
    requires CanDo(cfg, s, a) && Honest(s)
    ensures Honest(Do(cfg, s, a))
  {
    match a
    case Advance(w, r) => HonestAdvance(s, w, r);
    case Settle(w, send) => SettleFrame(cfg, s, w, send);
    case _ =>
  }

  lemma HonestAdvance(s: State, w: nat, r: Reply)
    requires IsBusy(s, w) && !ReadyToSettle(s.workers[w].phase) && Honest(s)
    ensures Honest(AdvanceTo(s, w, r))
  {
    AdvanceFrame(s, w, r);
    RecordsAdvance(s, w, r);
    DeliveriesAdvance(s, w, r);
  }

  lemma RecordsAdvance(s: State, w: nat, r: Reply)
    requires IsBusy(s, w) && !ReadyToSettle(s.workers[w].phase) && Honest(s)
    ensures RecordsHonest(AdvanceTo(s, w, r))
  {
  }

  lemma DeliveriesAdvance(s: State, w: nat, r: Reply)
    requires IsBusy(s, w) && !ReadyToSettle(s.workers[w].phase) && Honest(s)
    ensures DeliveriesHonest(AdvanceTo(s, w, r))
  {
    AdvanceFrame(s, w, r);
    RecordsGrow(s, w, r);
    OwnDeliveryHonest(s, w, r);
    var s' := AdvanceTo(s, w, r);
    hide AdvanceTo, AfterRecord;
    forall v: nat | IsBusy(s', v) && v != w ensures IsBusy(s, v) && s'.workers[v] == s.workers[v] {
    }
  }

  lemma RecordsGrow(s: State, w: nat, r: Reply)
    requires IsBusy(s, w) && !ReadyToSettle(s.workers[w].phase)
    ensures s.recorded <= AdvanceTo(s, w, r).recorded && s.handled <= AdvanceTo(s, w, r).handled
  {
  }

  lemma OwnDeliveryHonest(s: State, w: nat, r: Reply)
    requires IsBusy(s, w) && !ReadyToSettle(s.workers[w].phase) && Honest(s)
    ensures var s' := AdvanceTo(s, w, r);
            && IsBusy(s', w)
            && (AfterRecord(s'.workers[w].phase) ==> s.workers[w].copy.event in s'.recorded)
            && (s'.workers[w].phase == Insert ==> s.workers[w].copy.event in s'.handled)
  {
  }

  // ---------------------------------------------------------------- the retry ladder

  ghost predicate Ladder(cfg: Config, s: State) {
    && |s.retry| == cfg.maxRetries
    && (forall i :: 0 <= i < |s.main| ==> s.main[i].retries <= cfg.maxRetries)
    && (forall i :: 0 <= i < |s.dlq| ==> s.dlq[i].retries <= cfg.maxRetries)
    && (forall w: nat :: IsBusy(s, w) ==> s.workers[w].copy.retries <= cfg.maxRetries)
    && (forall l, i :: 0 <= l < |s.retry| && 0 <= i < |s.retry[l]| ==> s.retry[l][i].retries == l + 1)
  }

  lemma LadderStep(cfg: Config, s: State, a: Action)
    requires CanDo(cfg, s, a) && Ladder(cfg, s)
    ensures Ladder(cfg, Do(cfg, s, a))
  {
    match a
    case Advance(w, r) => AdvanceFrame(s, w, r);
    case Settle(w, send) => LadderSettle(cfg, s, w, send);
    case _ =>
  }

  lemma LadderSettle(cfg: Config, s: State, w: nat, send: Send)
    requires IsBusy(s, w) && ReadyToSettle(s.workers[w].phase) && Ladder(cfg, s)
    ensures Ladder(cfg, SettleTo(cfg, s, w, send))
  {
  }

  /** Holds of a copy, however often it has been retried. */
  type CopyTest = (Key, bool) -> bool

  ghost predicate Passes(p: CopyTest, c: Copy) { p(KeyOf(c), c.parses) }

  /** Every copy in a queue or at a worker passes. */
  ghost predicate Everywhere(s: State, p: CopyTest) {
    && (forall i :: 0 <= i < |s.main| ==> Passes(p, s.main[i]))
    && (forall i :: 0 <= i < |s.dlq| ==> Passes(p, s.dlq[i]))
    && (forall w: nat :: IsBusy(s, w) ==> Passes(p, s.workers[w].copy))
    && (forall l, i :: 0 <= l < |s.retry| && 0 <= i < |s.retry[l]| ==> Passes(p, s.retry[l][i]))
  }

  lemma EverywhereStep(cfg: Config, s: State, a: Action, p: CopyTest)
    requires CanDo(cfg, s, a) && Everywhere(s, p)
    requires a.Publish? ==> Passes(p, a.copy)
    ensures Everywhere(Do(cfg, s, a), p)
  {
    hide SettleTo, AdvanceTo, Routes, Passes;
    match a
    case Advance(w, r) => AdvanceFrame(s, w, r);
    case Settle(w, send) => EverywhereSettle(cfg, s, w, send, p);
    case _ =>
  }

  lemma EverywhereSettle(cfg: Config, s: State, w: nat, send: Send, p: CopyTest)
    requires IsBusy(s, w) && ReadyToSettle(s.workers[w].phase) && Everywhere(s, p)
    ensures Everywhere(SettleTo(cfg, s, w, send), p)
  {
    var c := s.workers[w].copy;
    assert Passes(p, c.(retries := c.retries + 1));
    hide Passes;
  }

  /** The copy's routing key reaches the main queue. */
  function RoutesTo(cfg: Config): CopyTest { (k: Key, _: bool) => Routes(cfg, k.routingKey) }

  ghost predicate PublishesOnly(acts: seq<Action>, keys: iset<string>) {
    forall i :: 0 <= i < |acts| && acts[i].Publish? ==> acts[i].copy.routingKey in keys
  }

  /** When the retry queues route back and every published key reaches the main queue, nothing in the
      run is handed to the exchange in vain. */
  lemma {:induction false} RoutedRun(cfg: Config, s: State, acts: seq<Action>, keys: iset<string>)
    requires Valid(cfg, s, acts) && RoutesBack(cfg) && Ladder(cfg, s) && Everywhere(s, RoutesTo(cfg))
    requires PublishesOnly(acts, keys) && forall key :: key in keys ==> Routes(cfg, key)
    ensures AllRouted(cfg, s, acts)
    decreases |acts|
  {
    if acts != [] {
      assert acts[0] == Republish && s.dlq != [] ==> Passes(RoutesTo(cfg), s.dlq[0]);
      LadderStep(cfg, s, acts[0]);
      EverywhereStep(cfg, s, acts[0], RoutesTo(cfg));
      assert forall i :: 0 <= i < |acts[1..]| ==> acts[1..][i] == acts[i + 1];
      RoutedRun(cfg, Do(cfg, s, acts[0]), acts[1..], keys);
    }
  }

  // ---------------------------------------------------------------- conservation

  /** Where a copy can be found. */
  datatype Loc = InMain(i: nat) | InRetry(level: nat, i: nat) | InDlq(i: nat) | AtWorker(w: nat)

  /** A copy of `e` lies at `loc`. */
  ghost predicate Present(s: State, loc: Loc, e: Event) {
    match loc
    case InMain(i) => i < |s.main| && s.main[i].event == e
    case InRetry(l, i) => l < |s.retry| && i < |s.retry[l]| && s.retry[l][i].event == e
    case InDlq(i) => i < |s.dlq| && s.dlq[i].event == e
    case AtWorker(w) => IsBusy(s, w) && s.workers[w].copy.event == e
  }

  /** A present copy that is not already on its way to an ack. */
  ghost predicate Firm(s: State, loc: Loc, e: Event) {
    && Present(s, loc, e)
    && (loc.AtWorker? ==> s.workers[loc.w].phase != Done && s.workers[loc.w].phase != Skipping)
  }

  /** Where the copy at `loc` is after the action. */
  ghost function Moved(cfg: Config, s: State, a: Action, loc: Loc): Loc
    requires CanDo(cfg, s, a)
  {
    match (a, loc)
    case (Deliver(w), InMain(i)) => if i == 0 then AtWorker(w) else InMain(i - 1)
    case (Settle(w, send), AtWorker(v)) =>
      var c := s.workers[w].copy;
      if v != w then loc
      else if c.retries < cfg.maxRetries && send != Refused && c.retries < |s.retry| then
        InRetry(c.retries, |s.retry[c.retries]|)
      else InDlq(|s.dlq|)
    case (RetryExpire(l), InRetry(m, i)) =>
      if m != l then loc else if i == 0 then InMain(|s.main|) else InRetry(l, i - 1)
    case (Republish, InDlq(i)) => if i == 0 then InMain(|s.main|) else InDlq(i - 1)
    case (Die(w), InMain(i)) => InMain(i + 1)
    case (Die(w), AtWorker(v)) => if v == w then InMain(0) else loc
    case _ => loc
  }

  ghost predicate Retires(cfg: Config, s: State, a: Action, loc: Loc)
    requires CanDo(cfg, s, a)
  {
    && a.Advance? && loc == AtWorker(a.w)
    && (Do(cfg, s, a).workers[a.w].phase == Done || Do(cfg, s, a).workers[a.w].phase == Skipping)
  }

  lemma FirmMoves(cfg: Config, s: State, a: Action, loc: Loc, e: Event)
    requires CanDo(cfg, s, a) && Firm(s, loc, e)
    requires Ladder(cfg, s) && !Unroutable(cfg, s, a)
    requires !Retires(cfg, s, a, loc)
    ensures Firm(Do(cfg, s, a), Moved(cfg, s, a, loc), e)
  {
    var s', to := Do(cfg, s, a), Moved(cfg, s, a, loc);
    match a
    case Advance(w, r) => AdvanceFrame(s, w, r);
    case Settle(w, send) => SettleMoves(cfg, s, w, send, loc, e);
    case _ =>
  }

  lemma SettleMoves(cfg: Config, s: State, w: nat, send: Send, loc: Loc, e: Event)
    requires CanDo(cfg, s, Settle(w, send)) && Firm(s, loc, e) && Ladder(cfg, s)
    ensures Firm(SettleTo(cfg, s, w, send), Moved(cfg, s, Settle(w, send), loc), e)
  {
    var s', to := SettleTo(cfg, s, w, send), Moved(cfg, s, Settle(w, send), loc);
    if loc == AtWorker(w) {
      assert s.workers[w].phase == Failing;
    }
  }

  ghost predicate Kept(s: State, e: Event) {
    e in s.recorded || exists loc :: Firm(s, loc, e)
  }

  ghost predicate Inv(cfg: Config, s: State) {
    && LockOwned(s, false) && Honest(s) && Ladder(cfg, s)
    && (forall e :: e in s.entered ==> Kept(s, e))
  }

  lemma KeptStep(cfg: Config, s: State, a: Action, e: Event)
    requires CanDo(cfg, s, a) && !Unroutable(cfg, s, a)
    requires LockOwned(s, false) && Honest(s) && Ladder(cfg, s) && Kept(s, e)
    ensures Kept(Do(cfg, s, a), e)
  {
    if e in s.recorded {
      RecordedStays(cfg, s, a, e);
    } else {
      var loc :| Firm(s, loc, e);
      if Retires(cfg, s, a, loc) {
        RetiredIsKept(s, a.w, a.r, e);
      } else {
        FirmMoves(cfg, s, a, loc, e);
      }
    }
  }

  lemma RecordedStays(cfg: Config, s: State, a: Action, e: Event)
    requires CanDo(cfg, s, a) && e in s.recorded
    ensures e in Do(cfg, s, a).recorded
  {
  }

  /** A delivery heading for its ack leaves the event recorded, or in the hands of the lock's holder. */
  lemma RetiredIsKept(s: State, w: nat, r: Reply, e: Event)
    requires IsBusy(s, w) && !ReadyToSettle(s.workers[w].phase) && s.workers[w].copy.event == e
    requires LockOwned(s, false) && Honest(s)
    requires var p := AdvanceTo(s, w, r).workers[w].phase; p == Done || p == Skipping
    ensures Kept(AdvanceTo(s, w, r), e)
  {
    var s' := AdvanceTo(s, w, r);
    AdvanceFrame(s, w, r);
    HonestAdvance(s, w, r);
    if s'.workers[w].phase == Skipping && e !in s.recorded {
      assert Owned(s, KeyOf(s.workers[w].copy));
      assert Firm(s', AtWorker(s.locks[KeyOf(s.workers[w].copy)]), e);
    }
  }

  lemma InvStep(cfg: Config, s: State, a: Action)
    requires CanDo(cfg, s, a) && Inv(cfg, s)
    requires !Unroutable(cfg, s, a) && !OrphansEvent(s, a)
    ensures Inv(cfg, Do(cfg, s, a))
  {
    hide LockOwned, Honest, Ladder;
    var s' := Do(cfg, s, a);
    LockOwnedStep(cfg, s, a, false);
    HonestStep(cfg, s, a);
    LadderStep(cfg, s, a);
    forall e | e in s'.entered ensures Kept(s', e) {
      if e in s.entered {
        KeptStep(cfg, s, a, e);
      } else {
        assert Firm(s', InMain(|s.main|), e);
      }
    }
  }

  lemma {:induction false} InvRun(cfg: Config, s: State, acts: seq<Action>)
    requires Valid(cfg, s, acts) && AllRouted(cfg, s, acts) && NoneOrphaned(cfg, s, acts) && Inv(cfg, s)
    ensures Inv(cfg, Exec(cfg, s, acts))
    decreases |acts|
  {
    if acts != [] {
      InvStep(cfg, s, acts[0]);
      InvRun(cfg, Do(cfg, s, acts[0]), acts[1..]);
    }
  }

  /** The event was recorded as processed, or a copy is in a queue or un-acked at a worker. */
  ghost predicate NotLost(s: State, e: Event) {
    e in s.recorded || exists loc :: Present(s, loc, e)
  }

  /** No event that reached the main queue disappears, in any interleaving of any number of workers,
      with duplicate publishing, failing calls and lost answers, refused sends, dying workers, and Redis
      or row expiry at any moment, unless a step hands a copy to the exchange under a key that does not
      reach the main queue, or leaves the lock of an unrecorded event behind. */
  lemma NoEventLost(cfg: Config, slots: nat, acts: seq<Action>, e: Event)
    requires Valid(cfg, Init(cfg, slots), acts)
    requires AllRouted(cfg, Init(cfg, slots), acts) && NoneOrphaned(cfg, Init(cfg, slots), acts)
    requires e in Exec(cfg, Init(cfg, slots), acts).entered
    ensures NotLost(Exec(cfg, Init(cfg, slots), acts), e)
  {
    InvRun(cfg, Init(cfg, slots), acts);
    var s := Exec(cfg, Init(cfg, slots), acts);
    assert Kept(s, e);
  }
}
