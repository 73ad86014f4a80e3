/** Mutual exclusion, deduplication and termination of the pipeline over whole runs. */
module PipelineClaims {
  import opened Sums
  import opened Topology
  import opened Pipeline
  import opened PipelineSafety

  // ---------------------------------------------------------------- mutual exclusion

  /** A delivery inside the section of an event not yet recorded owns the lock. */
  ghost predicate Exclusive(s: State) {
    forall w: nat :: IsBusy(s, w) && InSection(s.workers[w].phase) && s.workers[w].copy.event !in s.recorded ==>
      KeyOf(s.workers[w].copy) in s.locks && s.locks[KeyOf(s.workers[w].copy)] == w
  }

  lemma ExclusiveStep(cfg: Config, s: State, a: Action)
    requires CanDo(cfg, s, a) && !a.LockExpire? && Honest(s) && Exclusive(s)
    ensures Exclusive(Do(cfg, s, a))
  {
    match a
    case Advance(w, r) => ExclusiveAdvance(s, w, r);
    case Settle(w, send) => SettleFrame(cfg, s, w, send);
    case _ =>
  }

  lemma ExclusiveAdvance(s: State, w: nat, r: Reply)
    requires IsBusy(s, w) && !ReadyToSettle(s.workers[w].phase) && Honest(s) && Exclusive(s)
    ensures Exclusive(AdvanceTo(s, w, r))
  {
    AdvanceFrame(s, w, r);
    var s' := AdvanceTo(s, w, r);
    var mine := s.workers[w];
    forall v: nat | IsBusy(s', v) && InSection(s'.workers[v].phase) && s'.workers[v].copy.event !in s'.recorded
      ensures KeyOf(s'.workers[v].copy) in s'.locks && s'.locks[KeyOf(s'.workers[v].copy)] == v
    {
      if v != w {
        assert s'.workers[v] == s.workers[v];
        // a release of v's key could only come from a delivery that owns it, or after the record
        assert KeyOf(mine.copy) == KeyOf(s.workers[v].copy) ==> !InSection(mine.phase) && mine.phase != DupReleaseAgain;
      }
    }
  }

  ghost predicate NoLockExpiry(acts: seq<Action>) {
    forall i :: 0 <= i < |acts| ==> !acts[i].LockExpire?
  }

  lemma {:induction false} ExclusiveRun(cfg: Config, s: State, acts: seq<Action>)
    requires Valid(cfg, s, acts) && NoLockExpiry(acts) && Honest(s) && Exclusive(s)
    ensures Honest(Exec(cfg, s, acts)) && Exclusive(Exec(cfg, s, acts))
    decreases |acts|
  {
    if acts != [] {
      HonestStep(cfg, s, acts[0]);
      ExclusiveStep(cfg, s, acts[0]);
      ExclusiveRun(cfg, Do(cfg, s, acts[0]), acts[1..]);
    }
  }

  /** As long as no lock outlives its TTL, at most one delivery of an event under one routing key is
      between acquire and release until the event is recorded, even when workers die and calls fail. */
  lemma MutualExclusion(cfg: Config, slots: nat, acts: seq<Action>, v: nat, w: nat)
    requires Valid(cfg, Init(cfg, slots), acts) && NoLockExpiry(acts)
    requires var s := Exec(cfg, Init(cfg, slots), acts);
             && IsBusy(s, v) && IsBusy(s, w)
             && InSection(s.workers[v].phase) && InSection(s.workers[w].phase)
             && KeyOf(s.workers[v].copy) == KeyOf(s.workers[w].copy)
             && s.workers[v].copy.event !in s.recorded
    ensures v == w
  {
    ExclusiveRun(cfg, Init(cfg, slots), acts);
  }

  lemma {:induction false} OwnershipRun(cfg: Config, s: State, acts: seq<Action>)
    requires Valid(cfg, s, acts) && LocksReleased(cfg, s, acts) && LockOwned(s, true)
    ensures LockOwned(Exec(cfg, s, acts), true)
    decreases |acts|
  {
    if acts != [] {
      LockOwnedStep(cfg, s, acts[0], true);
      OwnershipRun(cfg, Do(cfg, s, acts[0]), acts[1..]);
    }
  }

  /** While no step leaves a lock behind, a present lock's last acquirer is inside the section, TTL expiry
      and double release included. */
  lemma LockHolderIsInSection(cfg: Config, slots: nat, acts: seq<Action>, k: Key)
    requires Valid(cfg, Init(cfg, slots), acts) && LocksReleased(cfg, Init(cfg, slots), acts)
    requires k in Exec(cfg, Init(cfg, slots), acts).locks
    ensures var s := Exec(cfg, Init(cfg, slots), acts);
            var w := s.locks[k];
            IsBusy(s, w) && InSection(s.workers[w].phase) && KeyOf(s.workers[w].copy) == k
  {
    OwnershipRun(cfg, Init(cfg, slots), acts);
  }

  // ---------------------------------------------------------------- deduplication

  lemma {:induction false} HonestRun(cfg: Config, s: State, acts: seq<Action>)
    requires Valid(cfg, s, acts) && Honest(s)
    ensures Honest(Exec(cfg, s, acts))
    decreases |acts|
  {
    if acts != [] {
      HonestStep(cfg, s, acts[0]);
      HonestRun(cfg, Do(cfg, s, acts[0]), acts[1..]);
    }
  }

  /** A set flag means a row was written; a row means the handler ran or none is registered. */
  lemma FlagsAndRowsAreHonest(cfg: Config, slots: nat, acts: seq<Action>)
    requires Valid(cfg, Init(cfg, slots), acts)
    ensures var s := Exec(cfg, Init(cfg, slots), acts);
            && (forall k :: k in s.flags ==> k.event in s.recorded)
            && (forall e :: e in s.rows ==> e in s.recorded)
            && (forall e :: e in s.recorded ==> e in s.handled)
  {
    HonestRun(cfg, Init(cfg, slots), acts);
  }

  /** The delivery has passed its row check and may still run the handler. */
  predicate PastCheck(w: Worker, e: Event) {
    w.Busy? && w.copy.event == e && (w.phase == Acquire || w.phase == Handle)
  }

  function PastCheckWeight(e: Event): Worker -> nat { w => if PastCheck(w, e) then 1 else 0 }

  /** Handler runs for `e` so far, and deliveries that have already missed the row. */
  function Runs(s: State, e: Event): nat { multiset(s.handled)[e] }

  function Late(s: State, e: Event): nat { Sum(s.workers, PastCheckWeight(e)) }

  lemma RunsStep(cfg: Config, s: State, a: Action, e: Event)
    requires CanDo(cfg, s, a) && e in s.rows && a != RowCleanup(e)
    ensures var s' := Do(cfg, s, a);
            e in s'.rows && Runs(s', e) + Late(s', e) <= Runs(s, e) + Late(s, e)
  {
    var s' := Do(cfg, s, a);
    var f := PastCheckWeight(e);
    match a
    case Deliver(w) => SumUpdate(s.workers, w, Busy(s.main[0], Received), f);
    case Advance(w, r) => RunsAdvance(s, w, r, e);
    case Settle(w, send) =>
      SettleFrame(cfg, s, w, send);
      SumUpdate(s.workers, w, Idle, f);
    case Die(w) => SumUpdate(s.workers, w, Idle, f);
    case _ =>
  }

  lemma RunsAdvance(s: State, w: nat, r: Reply, e: Event)
    requires IsBusy(s, w) && !ReadyToSettle(s.workers[w].phase) && e in s.rows
    ensures var s' := AdvanceTo(s, w, r);
            e in s'.rows && Runs(s', e) + Late(s', e) <= Runs(s, e) + Late(s, e)
  {
    var s' := AdvanceTo(s, w, r);
    AdvanceFrame(s, w, r);
    RunsPay(s, w, r, e);
    hide AdvanceTo;
    SumUpdate(s.workers, w, s'.workers[w], PastCheckWeight(e));
  }

  lemma RunsPay(s: State, w: nat, r: Reply, e: Event)
    requires IsBusy(s, w) && !ReadyToSettle(s.workers[w].phase) && e in s.rows
    ensures var s', f := AdvanceTo(s, w, r), PastCheckWeight(e);
            IsBusy(s', w) && e in s'.rows && f(s'.workers[w]) + Runs(s', e) <= f(s.workers[w]) + Runs(s, e)
  {
    var c := s.workers[w].copy;
    HandledGrows(s, w, r);
    ChecksShrink(s, w, r, e);
    hide AdvanceTo;
    assert multiset(s.handled + [c.event]) == multiset(s.handled) + multiset{c.event};
  }

  lemma HandledGrows(s: State, w: nat, r: Reply)
    requires IsBusy(s, w) && !ReadyToSettle(s.workers[w].phase)
    ensures var s' := AdvanceTo(s, w, r);
            && s.rows <= s'.rows
            && s'.handled == s.handled + if s.workers[w].phase == Handle && r == Answered then [s.workers[w].copy.event] else []
  {
  }

  /** While the row is there, nobody passes the check, and running the handler uses a passed one up. */
  lemma ChecksShrink(s: State, w: nat, r: Reply, e: Event)
    requires IsBusy(s, w) && !ReadyToSettle(s.workers[w].phase) && e in s.rows
    ensures var s' := AdvanceTo(s, w, r);
            && IsBusy(s', w) && s'.workers[w].copy == s.workers[w].copy
            && (PastCheck(s'.workers[w], e) ==> PastCheck(s.workers[w], e))
            && (s.workers[w].phase == Handle ==> s'.workers[w].phase != Acquire && s'.workers[w].phase != Handle)
  {
  }

  /** While the row of an event lives, the only deliveries that can still run its handler are those
      whose row check came before it, once each: nobody who starts later does. */
  lemma {:induction false} HandlerRunsAfterRecord(cfg: Config, s: State, acts: seq<Action>, e: Event)
    requires Valid(cfg, s, acts) && e in s.rows && RowCleanup(e) !in acts
    ensures e in Exec(cfg, s, acts).rows
    ensures Runs(Exec(cfg, s, acts), e) + Late(Exec(cfg, s, acts), e) <= Runs(s, e) + Late(s, e)
    decreases |acts|
  {
    if acts != [] {
      RunsStep(cfg, s, acts[0], e);
      HandlerRunsAfterRecord(cfg, Do(cfg, s, acts[0]), acts[1..], e);
    }
  }

  // ---------------------------------------------------------------- the retry ladder

  lemma {:induction false} LadderRun(cfg: Config, s: State, acts: seq<Action>)
    requires Valid(cfg, s, acts) && Ladder(cfg, s)
    ensures Ladder(cfg, Exec(cfg, s, acts))
    decreases |acts|
  {
    if acts != [] {
      LadderStep(cfg, s, acts[0]);
      LadderRun(cfg, Do(cfg, s, acts[0]), acts[1..]);
    }
  }

  /** Retry counts stay within the limit, queue `i` holds only copies on their i-th retry, and every
      retry goes to a declared queue. */
  lemma RetriesAreBounded(cfg: Config, slots: nat, acts: seq<Action>)
    requires Valid(cfg, Init(cfg, slots), acts)
    ensures var s := Exec(cfg, Init(cfg, slots), acts);
            && Ladder(cfg, s)
            && (forall w: nat :: IsBusy(s, w) && s.workers[w].copy.retries < cfg.maxRetries ==>
                  s.workers[w].copy.retries + 1 <= |s.retry|)
  {
    LadderRun(cfg, Init(cfg, slots), acts);
  }

  // ---------------------------------------------------------------- termination

  /** Not a new publish, a republish or a broker redelivery. */
  predicate Internal(a: Action) { !a.Publish? && !a.Republish? && !a.Die? }

  function PhaseRank(p: Phase): nat {
    match p
    case Received => 28
    case CheckFlag => 26
    case CheckRow => 24
    case MarkSeen => 22
    case Acquire => 22
    case Handle => 19
    case Insert => 17
    case Mark => 14
    case Release => 11
    case DupMark => 14
    case DupRelease => 11
    case DupReleaseAgain => 9
    case FailRelease => 10
    case Done => 5
    case Skipping => 5
    case Failing => 5
  }

  /** Work a copy may still cause on its remaining rungs. */
  function Rungs(cfg: Config, c: Copy): nat {
    if c.retries <= cfg.maxRetries then 40 * (cfg.maxRetries - c.retries) else 0
  }

  function MainWeight(cfg: Config): Copy -> nat { c => Rungs(cfg, c) + 30 }

  function RetryWeight(cfg: Config): Copy -> nat { c => Rungs(cfg, c) + 31 }

  function LevelWeight(cfg: Config): seq<Copy> -> nat { q => Sum(q, RetryWeight(cfg)) }

  function WorkerWeight(cfg: Config): Worker -> nat {
    (w: Worker) => if w.Idle? then 0 else Rungs(cfg, w.copy) + PhaseRank(w.phase)
  }

  function Weight(cfg: Config, s: State): nat {
    Sum(s.main, MainWeight(cfg)) + Sum(s.retry, LevelWeight(cfg)) + Sum(s.workers, WorkerWeight(cfg)) +
    |s.locks| + |s.flags| + |s.rows|
  }

  /** Each step of a delivery pays for the lock, flag or row it may add. */
  lemma AdvancePays(s: State, w: nat, r: Reply)
    requires IsBusy(s, w) && !ReadyToSettle(s.workers[w].phase)
    ensures var s' := AdvanceTo(s, w, r);
            IsBusy(s', w) &&
            |s'.locks| + |s'.flags| + |s'.rows| + PhaseRank(s'.workers[w].phase) <
            |s.locks| + |s.flags| + |s.rows| + PhaseRank(s.workers[w].phase)
  {
    LocksGrow(s, w, r);
    FlagsGrow(s, w, r);
    RowsGrow(s, w, r);
    RankDrops(s, w, r);
  }

  /** What a step from a phase may add: at most one lock, flag or row. */
  function Added(p: Phase): nat {
    if p == Acquire || p == Insert || p == MarkSeen || p == Mark || p == DupMark then 1 else 0
  }

  lemma LocksGrow(s: State, w: nat, r: Reply)
    requires IsBusy(s, w) && !ReadyToSettle(s.workers[w].phase)
    ensures |AdvanceTo(s, w, r).locks| <= |s.locks| + if s.workers[w].phase == Acquire then 1 else 0
  {
  }

  lemma FlagsGrow(s: State, w: nat, r: Reply)
    requires IsBusy(s, w) && !ReadyToSettle(s.workers[w].phase)
    ensures var p := s.workers[w].phase;
            |AdvanceTo(s, w, r).flags| <= |s.flags| + if p == MarkSeen || p == Mark || p == DupMark then 1 else 0
  {
  }

  lemma RowsGrow(s: State, w: nat, r: Reply)
    requires IsBusy(s, w) && !ReadyToSettle(s.workers[w].phase)
    ensures |AdvanceTo(s, w, r).rows| <= |s.rows| + if s.workers[w].phase == Insert then 1 else 0
  {
  }

  lemma RankDrops(s: State, w: nat, r: Reply)
    requires IsBusy(s, w) && !ReadyToSettle(s.workers[w].phase)
    ensures var s', p := AdvanceTo(s, w, r), s.workers[w].phase;
            IsBusy(s', w) && PhaseRank(s'.workers[w].phase) + Added(p) < PhaseRank(p)
  {
  }

  lemma WeightAdvance(cfg: Config, s: State, w: nat, r: Reply)
    requires IsBusy(s, w) && !ReadyToSettle(s.workers[w].phase)
    ensures Weight(cfg, AdvanceTo(s, w, r)) < Weight(cfg, s)
  {
    AdvanceFrame(s, w, r);
    AdvancePays(s, w, r);
    SumUpdate(s.workers, w, AdvanceTo(s, w, r).workers[w], WorkerWeight(cfg));
  }

  lemma WeightSettle(cfg: Config, s: State, w: nat, send: Send)
    requires IsBusy(s, w) && ReadyToSettle(s.workers[w].phase) && Ladder(cfg, s)
    ensures Weight(cfg, SettleTo(cfg, s, w, send)) < Weight(cfg, s)
  {
    var c := s.workers[w].copy;
    var s' := SettleTo(cfg, s, w, send);
    SumUpdate(s.workers, w, Idle, WorkerWeight(cfg));
    if s'.retry != s.retry {
      var level := s.retry[c.retries];
      var next := c.(retries := c.retries + 1);
      SumAppend(level, next, RetryWeight(cfg));
      SumUpdate(s.retry, c.retries, level + [next], LevelWeight(cfg));
    }
  }

  lemma WeightExpire(cfg: Config, s: State, l: nat)
    requires CanDo(cfg, s, RetryExpire(l)) && Ladder(cfg, s)
    ensures Weight(cfg, Do(cfg, s, RetryExpire(l))) < Weight(cfg, s)
  {
    hide Routes;
    SumUpdate(s.retry, l, s.retry[l][1..], LevelWeight(cfg));
    SumAppend(s.main, s.retry[l][0], MainWeight(cfg));
  }

  lemma WeightStep(cfg: Config, s: State, a: Action)
    requires CanDo(cfg, s, a) && Internal(a) && Ladder(cfg, s)
    ensures Weight(cfg, Do(cfg, s, a)) < Weight(cfg, s)
  {
    hide SettleTo, AdvanceTo, Routes;
    match a
    case Deliver(w) => SumUpdate(s.workers, w, Busy(s.main[0], Received), WorkerWeight(cfg));
    case Advance(w, r) => WeightAdvance(cfg, s, w, r);
    case Settle(w, send) => WeightSettle(cfg, s, w, send);
    case RetryExpire(l) => WeightExpire(cfg, s, l);
    case LockExpire(k) => assert (s.locks - {k}).Keys == s.locks.Keys - {k};
    case FlagExpire(k) =>
    case RowCleanup(e) =>
  }

  /** Without new publishes, republishes and redeliveries every run is finite: its length is bounded
      by the weight of the state it starts from, refused sends that split a copy included. */
  lemma {:induction false} RunsAreFinite(cfg: Config, s: State, acts: seq<Action>)
    requires Valid(cfg, s, acts) && Ladder(cfg, s)
    requires forall i :: 0 <= i < |acts| ==> Internal(acts[i])
    ensures |acts| <= Weight(cfg, s)
    decreases |acts|
  {
    if acts != [] {
      LadderStep(cfg, s, acts[0]);
      WeightStep(cfg, s, acts[0]);
      RunsAreFinite(cfg, Do(cfg, s, acts[0]), acts[1..]);
    }
  }

  /** Nothing is left to do without outside help. */
  ghost predicate AtRest(cfg: Config, s: State) {
    forall a :: Internal(a) ==> !CanDo(cfg, s, a)
  }

  /** A pipeline that has come to rest has every event either recorded or in the dead-letter queue. */
  lemma RestMeansSettled(cfg: Config, slots: nat, acts: seq<Action>, e: Event)
    requires slots > 0 && Valid(cfg, Init(cfg, slots), acts)
    requires AllRouted(cfg, Init(cfg, slots), acts) && NoneOrphaned(cfg, Init(cfg, slots), acts)
    requires AtRest(cfg, Exec(cfg, Init(cfg, slots), acts))
    requires e in Exec(cfg, Init(cfg, slots), acts).entered
    ensures var s := Exec(cfg, Init(cfg, slots), acts);
            e in s.recorded || exists i :: 0 <= i < |s.dlq| && s.dlq[i].event == e
  {
    var s := Exec(cfg, Init(cfg, slots), acts);
    NoEventLost(cfg, slots, acts, e);
    SlotsRun(cfg, Init(cfg, slots), acts);
    forall w: nat ensures !IsBusy(s, w) {
      assert !CanDo(cfg, s, Advance(w, Answered)) && !CanDo(cfg, s, Settle(w, Sent));
    }
    assert !IsBusy(s, 0) && !CanDo(cfg, s, Deliver(0));
    assert s.main == [];
    forall l: nat | l < |s.retry| ensures s.retry[l] == [] {
      assert !CanDo(cfg, s, RetryExpire(l));
    }
    if e !in s.recorded {
      var loc :| Present(s, loc, e);
      assert loc.InDlq?;
    }
  }

  lemma {:induction false} SlotsRun(cfg: Config, s: State, acts: seq<Action>)
    requires Valid(cfg, s, acts)
    ensures |Exec(cfg, s, acts).workers| == |s.workers|
    decreases |acts|
  {
    if acts != [] {
      if acts[0].Advance? { AdvanceFrame(s, acts[0].w, acts[0].r); }
      SlotsRun(cfg, Do(cfg, s, acts[0]), acts[1..]);
    }
  }
}
