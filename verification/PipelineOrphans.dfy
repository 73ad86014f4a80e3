/** A lock left behind on an unrecorded event is not only dangerous in the witness runs: whenever such a
    step is taken, in any reachable state, the event can be lost without anything of the kind happening
    again. So the hypothesis of conservation is exact, step by step. */
module PipelineOrphans {
  import opened Topology
  import opened Pipeline
  import opened PipelineSafety
  import PipelineClaims

  /** Every copy of the key's event carries that key and can be parsed. */
  function OfOneKey(k: Key): CopyTest { (key: Key, parses: bool) => key.event == k.event ==> key == k && parses }

  /** The event is unrecorded, all its copies will ask for the same lock, and whoever set that lock last
      is not going to release it. */
  ghost predicate Doomed(cfg: Config, s: State, k: Key) {
    && k in s.locks && k.event !in s.recorded && !Owned(s, k)
    && Honest(s) && Ladder(cfg, s) && Everywhere(s, OfOneKey(k))
  }

  /** How the calls of a delivery have to go for the event to be lost: a delivery of the event that has
      come past the lock fails, and so does its release; everything else goes well. */
  function Unlucky(s: State, w: nat, k: Key): Reply
    requires IsBusy(s, w)
  {
    if s.workers[w].copy.event == k.event && (s.workers[w].phase == Insert || s.workers[w].phase == FailRelease)
    then Failed else Answered
  }

  lemma UnluckyCanGo(cfg: Config, s: State, w: nat, k: Key)
    requires IsBusy(s, w) && !ReadyToSettle(s.workers[w].phase)
    ensures CanDo(cfg, s, Advance(w, Unlucky(s, w, k)))
  {
  }

  /** No new message, no death, and nothing but a retry delay runs out. */
  predicate Quiet(a: Action) { a.Deliver? || a.Advance? || a.Settle? || a.RetryExpire? || a.Republish? }

  ghost predicate AllQuiet(acts: seq<Action>) { forall i :: 0 <= i < |acts| ==> Quiet(acts[i]) }

  /** The steps the loss is made of. */
  predicate Scheduled(s: State, a: Action, k: Key) {
    Quiet(a) && (a.Advance? ==> IsBusy(s, a.w) && a.r == Unlucky(s, a.w, k))
  }

  lemma DoomedStep(cfg: Config, s: State, a: Action, k: Key)
    requires Doomed(cfg, s, k) && CanDo(cfg, s, a) && Scheduled(s, a, k)
    ensures Doomed(cfg, Do(cfg, s, a), k) && !OrphansEvent(s, a)
  {
    HonestStep(cfg, s, a);
    LadderStep(cfg, s, a);
    EverywhereStep(cfg, s, a, OfOneKey(k));
    match a
    case Advance(w, r) =>
      DoomedAdvance(s, w, k);
      assert Passes(OfOneKey(k), s.workers[w].copy);
    case Settle(w, send) => SettleFrame(cfg, s, w, send);
    case _ =>
  }

  lemma DoomedAdvance(s: State, w: nat, k: Key)
    requires k in s.locks && k.event !in s.recorded && !Owned(s, k) && Honest(s) && Everywhere(s, OfOneKey(k))
    requires IsBusy(s, w) && !ReadyToSettle(s.workers[w].phase)
    ensures var s' := AdvanceTo(s, w, Unlucky(s, w, k));
            k in s'.locks && k.event !in s'.recorded && !Owned(s', k)
  {
    assert Passes(OfOneKey(k), s.workers[w].copy);
    AdvanceFrame(s, w, Unlucky(s, w, k));
  }

  // ---------------------------------------------------------------- runs made of these steps

  /** From `s0` the run leads quietly to `s`, leaving no lock behind. */
  ghost predicate Leads(cfg: Config, s0: State, acts: seq<Action>, s: State) {
    && Valid(cfg, s0, acts) && Exec(cfg, s0, acts) == s && NoneOrphaned(cfg, s0, acts)
    && AllQuiet(acts)
  }

  lemma {:induction false} Onward(cfg: Config, s0: State, acts: seq<Action>, s: State, a: Action, k: Key)
    requires Leads(cfg, s0, acts, s) && Doomed(cfg, s, k) && CanDo(cfg, s, a) && Scheduled(s, a, k)
    ensures Leads(cfg, s0, acts + [a], Do(cfg, s, a)) && Doomed(cfg, Do(cfg, s, a), k)
    decreases |acts|
  {
    DoomedStep(cfg, s, a, k);
    assert AllQuiet(acts + [a]);
    hide Doomed, Scheduled;
    if acts == [] {
      assert acts + [a] == [a] + [];
      StepThen(cfg, s0, a, []);
    } else {
      assert (acts + [a])[0] == acts[0] && (acts + [a])[1..] == acts[1..] + [a];
      assert AllQuiet(acts[1..]) by { FewerQuiet(acts); }
      Onward(cfg, Do(cfg, s0, acts[0]), acts[1..], s, a, k);
    }
  }

  lemma FewerQuiet(acts: seq<Action>)
    requires acts != [] && AllQuiet(acts)
    ensures AllQuiet(acts[1..])
  {
    assert forall i :: 0 <= i < |acts[1..]| ==> acts[1..][i] == acts[i + 1];
  }

  // ---------------------------------------------------------------- one delivery to its end

  /** The delivery has not asked for its lock yet, or has been refused it. */
  predicate Early(p: Phase) { p == Received || p == CheckFlag || p == CheckRow || p == Acquire || p == Skipping }

  /** No copy of the event waits in a retry queue or in the dead-letter queue. */
  ghost predicate NoneWaiting(s: State, e: Event) {
    && (forall i :: 0 <= i < |s.dlq| ==> s.dlq[i].event != e)
    && (forall l, i :: 0 <= l < |s.retry| && 0 <= i < |s.retry[l]| ==> s.retry[l][i].event != e)
  }

  /** The delivery will not leave a copy of the event behind. */
  predicate LeavesNone(w: Worker, e: Event) { w.Busy? && (w.copy.event == e ==> Early(w.phase)) }

  lemma LeavesNoneStep(cfg: Config, s: State, w: nat, k: Key)
    requires Doomed(cfg, s, k) && IsBusy(s, w) && LeavesNone(s.workers[w], k.event) && NoneWaiting(s, k.event)
    ensures if ReadyToSettle(s.workers[w].phase) then NoneWaiting(SettleTo(cfg, s, w, Sent), k.event)
            else var s' := AdvanceTo(s, w, Unlucky(s, w, k));
                 IsBusy(s', w) && LeavesNone(s'.workers[w], k.event) && NoneWaiting(s', k.event)
  {
    assert Passes(OfOneKey(k), s.workers[w].copy);
    if !ReadyToSettle(s.workers[w].phase) { AdvanceFrame(s, w, Unlucky(s, w, k)); }
  }

  /** Takes one slot's delivery, if any, to its end. */
  lemma {:induction false} FinishOne(cfg: Config, s0: State, acts: seq<Action>, s: State, k: Key, w: nat)
    returns (longer: seq<Action>, s': State)
    requires Leads(cfg, s0, acts, s) && Doomed(cfg, s, k) && w < |s.workers|
    ensures Leads(cfg, s0, longer, s') && Doomed(cfg, s', k)
    ensures s'.workers == s.workers[w := Idle] && s'.main == s.main
    ensures NoneWaiting(s, k.event) && (IsBusy(s, w) ==> LeavesNone(s.workers[w], k.event)) ==> NoneWaiting(s', k.event)
    decreases if IsBusy(s, w) then PipelineClaims.PhaseRank(s.workers[w].phase) else 0
  {
    hide Doomed, Leads, NoneWaiting, LeavesNone, Unlucky, SettleTo, AdvanceTo;
    longer, s' := acts, s;
    if IsBusy(s, w) {
      if NoneWaiting(s, k.event) && LeavesNone(s.workers[w], k.event) { LeavesNoneStep(cfg, s, w, k); }
      if ReadyToSettle(s.workers[w].phase) {
        SettleFrame(cfg, s, w, Sent);
        Onward(cfg, s0, acts, s, Settle(w, Sent), k);
        longer, s' := acts + [Settle(w, Sent)], SettleTo(cfg, s, w, Sent);
      } else {
        var r := Unlucky(s, w, k);
        AdvanceFrame(s, w, r);
        PipelineClaims.RankDrops(s, w, r);
        assert CanDo(cfg, s, Advance(w, r)) by { UnluckyCanGo(cfg, s, w, k); }
        Onward(cfg, s0, acts, s, Advance(w, r), k);
        longer, s' := FinishOne(cfg, s0, acts + [Advance(w, r)], AdvanceTo(s, w, r), k, w);
      }
    }
  }

  // ---------------------------------------------------------------- the whole system

  ghost predicate IdleUpTo(s: State, n: nat) { forall w: nat :: IsBusy(s, w) ==> w >= n }

  /** All deliveries end. */
  lemma {:induction false} FinishAll(cfg: Config, s0: State, acts: seq<Action>, s: State, k: Key, n: nat)
    returns (longer: seq<Action>, s': State)
    requires Leads(cfg, s0, acts, s) && Doomed(cfg, s, k) && n <= |s.workers|
    ensures Leads(cfg, s0, longer, s') && Doomed(cfg, s', k) && |s'.workers| == |s.workers| && IdleUpTo(s', n)
    decreases n
  {
    longer, s' := acts, s;
    if n > 0 {
      hide Doomed, Leads, NoneWaiting;
      longer, s' := FinishAll(cfg, s0, acts, s, k, n - 1);
      var before := s';
      longer, s' := FinishOne(cfg, s0, longer, before, k, n - 1);
      assert IdleUpTo(s', n);
    }
  }

  /** One retry queue empties into the main queue, or to nowhere. */
  lemma {:induction false} ExpireLevel(cfg: Config, s0: State, acts: seq<Action>, s: State, k: Key, l: nat)
    returns (longer: seq<Action>, s': State)
    requires Leads(cfg, s0, acts, s) && Doomed(cfg, s, k) && l < |s.retry|
    ensures Leads(cfg, s0, longer, s') && Doomed(cfg, s', k)
    ensures s'.workers == s.workers && s'.retry == s.retry[l := []]
    decreases |s.retry[l]|
  {
    longer, s' := acts, s;
    if s.retry[l] != [] {
      hide Doomed, Leads, Routes;
      Onward(cfg, s0, acts, s, RetryExpire(l), k);
      longer, s' := ExpireLevel(cfg, s0, acts + [RetryExpire(l)], Do(cfg, s, RetryExpire(l)), k, l);
    }
  }

  lemma {:induction false} ExpireAll(cfg: Config, s0: State, acts: seq<Action>, s: State, k: Key, n: nat)
    returns (longer: seq<Action>, s': State)
    requires Leads(cfg, s0, acts, s) && Doomed(cfg, s, k) && n <= |s.retry|
    ensures Leads(cfg, s0, longer, s') && Doomed(cfg, s', k)
    ensures s'.workers == s.workers && |s'.retry| == |s.retry| && forall l :: 0 <= l < n ==> s'.retry[l] == []
    decreases n
  {
    longer, s' := acts, s;
    if n > 0 {
      hide Doomed, Leads;
      longer, s' := ExpireAll(cfg, s0, acts, s, k, n - 1);
      longer, s' := ExpireLevel(cfg, s0, longer, s', k, n - 1);
    }
  }

  /** The dead-letter queue is drained. */
  lemma {:induction false} Redrive(cfg: Config, s0: State, acts: seq<Action>, s: State, k: Key)
    returns (longer: seq<Action>, s': State)
    requires Leads(cfg, s0, acts, s) && Doomed(cfg, s, k)
    ensures Leads(cfg, s0, longer, s') && Doomed(cfg, s', k)
    ensures s'.workers == s.workers && s'.retry == s.retry && s'.dlq == []
    decreases |s.dlq|
  {
    longer, s' := acts, s;
    if s.dlq != [] {
      hide Doomed, Leads, Routes;
      Onward(cfg, s0, acts, s, Republish, k);
      longer, s' := Redrive(cfg, s0, acts + [Republish], Do(cfg, s, Republish), k);
    }
  }

  lemma Taken(cfg: Config, s: State, k: Key)
    requires CanDo(cfg, s, Deliver(0)) && NoneWaiting(s, k.event)
    ensures var taken := Do(cfg, s, Deliver(0)); NoneWaiting(taken, k.event) && LeavesNone(taken.workers[0], k.event)
    ensures Scheduled(s, Deliver(0), k)
  {
  }

  /** The main queue is delivered to one slot, one message after the other: each copy of the event finds
      the lock taken. */
  lemma {:induction false} Deliveries(cfg: Config, s0: State, acts: seq<Action>, s: State, k: Key)
    returns (longer: seq<Action>, s': State)
    requires Leads(cfg, s0, acts, s) && Doomed(cfg, s, k) && |s.workers| > 0
    requires IdleUpTo(s, |s.workers|) && NoneWaiting(s, k.event)
    ensures Leads(cfg, s0, longer, s') && Doomed(cfg, s', k)
    ensures s'.main == [] && IdleUpTo(s', |s'.workers|) && NoneWaiting(s', k.event)
    decreases |s.main|
  {
    longer, s' := acts, s;
    hide Doomed, Leads, NoneWaiting, LeavesNone, Scheduled;
    if s.main != [] {
      assert s.workers[0] == Idle by { assert !IsBusy(s, 0); }
      var taken := Do(cfg, s, Deliver(0));
      Taken(cfg, s, k);
      Onward(cfg, s0, acts, s, Deliver(0), k);
      longer, s' := FinishOne(cfg, s0, acts + [Deliver(0)], taken, k, 0);
      assert s'.workers == s.workers;
      forall w: nat | IsBusy(s', w) ensures w >= |s'.workers| { assert IsBusy(s, w); }
      longer, s' := Deliveries(cfg, s0, longer, s', k);
    }
  }

  /** All deliveries end, everything that waits comes back to the main queue, and there each copy of the
      event is taken for one in progress. */
  lemma DoomedIsLost(cfg: Config, s0: State, k: Key) returns (acts: seq<Action>)
    requires Doomed(cfg, s0, k) && |s0.workers| > 0
    ensures Valid(cfg, s0, acts) && NoneOrphaned(cfg, s0, acts) && AllQuiet(acts)
    ensures !NotLost(Exec(cfg, s0, acts), k.event)
  {
    assert Leads(cfg, s0, [], s0);
    var s;
    acts, s := FinishAll(cfg, s0, [], s0, k, |s0.workers|);
    acts, s := ExpireAll(cfg, s0, acts, s, k, |s.retry|);
    acts, s := Redrive(cfg, s0, acts, s, k);
    assert IdleUpTo(s, |s.workers|) && NoneWaiting(s, k.event);
    acts, s := Deliveries(cfg, s0, acts, s, k);
    Gone(cfg, s, k);
  }

  lemma Gone(cfg: Config, s: State, k: Key)
    requires Doomed(cfg, s, k) && s.main == [] && IdleUpTo(s, |s.workers|) && NoneWaiting(s, k.event)
    ensures !NotLost(s, k.event)
  {
  }

  /** After such a step. */
  lemma OrphaningDooms(cfg: Config, s: State, a: Action)
    requires Honest(s) && Ladder(cfg, s) && CanDo(cfg, s, a) && OrphansEvent(s, a)
    requires Everywhere(s, OfOneKey(KeyOf(s.workers[a.w].copy)))
    ensures Doomed(cfg, Do(cfg, s, a), KeyOf(s.workers[a.w].copy))
  {
    HonestStep(cfg, s, a);
    LadderStep(cfg, s, a);
    EverywhereStep(cfg, s, a, OfOneKey(KeyOf(s.workers[a.w].copy)));
    hide Honest, Ladder, Everywhere;
  }

  /** Whatever has happened before: once a step leaves the lock of an unrecorded event behind, that event
      can be lost without any further such step, new message, death or expiry, provided its copies are all
      alike (one routing key, readable). */
  lemma OrphaningCanLose(cfg: Config, slots: nat, before: seq<Action>, a: Action) returns (after: seq<Action>)
    requires Valid(cfg, Init(cfg, slots), before)
    requires var s := Exec(cfg, Init(cfg, slots), before);
             && CanDo(cfg, s, a) && OrphansEvent(s, a)
             && Everywhere(s, OfOneKey(KeyOf(s.workers[a.w].copy)))
    ensures var s := Exec(cfg, Init(cfg, slots), before);
            var s1 := Do(cfg, s, a);
            && Valid(cfg, s1, after) && NoneOrphaned(cfg, s1, after) && AllQuiet(after)
            && !NotLost(Exec(cfg, s1, after), s.workers[a.w].copy.event)
  {
    var s0 := Init(cfg, slots);
    PipelineClaims.HonestRun(cfg, s0, before);
    PipelineClaims.LadderRun(cfg, s0, before);
    var s := Exec(cfg, s0, before);
    OrphaningDooms(cfg, s, a);
    hide *;
    after := DoomedIsLost(cfg, Do(cfg, s, a), KeyOf(s.workers[a.w].copy));
  }

  // ---------------------------------------------------------------- exactly these steps

  function HasEntered(entered: set<Event>): CopyTest { (k: Key, _: bool) => k.event in entered }

  /** Only events that reached the main queue are anywhere. */
  lemma {:induction false} EnteredRun(cfg: Config, s: State, acts: seq<Action>)
    requires Valid(cfg, s, acts) && Everywhere(s, HasEntered(s.entered))
    ensures Everywhere(Exec(cfg, s, acts), HasEntered(Exec(cfg, s, acts).entered))
    decreases |acts|
  {
    if acts != [] {
      var s' := Do(cfg, s, acts[0]);
      MoreEntered(cfg, s, acts[0]);
      EverywhereStep(cfg, s, acts[0], HasEntered(s'.entered));
      EnteredRun(cfg, s', acts[1..]);
    }
  }

  lemma MoreEntered(cfg: Config, s: State, a: Action)
    requires CanDo(cfg, s, a) && Everywhere(s, HasEntered(s.entered))
    ensures Everywhere(s, HasEntered(Do(cfg, s, a).entered))
    ensures a.Publish? ==> Passes(HasEntered(Do(cfg, s, a).entered), a.copy)
  {
    var entered := Do(cfg, s, a).entered;
    assert s.entered <= entered by { EnteredStays(cfg, s, a); }
    forall c | Passes(HasEntered(s.entered), c) ensures Passes(HasEntered(entered), c) {
    }
    hide Do, Passes, HasEntered;
  }

  lemma EnteredStays(cfg: Config, s: State, a: Action)
    requires CanDo(cfg, s, a)
    ensures s.entered <= Do(cfg, s, a).entered
  {
    match a
    case Advance(w, r) => AdvanceFrame(s, w, r);
    case Settle(w, send) => SettleFrame(cfg, s, w, send);
    case _ =>
  }

  lemma {:induction false} EnteredStaysRun(cfg: Config, s: State, acts: seq<Action>)
    requires Valid(cfg, s, acts)
    ensures s.entered <= Exec(cfg, s, acts).entered
    decreases |acts|
  {
    if acts != [] {
      EnteredStays(cfg, s, acts[0]);
      EnteredStaysRun(cfg, Do(cfg, s, acts[0]), acts[1..]);
    }
  }

  lemma {:induction false} OrphanedConcat(cfg: Config, s: State, a: seq<Action>, b: seq<Action>)
    requires Valid(cfg, s, a) && Valid(cfg, Exec(cfg, s, a), b)
    requires NoneOrphaned(cfg, s, a) && NoneOrphaned(cfg, Exec(cfg, s, a), b)
    ensures Valid(cfg, s, a + b) && NoneOrphaned(cfg, s, a + b)
    decreases |a|
  {
    if a == [] {
      assert a + b == b;
    } else {
      assert (a + b)[0] == a[0] && (a + b)[1..] == a[1..] + b;
      OrphanedConcat(cfg, Do(cfg, s, a[0]), a[1..], b);
    }
  }

  /** After the step, an event can be lost quietly and without another lock being left behind. */
  ghost predicate Loses(cfg: Config, s1: State, after: seq<Action>, e: Event) {
    && Valid(cfg, s1, after) && NoneOrphaned(cfg, s1, after) && AllQuiet(after)
    && e in s1.entered && !NotLost(Exec(cfg, s1, after), e)
  }

  /** With everything routed and no lock left behind before: a step leaves the lock of an unrecorded event
      behind if and only if some event can be lost after it. */
  lemma OrphaningIsExact(cfg: Config, slots: nat, before: seq<Action>, a: Action, keys: iset<string>)
    requires Valid(cfg, Init(cfg, slots), before) && NoneOrphaned(cfg, Init(cfg, slots), before)
    requires RoutesBack(cfg) && (forall key :: key in keys ==> Routes(cfg, key)) && PublishesOnly(before + [a], keys)
    requires var s := Exec(cfg, Init(cfg, slots), before);
             && CanDo(cfg, s, a)
             && (OrphansEvent(s, a) ==> Everywhere(s, OfOneKey(KeyOf(s.workers[a.w].copy))))
    ensures var s := Exec(cfg, Init(cfg, slots), before);
            OrphansEvent(s, a) <==> exists after, e :: Loses(cfg, Do(cfg, s, a), after, e)
  {
    var s0 := Init(cfg, slots);
    var s := Exec(cfg, s0, before);
    var s1 := Do(cfg, s, a);
    if OrphansEvent(s, a) {
      var after := OrphaningCanLose(cfg, slots, before, a);
      EnteredRun(cfg, s0, before);
      EnteredStays(cfg, s, a);
      assert Passes(HasEntered(s.entered), s.workers[a.w].copy);
      assert Loses(cfg, s1, after, s.workers[a.w].copy.event);
    } else if after, e :| Loses(cfg, s1, after, e) {
      StaysSafe(cfg, slots, before, a, after, keys, e);
    }
  }

  lemma StaysSafe(cfg: Config, slots: nat, before: seq<Action>, a: Action, after: seq<Action>, keys: iset<string>, e: Event)
    requires Valid(cfg, Init(cfg, slots), before) && NoneOrphaned(cfg, Init(cfg, slots), before)
    requires RoutesBack(cfg) && (forall key :: key in keys ==> Routes(cfg, key)) && PublishesOnly(before + [a], keys)
    requires CanDo(cfg, Exec(cfg, Init(cfg, slots), before), a) && !OrphansEvent(Exec(cfg, Init(cfg, slots), before), a)
    requires var s1 := Do(cfg, Exec(cfg, Init(cfg, slots), before), a);
             Valid(cfg, s1, after) && NoneOrphaned(cfg, s1, after) && AllQuiet(after) && e in s1.entered
    ensures NotLost(Exec(cfg, Do(cfg, Exec(cfg, Init(cfg, slots), before), a), after), e)
  {
    var s0 := Init(cfg, slots);
    var s := Exec(cfg, s0, before);
    hide *;
    InitRoutes(cfg, slots);
    StepThen(cfg, s, a, after);
    var rest := [a] + after;
    var run := before + rest;
    QuietPublishes(before, a, after, keys);
    ExecAppend(cfg, s0, before, rest);
    OrphanedConcat(cfg, s0, before, rest);
    RoutedRun(cfg, s0, run, keys);
    EnteredStaysRun(cfg, Do(cfg, s, a), after);
    NoEventLost(cfg, slots, run, e);
  }

  lemma InitRoutes(cfg: Config, slots: nat)
    ensures Everywhere(Init(cfg, slots), RoutesTo(cfg)) && Ladder(cfg, Init(cfg, slots))
  {
  }

  lemma StepThen(cfg: Config, s: State, a: Action, after: seq<Action>)
    requires CanDo(cfg, s, a) && !OrphansEvent(s, a)
    requires Valid(cfg, Do(cfg, s, a), after) && NoneOrphaned(cfg, Do(cfg, s, a), after)
    ensures Valid(cfg, s, [a] + after) && NoneOrphaned(cfg, s, [a] + after)
    ensures Exec(cfg, s, [a] + after) == Exec(cfg, Do(cfg, s, a), after)
  {
    assert ([a] + after)[0] == a && ([a] + after)[1..] == after;
    hide Do, CanDo, OrphansEvent;
  }

  lemma QuietPublishes(before: seq<Action>, a: Action, after: seq<Action>, keys: iset<string>)
    requires PublishesOnly(before + [a], keys) && AllQuiet(after)
    ensures PublishesOnly(before + ([a] + after), keys)
  {
    var all, first := before + ([a] + after), before + [a];
    assert all == first + after;
    forall i | |first| <= i < |all| ensures Quiet(all[i]) {
      assert all[i] == after[i - |first|];
    }
  }
}
