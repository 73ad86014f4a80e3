/** Runs that show the hypotheses of conservation are needed, and that exactly-once is not offered. */
module PipelineWitness {
  import opened Topology
  import opened Pipeline
  import opened PipelineSafety

  /** Nothing went wrong in the step and nothing expired. */
  predicate Clean(a: Action) {
    match a
    case Advance(_, r) => r == Answered
    case Settle(_, send) => send == Sent
    case LockExpire(_) => false
    case FlagExpire(_) => false
    case RowCleanup(_) => false
    case Die(_) => false
    case _ => true
  }

  /** Everything that went wrong in a run, in order. */
  function Faults(acts: seq<Action>): seq<Action> {
    if acts == [] then [] else (if Clean(acts[0]) then [] else [acts[0]]) + Faults(acts[1..])
  }

  lemma {:induction false} FaultsAppend(acts: seq<Action>, a: Action)
    ensures Faults(acts + [a]) == Faults(acts) + if Clean(a) then [] else [a]
  {
    hide Clean;
    if acts == [] {
      assert acts + [a] == [a] && [a][1..] == [];
    } else {
      assert (acts + [a])[0] == acts[0] && (acts + [a])[1..] == acts[1..] + [a];
      FaultsAppend(acts[1..], a);
    }
  }

  /** The run has led to `s`, its copies were all routed, and `faults` is what went wrong. */
  ghost predicate Led(cfg: Config, s0: State, acts: seq<Action>, s: State, faults: seq<Action>) {
    Valid(cfg, s0, acts) && Exec(cfg, s0, acts) == s && AllRouted(cfg, s0, acts) && Faults(acts) == faults
  }

  /** One step more. */
  lemma Step(cfg: Config, s0: State, acts: seq<Action>, s: State, faults: seq<Action>, a: Action, next: State)
    returns (longer: seq<Action>)
    requires Led(cfg, s0, acts, s, faults) && CanDo(cfg, s, a) && !Unroutable(cfg, s, a) && Do(cfg, s, a) == next
    ensures Led(cfg, s0, longer, next, faults + if Clean(a) then [] else [a])
  {
    longer := Then(cfg, s0, acts, s, a, next);
    RoutedAppend(cfg, s0, acts, a);
    FaultsAppend(acts, a);
  }

  lemma Begin(cfg: Config, s0: State)
    ensures Led(cfg, s0, [], s0, [])
  {
  }

  lemma LedTo(cfg: Config, s0: State, acts: seq<Action>, s: State, faults: seq<Action>)
    requires Led(cfg, s0, acts, s, faults)
    ensures Valid(cfg, s0, acts) && Exec(cfg, s0, acts) == s && AllRouted(cfg, s0, acts) && Faults(acts) == faults
  {
  }

  // ---------------------------------------------------------------- copies must route

  /** Nothing in the system but one copy waiting in the main queue. */
  function Alone(cfg: Config, slots: nat, c: Copy): State {
    Init(cfg, slots).(main := [c], entered := {c.event})
  }

  /** An unparseable copy fails, is retried, waits out its delay and comes back one rung higher, or
      vanishes when the retry queue's name does not route. */
  lemma ClimbOne(cfg: Config, slots: nat, acts: seq<Action>, c: Copy) returns (longer: seq<Action>)
    requires slots > 0 && c.retries < cfg.maxRetries && !c.parses && PublishesOnly(acts, iset{c.routingKey})
    requires Valid(cfg, Init(cfg, slots), acts) && NoneOrphaned(cfg, Init(cfg, slots), acts)
    requires Exec(cfg, Init(cfg, slots), acts) == Alone(cfg, slots, c)
    ensures Valid(cfg, Init(cfg, slots), longer) && NoneOrphaned(cfg, Init(cfg, slots), longer)
    ensures PublishesOnly(longer, iset{c.routingKey})
    ensures Exec(cfg, Init(cfg, slots), longer) ==
            if Routes(cfg, RetryQueue(cfg, c.retries + 1)) then Alone(cfg, slots, c.(retries := c.retries + 1))
            else Init(cfg, slots).(entered := {c.event})
  {
    var s0, s := Init(cfg, slots), Alone(cfg, slots, c);
    var base := s0.(entered := {c.event});
    var s1 := base.(workers := s0.workers[0 := Busy(c, Received)]);
    var s2 := base.(workers := s0.workers[0 := Busy(c, Failing)]);
    var s3 := base.(retry := s0.retry[c.retries := [c.(retries := c.retries + 1)]]);
    FailedParse(cfg, slots, c);
    RetryWait(cfg, slots, c);
    hide Valid, Exec, AdvanceTo, SettleTo, Routes, NoneOrphaned;
    longer := Harmless(cfg, s0, acts, s, Deliver(0), s1);
    longer := Harmless(cfg, s0, longer, s1, Advance(0, Answered), s2);
    longer := Harmless(cfg, s0, longer, s2, Settle(0, Sent), s3);
    longer := Harmless(cfg, s0, longer, s3, RetryExpire(c.retries), Do(cfg, s3, RetryExpire(c.retries)));
  }

  /** A step that cannot leave a lock behind. */
  lemma Harmless(cfg: Config, s0: State, acts: seq<Action>, s: State, a: Action, next: State) returns (longer: seq<Action>)
    requires Valid(cfg, s0, acts) && Exec(cfg, s0, acts) == s && NoneOrphaned(cfg, s0, acts)
    requires CanDo(cfg, s, a) && Do(cfg, s, a) == next && Clean(a)
    ensures longer == acts + [a] && Valid(cfg, s0, longer) && Exec(cfg, s0, longer) == next && NoneOrphaned(cfg, s0, longer)
  {
    longer := Then(cfg, s0, acts, s, a, next);
    OrphanedAppend(cfg, s0, acts, a);
  }

  lemma {:induction false} OrphanedAppend(cfg: Config, s: State, acts: seq<Action>, a: Action)
    requires Valid(cfg, s, acts) && NoneOrphaned(cfg, s, acts) && Valid(cfg, s, acts + [a]) && Clean(a)
    ensures NoneOrphaned(cfg, s, acts + [a])
    decreases |acts|
  {
    if acts == [] {
      assert acts + [a] == [a] && [a][1..] == [];
    } else {
      assert (acts + [a])[1..] == acts[1..] + [a];
      OrphanedAppend(cfg, Do(cfg, s, acts[0]), acts[1..], a);
    }
  }

  lemma FailedParse(cfg: Config, slots: nat, c: Copy)
    requires slots > 0 && !c.parses
    ensures var s0, s := Init(cfg, slots), Alone(cfg, slots, c);
            var s1 := s0.(entered := {c.event}, workers := s0.workers[0 := Busy(c, Received)]);
            var s2 := s0.(entered := {c.event}, workers := s0.workers[0 := Busy(c, Failing)]);
            && CanDo(cfg, s, Deliver(0)) && Do(cfg, s, Deliver(0)) == s1
            && CanDo(cfg, s1, Advance(0, Answered)) && Do(cfg, s1, Advance(0, Answered)) == s2
  {
  }

  lemma RetryWait(cfg: Config, slots: nat, c: Copy)
    requires slots > 0 && c.retries < cfg.maxRetries
    ensures var s0, next := Init(cfg, slots), c.(retries := c.retries + 1);
            var base := s0.(entered := {c.event});
            var s2 := base.(workers := s0.workers[0 := Busy(c, Failing)]);
            var s3 := base.(retry := s0.retry[c.retries := [next]]);
            && CanDo(cfg, s2, Settle(0, Sent)) && Do(cfg, s2, Settle(0, Sent)) == s3
            && CanDo(cfg, s3, RetryExpire(c.retries))
            && Do(cfg, s3, RetryExpire(c.retries)) ==
               if Routes(cfg, RetryQueue(cfg, c.retries + 1)) then base.(main := [next]) else base
  {
    var s0, i, next := Init(cfg, slots), c.retries, c.(retries := c.retries + 1);
    assert s0.workers[0 := Busy(c, Failing)][0 := Idle] == s0.workers;
    assert s0.retry[i] + [next] == [next];
    assert s0.retry[i := [next]][i := []] == s0.retry;
    assert [next][1..] == [] && [] + [next] == [next];
  }

  lemma {:induction false} ClimbTo(cfg: Config, slots: nat, c: Copy, level: nat) returns (acts: seq<Action>)
    requires slots > 0 && level <= cfg.maxRetries && !c.parses && c.retries == 0
    requires forall l :: 1 <= l <= level ==> Routes(cfg, RetryQueue(cfg, l))
    ensures Valid(cfg, Init(cfg, slots), acts) && NoneOrphaned(cfg, Init(cfg, slots), acts)
    ensures PublishesOnly(acts, iset{c.routingKey})
    ensures Exec(cfg, Init(cfg, slots), acts) == Alone(cfg, slots, c.(retries := level))
  {
    if level == 0 {
      assert Valid(cfg, Init(cfg, slots), []);
      acts := Harmless(cfg, Init(cfg, slots), [], Init(cfg, slots), Publish(c), Alone(cfg, slots, c));
    } else {
      acts := ClimbTo(cfg, slots, c, level - 1);
      acts := ClimbOne(cfg, slots, acts, c.(retries := level - 1));
    }
  }

  /** When no lock is left behind on an unrecorded event, events published under given keys are conserved
      on every run exactly when the retry queues route back and all these keys reach the main queue. */
  lemma ConservationNeedsRouting(cfg: Config, slots: nat, keys: iset<string>)
    requires slots > 0 && keys != iset{}
    ensures (forall acts, e ::
              Valid(cfg, Init(cfg, slots), acts) && NoneOrphaned(cfg, Init(cfg, slots), acts) &&
              PublishesOnly(acts, keys) && e in Exec(cfg, Init(cfg, slots), acts).entered ==>
                NotLost(Exec(cfg, Init(cfg, slots), acts), e))
       <==> RoutesBack(cfg) && forall key :: key in keys ==> Routes(cfg, key)
  {
    var s0 := Init(cfg, slots);
    if RoutesBack(cfg) && forall key :: key in keys ==> Routes(cfg, key) {
      forall acts, e | Valid(cfg, s0, acts) && NoneOrphaned(cfg, s0, acts) && PublishesOnly(acts, keys) &&
                       e in Exec(cfg, s0, acts).entered
        ensures NotLost(Exec(cfg, s0, acts), e)
      {
        RoutedRun(cfg, s0, acts, keys);
        NoEventLost(cfg, slots, acts, e);
      }
    } else {
      var key :| key in keys && (RoutesBack(cfg) ==> !Routes(cfg, key));
      var acts, e := SomethingLost(cfg, slots, key);
      assert PublishesOnly(acts, keys);
      assert e in Exec(cfg, s0, acts).entered && !NotLost(Exec(cfg, s0, acts), e);
    }
  }

  lemma SomethingLost(cfg: Config, slots: nat, key: string) returns (acts: seq<Action>, e: Event)
    requires slots > 0 && (RoutesBack(cfg) ==> !Routes(cfg, key))
    ensures Valid(cfg, Init(cfg, slots), acts) && NoneOrphaned(cfg, Init(cfg, slots), acts)
    ensures PublishesOnly(acts, iset{key})
    ensures var s := Exec(cfg, Init(cfg, slots), acts); e in s.entered && !NotLost(s, e)
  {
    if RoutesBack(cfg) {
      acts, e := KeyLoses(cfg, slots, key);
    } else {
      acts, e := GapLoses(cfg, slots, key);
    }
  }

  /** The first level that does not route back swallows an event that fails that often. */
  lemma GapLoses(cfg: Config, slots: nat, key: string) returns (acts: seq<Action>, e: Event)
    requires slots > 0 && !RoutesBack(cfg)
    ensures Valid(cfg, Init(cfg, slots), acts) && NoneOrphaned(cfg, Init(cfg, slots), acts)
    ensures PublishesOnly(acts, iset{key})
    ensures var s := Exec(cfg, Init(cfg, slots), acts); e in s.entered && !NotLost(s, e)
  {
    hide Valid, Exec, Routes, NoneOrphaned, PublishesOnly;
    var level := FirstGap(cfg, cfg.maxRetries);
    e := Event("");
    var c := Copy(e, key, false, 0);
    acts := ClimbTo(cfg, slots, c, level - 1);
    acts := ClimbOne(cfg, slots, acts, c.(retries := level - 1));
    Nowhere(cfg, slots, e);
  }

  lemma Nowhere(cfg: Config, slots: nat, e: Event)
    ensures !NotLost(Init(cfg, slots).(entered := {e}), e)
  {
  }

  /** A key that does not route loses a dead letter when it is republished. */
  lemma KeyLoses(cfg: Config, slots: nat, key: string) returns (acts: seq<Action>, e: Event)
    requires slots > 0 && RoutesBack(cfg) && !Routes(cfg, key)
    ensures Valid(cfg, Init(cfg, slots), acts) && NoneOrphaned(cfg, Init(cfg, slots), acts)
    ensures PublishesOnly(acts, iset{key})
    ensures var s := Exec(cfg, Init(cfg, slots), acts); e in s.entered && !NotLost(s, e)
  {
    e := Event("");
    var c := Copy(e, key, false, 0);
    var last := c.(retries := cfg.maxRetries);
    acts := ClimbTo(cfg, slots, c, cfg.maxRetries);
    var s0, s := Init(cfg, slots), Alone(cfg, slots, last);
    var base := s0.(entered := {e});
    var s1 := base.(workers := s0.workers[0 := Busy(last, Received)]);
    var s2 := base.(workers := s0.workers[0 := Busy(last, Failing)]);
    FailedParse(cfg, slots, last);
    assert s2.workers[0 := Idle] == s0.workers;
    hide Valid, Exec, NoneOrphaned, AdvanceTo, Routes;
    acts := Harmless(cfg, s0, acts, s, Deliver(0), s1);
    acts := Harmless(cfg, s0, acts, s1, Advance(0, Answered), s2);
    acts := Harmless(cfg, s0, acts, s2, Settle(0, Sent), base.(dlq := [last]));
    assert [last][1..] == [];
    acts := Harmless(cfg, s0, acts, base.(dlq := [last]), Republish, base);
    Nowhere(cfg, slots, e);
  }

  lemma {:induction false} FirstGap(cfg: Config, upTo: nat) returns (level: nat)
    requires exists l :: 1 <= l <= upTo && !Routes(cfg, RetryQueue(cfg, l))
    ensures 1 <= level <= upTo && !Routes(cfg, RetryQueue(cfg, level))
    ensures forall l :: 1 <= l < level ==> Routes(cfg, RetryQueue(cfg, l))
  {
    if l :| 1 <= l < upTo && !Routes(cfg, RetryQueue(cfg, l)) {
      level := FirstGap(cfg, upTo - 1);
    } else {
      level := upTo;
    }
  }

  // ---------------------------------------------------------------- no lock may be left behind

  /** Takes the only copy, for a single worker, from the main queue up to its lock attempt. */
  lemma UpToLock(cfg: Config, s0: State, acts: seq<Action>, s: State, faults: seq<Action>, c: Copy)
    returns (longer: seq<Action>)
    requires Led(cfg, s0, acts, s, faults)
    requires s.workers == [Idle] && s.main == [c] && c.parses && KeyOf(c) !in s.flags && c.event !in s.rows
    ensures Led(cfg, s0, longer, s.(main := [], workers := [Busy(c, Acquire)]), faults)
  {
    hide Led;
    var taken := s.(main := []);
    var s1 := taken.(workers := [Busy(c, Received)]);
    var s2 := taken.(workers := [Busy(c, CheckFlag)]);
    var s3 := taken.(workers := [Busy(c, CheckRow)]);
    var s4 := taken.(workers := [Busy(c, Acquire)]);
    longer := Step(cfg, s0, acts, s, faults, Deliver(0), s1);
    longer := Step(cfg, s0, longer, s1, faults, Advance(0, Answered), s2);
    longer := Step(cfg, s0, longer, s2, faults, Advance(0, Answered), s3);
    longer := Step(cfg, s0, longer, s3, faults, Advance(0, Answered), s4);
  }

  /** A delivery that finds its lock taken is acked and leaves nothing behind. */
  lemma AckedAsInProgress(cfg: Config, s0: State, acts: seq<Action>, s: State, faults: seq<Action>, c: Copy)
    returns (longer: seq<Action>)
    requires Led(cfg, s0, acts, s, faults)
    requires s.workers == [Idle] && s.main == [c] && c.parses && KeyOf(c) !in s.flags && c.event !in s.rows
    requires KeyOf(c) in s.locks
    ensures Led(cfg, s0, longer, s.(main := []), faults)
  {
    hide Led;
    longer := UpToLock(cfg, s0, acts, s, faults, c);
    var asking := s.(main := [], workers := [Busy(c, Acquire)]);
    var skipping := s.(main := [], workers := [Busy(c, Skipping)]);
    longer := Step(cfg, s0, longer, asking, faults, Advance(0, Answered), skipping);
    longer := Step(cfg, s0, longer, skipping, faults, Settle(0, Sent), s.(main := []));
  }

  /** A failing delivery that has left its lock behind: the retry copy comes back, is taken for a
      duplicate in progress, and is acked. */
  lemma RetryIsSkipped(cfg: Config, s0: State, acts: seq<Action>, s: State, faults: seq<Action>, c: Copy)
    returns (longer: seq<Action>)
    requires Led(cfg, s0, acts, s, faults)
    requires 0 < cfg.maxRetries == |s.retry| && Routes(cfg, RetryQueue(cfg, 1)) && s.retry[0] == []
    requires s.workers == [Busy(c, Failing)] && s.main == [] && c.parses && c.retries == 0
    requires KeyOf(c) in s.locks && KeyOf(c) !in s.flags && c.event !in s.rows
    ensures Led(cfg, s0, longer, s.(workers := [Idle]), faults)
  {
    hide Led;
    var c1 := c.(retries := 1);
    var waiting := s.(workers := [Idle], retry := s.retry[0 := [c1]]);
    var back := s.(workers := [Idle], main := [c1]);
    assert s.workers[0 := Idle] == [Idle] && s.retry[0] + [c1] == [c1];
    longer := Step(cfg, s0, acts, s, faults, Settle(0, Sent), waiting);
    assert [c1][1..] == [] && waiting.retry[0 := []] == s.retry && [] + [c1] == [c1];
    longer := Step(cfg, s0, longer, waiting, faults, RetryExpire(0), back);
    longer := AckedAsInProgress(cfg, s0, longer, back, faults, c1);
    assert back.(main := []) == s.(workers := [Idle]);
  }

  /** The one copy of a new event, up to the lock attempt of the only worker. */
  lemma AtTheLock(cfg: Config, c: Copy) returns (acts: seq<Action>)
    requires c.parses && c.retries == 0
    ensures Led(cfg, Init(cfg, 1), acts, Init(cfg, 1).(entered := {c.event}, workers := [Busy(c, Acquire)]), [])
  {
    var s0 := Init(cfg, 1);
    var s1 := s0.(main := [c], entered := {c.event});
    assert s0.workers == [Idle];
    Begin(cfg, s0);
    hide Led;
    acts := Step(cfg, s0, [], s0, [], Publish(c), s1);
    acts := UpToLock(cfg, s0, acts, s1, [], c);
    assert s1.(main := [], workers := [Busy(c, Acquire)]) == s0.(entered := {c.event}, workers := [Busy(c, Acquire)]);
  }

  lemma LeftWithLock(cfg: Config, e: Event, locks: map<Key, nat>)
    ensures !NotLost(Init(cfg, 1).(entered := {e}, locks := locks), e)
    ensures Init(cfg, 1).workers == [Idle]
  {
  }

  /** One death under the lock is enough to lose an event: the redelivered copy finds the lock of the
      dead holder and is acked as already in progress. */
  lemma HolderDeathLosesEvent(cfg: Config, key: string) returns (acts: seq<Action>, e: Event)
    ensures Valid(cfg, Init(cfg, 1), acts) && AllRouted(cfg, Init(cfg, 1), acts) && Faults(acts) == [Die(0)]
    ensures var s := Exec(cfg, Init(cfg, 1), acts); e in s.entered && !NotLost(s, e)
  {
    e := Event("e");
    var c := Copy(e, key, true, 0);
    var s0 := Init(cfg, 1);
    hide Led;
    acts := AtTheLock(cfg, c);
    var asking := s0.(entered := {e}, workers := [Busy(c, Acquire)]);
    var holding := asking.(locks := map[KeyOf(c) := 0], workers := [Busy(c, Handle)]);
    var dead := holding.(main := [c], workers := [Idle]);
    LeftWithLock(cfg, e, holding.locks);
    hide NotLost;
    assert asking.locks[KeyOf(c) := 0] == holding.locks;
    acts := Step(cfg, s0, acts, asking, [], Advance(0, Answered), holding);
    acts := Step(cfg, s0, acts, holding, [], Die(0), dead);
    acts := AckedAsInProgress(cfg, s0, acts, dead, [Die(0)], c);
    assert dead.(main := []) == s0.(entered := {e}, locks := holding.locks);
    LedTo(cfg, s0, acts, s0.(entered := {e}, locks := holding.locks), [Die(0)]);
  }

  /** So is one lost answer: the lock was set, the delivery takes the call for failed, and its retry is
      acked as already in progress. */
  lemma LostAnswerLosesEvent(cfg: Config, key: string) returns (acts: seq<Action>, e: Event)
    requires 0 < cfg.maxRetries && Routes(cfg, RetryQueue(cfg, 1))
    ensures Valid(cfg, Init(cfg, 1), acts) && AllRouted(cfg, Init(cfg, 1), acts) && Faults(acts) == [Advance(0, Unheard)]
    ensures var s := Exec(cfg, Init(cfg, 1), acts); e in s.entered && !NotLost(s, e)
  {
    e := Event("e");
    var c := Copy(e, key, true, 0);
    var s0 := Init(cfg, 1);
    hide Led;
    acts := AtTheLock(cfg, c);
    var asking := s0.(entered := {e}, workers := [Busy(c, Acquire)]);
    var failing := asking.(locks := map[KeyOf(c) := 0], workers := [Busy(c, Failing)]);
    LeftWithLock(cfg, e, failing.locks);
    hide NotLost;
    assert asking.locks[KeyOf(c) := 0] == failing.locks;
    acts := Step(cfg, s0, acts, asking, [], Advance(0, Unheard), failing);
    acts := RetryIsSkipped(cfg, s0, acts, failing, [Advance(0, Unheard)], c);
    assert failing.(workers := [Idle]) == s0.(entered := {e}, locks := failing.locks);
    LedTo(cfg, s0, acts, s0.(entered := {e}, locks := failing.locks), [Advance(0, Unheard)]);
  }

  /** The handler fails under the lock, and so does the release. */
  lemma KeepsItsLock(cfg: Config, s0: State, acts: seq<Action>, asking: State, c: Copy, failing: State)
      returns (longer: seq<Action>)
    requires Led(cfg, s0, acts, asking, []) && c.routingKey == USER_CREATED
    requires asking.workers == [Busy(c, Acquire)] && KeyOf(c) !in asking.locks
    requires failing == asking.(locks := asking.locks[KeyOf(c) := 0], workers := [Busy(c, Failing)])
    ensures Led(cfg, s0, longer, failing, [Advance(0, Failed), Advance(0, Failed)])
  {
    hide Led;
    var holding := failing.(workers := [Busy(c, Handle)]);
    var releasing := failing.(workers := [Busy(c, FailRelease)]);
    longer := Step(cfg, s0, acts, asking, [], Advance(0, Answered), holding);
    longer := Step(cfg, s0, longer, holding, [], Advance(0, Failed), releasing);
    assert [] + [Advance(0, Failed)] == [Advance(0, Failed)];
    longer := Step(cfg, s0, longer, releasing, [Advance(0, Failed)], Advance(0, Failed), failing);
    assert [Advance(0, Failed)] + [Advance(0, Failed)] == [Advance(0, Failed), Advance(0, Failed)];
  }

  /** And one failing release after a failing handler. */
  lemma FailedReleaseLosesEvent(cfg: Config) returns (acts: seq<Action>, e: Event)
    requires 0 < cfg.maxRetries && Routes(cfg, RetryQueue(cfg, 1))
    ensures Valid(cfg, Init(cfg, 1), acts) && AllRouted(cfg, Init(cfg, 1), acts)
    ensures Faults(acts) == [Advance(0, Failed), Advance(0, Failed)]
    ensures var s := Exec(cfg, Init(cfg, 1), acts); e in s.entered && !NotLost(s, e)
  {
    e := Event("e");
    var c := Copy(e, USER_CREATED, true, 0);
    var s0 := Init(cfg, 1);
    hide Led;
    acts := AtTheLock(cfg, c);
    var asking := s0.(entered := {e}, workers := [Busy(c, Acquire)]);
    var holding := asking.(locks := map[KeyOf(c) := 0], workers := [Busy(c, Handle)]);
    var failing := holding.(workers := [Busy(c, Failing)]);
    LeftWithLock(cfg, e, holding.locks);
    hide NotLost;
    assert asking.locks[KeyOf(c) := 0] == holding.locks;
    acts := KeepsItsLock(cfg, s0, acts, asking, c, failing);
    acts := RetryIsSkipped(cfg, s0, acts, failing, [Advance(0, Failed), Advance(0, Failed)], c);
    assert failing.(workers := [Idle]) == s0.(entered := {e}, locks := holding.locks);
    LedTo(cfg, s0, acts, s0.(entered := {e}, locks := holding.locks), [Advance(0, Failed), Advance(0, Failed)]);
  }

  // ---------------------------------------------------------------- not exactly once

  /** There is no second row check after the lock is taken, so without any fault or expiry a delivery
      that read the table before the record can run the handler again. */
  lemma HandlerCanRunTwice(cfg: Config, key: string) returns (acts: seq<Action>, e: Event)
    ensures Valid(cfg, Init(cfg, 2), acts) && Faults(acts) == []
    ensures Exec(cfg, Init(cfg, 2), acts).handled == [e, e]
  {
    e := Event("e");
    var c := Copy(e, key, true, 0);
    var s0 := Init(cfg, 2);
    assert s0.workers == [Idle, Idle];
    var s1 := s0.(main := [c], entered := {e});
    var s2 := s1.(main := [c, c]);
    Begin(cfg, s0);
    hide Led;
    acts := Step(cfg, s0, [], s0, [], Publish(c), s1);
    acts := Step(cfg, s0, acts, s1, [], Publish(c), s2);
    var s3 := s2.(main := s2.main[1..], workers := s2.workers[1 := Busy(c, Acquire)]);
    acts := ToAcquire(cfg, s0, acts, s2, 1, c);
    var s4 := s3.(main := s3.main[1..], workers := s3.workers[0 := Busy(c, Acquire)]);
    acts := ToAcquire(cfg, s0, acts, s3, 0, c);
    var s5;
    acts, s5 := WholeSection(cfg, s0, acts, s4, 0, c);
    var s6 := s5.(locks := s5.locks[KeyOf(c) := 1], workers := s5.workers[1 := Busy(c, Handle)]);
    acts := Step(cfg, s0, acts, s5, [], Advance(1, Answered), s6);
    var s7 := s6.(handled := s6.handled + [e], workers := s6.workers[1 := Busy(c, Insert)]);
    assert s6.workers[1 := Busy(c, Insert)] == s7.workers;
    acts := Step(cfg, s0, acts, s6, [], Advance(1, Answered), s7);
    LedTo(cfg, s0, acts, s7, []);
  }

  /** From the lock attempt to the release, undisturbed. */
  lemma WholeSection(cfg: Config, s0: State, acts: seq<Action>, s: State, w: nat, c: Copy)
    returns (longer: seq<Action>, end: State)
    requires Led(cfg, s0, acts, s, []) && w < |s.workers| && s.workers[w] == Busy(c, Acquire)
    requires KeyOf(c) !in s.locks && c.event !in s.rows
    ensures Led(cfg, s0, longer, end, []) && end.handled == s.handled + [c.event]
    ensures KeyOf(c) !in end.locks && end.workers == s.workers[w := Busy(c, Done)]
  {
    hide Led;
    var k := KeyOf(c);
    var s1 := s.(locks := s.locks[k := w], workers := s.workers[w := Busy(c, Handle)]);
    var s2 := s1.(handled := s.handled + [c.event], workers := s.workers[w := Busy(c, Insert)]);
    var s3 := s2.(rows := s.rows + {c.event}, recorded := s.recorded + {c.event}, workers := s.workers[w := Busy(c, Mark)]);
    var s4 := s3.(flags := s.flags + {k}, workers := s.workers[w := Busy(c, Release)]);
    end := s4.(locks := s4.locks - {k}, workers := s.workers[w := Busy(c, Done)]);
    assert s1.workers[w := Busy(c, Insert)] == s2.workers && s2.workers[w := Busy(c, Mark)] == s3.workers;
    assert s3.workers[w := Busy(c, Release)] == s4.workers && s4.workers[w := Busy(c, Done)] == end.workers;
    longer := Step(cfg, s0, acts, s, [], Advance(w, Answered), s1);
    longer := Step(cfg, s0, longer, s1, [], Advance(w, Answered), s2);
    longer := Step(cfg, s0, longer, s2, [], Advance(w, Answered), s3);
    longer := Step(cfg, s0, longer, s3, [], Advance(w, Answered), s4);
    longer := Step(cfg, s0, longer, s4, [], Advance(w, Answered), end);
  }

  /** Takes delivery `w` of two from the main queue up to its lock attempt. */
  lemma ToAcquire(cfg: Config, s0: State, acts: seq<Action>, s: State, w: nat, c: Copy) returns (longer: seq<Action>)
    requires Led(cfg, s0, acts, s, [])
    requires w < |s.workers| == 2 && s.workers[w].Idle? && s.main != [] && s.main[0] == c && c.parses
    requires KeyOf(c) !in s.flags && c.event !in s.rows
    ensures Led(cfg, s0, longer, s.(main := s.main[1..], workers := s.workers[w := Busy(c, Acquire)]), [])
  {
    hide Led;
    var taken := s.(main := s.main[1..]);
    var s1 := taken.(workers := s.workers[w := Busy(c, Received)]);
    var s2 := taken.(workers := s.workers[w := Busy(c, CheckFlag)]);
    var s3 := taken.(workers := s.workers[w := Busy(c, CheckRow)]);
    var s4 := taken.(workers := s.workers[w := Busy(c, Acquire)]);
    assert s1.workers[w := Busy(c, CheckFlag)] == s2.workers && s2.workers[w := Busy(c, CheckRow)] == s3.workers;
    assert s3.workers[w := Busy(c, Acquire)] == s4.workers;
    longer := Step(cfg, s0, acts, s, [], Deliver(w), s1);
    longer := Step(cfg, s0, longer, s1, [], Advance(w, Answered), s2);
    longer := Step(cfg, s0, longer, s2, [], Advance(w, Answered), s3);
    longer := Step(cfg, s0, longer, s3, [], Advance(w, Answered), s4);
  }
}
