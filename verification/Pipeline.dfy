/** The message pipeline as a step machine: any number of deliveries are handled concurrently, and
    each action is one atomic effect on Redis, the processed-events table or the broker. */
module Pipeline {
  import opened Topology
  import Messages

  const USER_CREATED := "user.created"

  /** Identity of an event: its id, or the body itself when no id can be read from it. */
  datatype Event = Event(id: string) | Unreadable(body: Messages.Body)

  /** One queued copy of an event; `parses` says whether `parseMessage` accepts it. */
  datatype Copy = Copy(event: Event, routingKey: string, parses: bool, retries: nat)

  /** The pair that both Redis keys of a delivery are built from. */
  datatype Key = Key(routingKey: string, event: Event)

  function KeyOf(c: Copy): Key { Key(c.routingKey, c.event) }

  /** Where a delivery is in `handleMessage`, `dispatch` and `markProcessed`. */
  datatype Phase =
    | Received           // about to parse
    | CheckFlag          // Redis: already processed?
    | CheckRow           // table: already processed?
    | MarkSeen           // row found: copy it to Redis
    | Acquire            // SET NX
    | Handle             // lock acquired, handler not yet run
    | Insert             // handler done, row not yet written
    | Mark               // row written, Redis flag not yet set
    | Release            // flag set, lock not yet deleted
    | DupMark            // unique violation: set the flag
    | DupRelease         // unique violation: first delete of the lock
    | DupReleaseAgain    // the enclosing catch deletes the lock once more
    | FailRelease        // any other error under the lock
    | Done               // to be acked, the event is recorded
    | Skipping           // to be acked, somebody else holds the lock
    | Failing            // to be retried or dead-lettered

  datatype Worker = Idle | Busy(copy: Copy, phase: Phase)

  /** `locks` remembers the slot that last acquired each lock. `entered`, `recorded` and `handled`
      are history: events that reached the main queue, events whose row was ever written, and the
      successful handler runs in order. */
  datatype State = State(
    main: seq<Copy>,
    retry: seq<seq<Copy>>,       // retry[i] is the queue of level i + 1
    dlq: seq<Copy>,
    workers: seq<Worker>,
    flags: set<Key>,
    locks: map<Key, nat>,
    rows: set<Event>,
    entered: set<Event>,
    recorded: set<Event>,
    handled: seq<Event>)

  function Init(cfg: Config, slots: nat): State {
    State([], seq(cfg.maxRetries, _ => []), [], seq(slots, _ => Idle), {}, map[], {}, {}, {}, [])
  }

  /** Outcome of `sendToQueue` on a retry queue: accepted, or refused with or without the copy
      having been queued all the same. */
  datatype Send = Sent | RefusedButQueued | Refused

  /** Outcome of any other external call: answered, failed without effect, or with its effect made and
      only the answer lost. */
  datatype Reply = Answered | Failed | Unheard

  datatype Action =
    | Publish(copy: Copy)
    | Deliver(w: nat)
    | Advance(w: nat, r: Reply)      // the delivery's next external call
    | Settle(w: nat, send: Send)     // ack, retry or dead-letter
    | RetryExpire(level: nat)
    | Republish
    | LockExpire(key: Key)
    | FlagExpire(key: Key)
    | RowCleanup(event: Event)
    | Die(w: nat)                    // the worker dies, the broker requeues the delivery; a lock stays

  /** The delivery holds, or held until the lock's TTL passed, the processing lock. */
  predicate InSection(p: Phase) {
    p == Handle || p == Insert || p == Mark || p == Release || p == DupMark || p == DupRelease || p == FailRelease
  }

  predicate ReadyToSettle(p: Phase) { p == Done || p == Skipping || p == Failing }

  predicate IsBusy(s: State, w: nat) { w < |s.workers| && s.workers[w].Busy? }

  predicate CanDo(cfg: Config, s: State, a: Action) {
    match a
    case Publish(c) => c.retries == 0
    case Deliver(w) => w < |s.workers| && s.workers[w].Idle? && s.main != []
    case Advance(w, r) =>
      && IsBusy(s, w) && !ReadyToSettle(s.workers[w].phase)
      && (s.workers[w].phase == Handle && r != Answered ==> s.workers[w].copy.routingKey == USER_CREATED)
    case Settle(w, _) => IsBusy(s, w) && ReadyToSettle(s.workers[w].phase)
    case RetryExpire(l) => l < |s.retry| && s.retry[l] != []
    case Republish => s.dlq != []
    case LockExpire(k) => k in s.locks
    case FlagExpire(k) => k in s.flags
    case RowCleanup(e) => e in s.rows
    case Die(w) => IsBusy(s, w)
  }

  function GoTo(s: State, w: nat, p: Phase): State
    requires IsBusy(s, w)
  {
    s.(workers := s.workers[w := Busy(s.workers[w].copy, p)])
  }

  function Free(s: State, w: nat): State
    requires IsBusy(s, w)
  {
    s.(workers := s.workers[w := Idle])
  }

  function SetFlag(s: State, k: Key, r: Reply): State { if r == Failed then s else s.(flags := s.flags + {k}) }

  function DropLock(s: State, k: Key, r: Reply): State { if r == Failed then s else s.(locks := s.locks - {k}) }

  function WriteRow(s: State, e: Event, r: Reply): State {
    if r == Failed then s else s.(rows := s.rows + {e}, recorded := s.recorded + {e})
  }

  function AdvanceTo(s: State, w: nat, r: Reply): State
    requires IsBusy(s, w) && !ReadyToSettle(s.workers[w].phase)
  {
    var c := s.workers[w].copy;
    var k := KeyOf(c);
    var ok := r == Answered;
    match s.workers[w].phase
    case Received => GoTo(s, w, if c.parses then CheckFlag else Failing)
    case CheckFlag => GoTo(s, w, if !ok then Failing else if k in s.flags then Done else CheckRow)
    case CheckRow => GoTo(s, w, if !ok then Failing else if c.event in s.rows then MarkSeen else Acquire)
    case MarkSeen => GoTo(SetFlag(s, k, r), w, if ok then Done else Failing)
    case Acquire =>
      if k in s.locks then GoTo(s, w, if ok then Skipping else Failing)
      else GoTo(if r == Failed then s else s.(locks := s.locks[k := w]), w, if ok then Handle else Failing)
    case Handle =>
      if ok then GoTo(s.(handled := s.handled + [c.event]), w, Insert) else GoTo(s, w, FailRelease)
    case Insert =>
      if c.event in s.rows then GoTo(s, w, if ok then DupMark else FailRelease)
      else GoTo(WriteRow(s, c.event, r), w, if ok then Mark else FailRelease)
    case Mark => GoTo(SetFlag(s, k, r), w, if ok then Release else FailRelease)
    case Release => GoTo(DropLock(s, k, r), w, if ok then Done else FailRelease)
    case DupMark => GoTo(SetFlag(s, k, r), w, if ok then DupRelease else FailRelease)
    case DupRelease => GoTo(DropLock(s, k, r), w, if ok then DupReleaseAgain else FailRelease)
    case DupReleaseAgain => GoTo(DropLock(s, k, r), w, if ok then Done else Failing)
    case FailRelease => GoTo(DropLock(s, k, r), w, Failing)
  }

  /** A copy sent to the retry queue of its next level; an undeclared queue would swallow it. */
  function SendToRetry(s: State, c: Copy): State {
    if c.retries < |s.retry| then
      s.(retry := s.retry[c.retries := s.retry[c.retries] + [c.(retries := c.retries + 1)]])
    else s
  }

  function SettleTo(cfg: Config, s: State, w: nat, send: Send): State
    requires IsBusy(s, w) && ReadyToSettle(s.workers[w].phase)
  {
    if s.workers[w].phase != Failing then Free(s, w) else Forward(cfg, Free(s, w), s.workers[w].copy, send)
  }

  /** The failure branch: one more retry, or the dead-letter queue, or both. */
  function Forward(cfg: Config, s: State, c: Copy, send: Send): State {
    if c.retries < cfg.maxRetries then
      match send
      case Sent => SendToRetry(s, c)
      case RefusedButQueued => SendToRetry(s.(dlq := s.dlq + [c]), c)
      case Refused => s.(dlq := s.dlq + [c])
    else s.(dlq := s.dlq + [c])
  }

  function Do(cfg: Config, s: State, a: Action): State
    requires CanDo(cfg, s, a)
  {
    match a
    case Publish(c) => s.(main := s.main + [c], entered := s.entered + {c.event})
    case Deliver(w) => s.(main := s.main[1..], workers := s.workers[w := Busy(s.main[0], Received)])
    case Advance(w, r) => AdvanceTo(s, w, r)
    case Settle(w, send) => SettleTo(cfg, s, w, send)
    case RetryExpire(l) =>
      var c := s.retry[l][0];
      var s' := s.(retry := s.retry[l := s.retry[l][1..]]);
      if Routes(cfg, RetryQueue(cfg, l + 1)) then s'.(main := s.main + [c]) else s'
    case Republish =>
      var c := s.dlq[0];
      var s' := s.(dlq := s.dlq[1..]);
      if Routes(cfg, c.routingKey) then s'.(main := s.main + [c]) else s'
    case LockExpire(k) => s.(locks := s.locks - {k})
    case FlagExpire(k) => s.(flags := s.flags - {k})
    case RowCleanup(e) => s.(rows := s.rows - {e})
    case Die(w) => Free(s, w).(main := [s.workers[w].copy] + s.main)
  }

  // ---------------------------------------------------------------- what a run may be asked not to do

  /** The lock of the delivery's key is in Redis and the delivery acquired it last. */
  predicate Holds(s: State, w: nat) {
    IsBusy(s, w) && KeyOf(s.workers[w].copy) in s.locks && s.locks[KeyOf(s.workers[w].copy)] == w
  }

  /** The step leaves a lock in Redis that nobody is going to release: its holder dies, its release fails
      for good, or it was set by a call whose answer was lost. */
  predicate LeavesLock(s: State, a: Action) {
    match a
    case Die(w) => Holds(s, w)
    case Advance(w, r) =>
      && IsBusy(s, w)
      && (|| (s.workers[w].phase == FailRelease && r == Failed && Holds(s, w))
          || (s.workers[w].phase == Acquire && r == Unheard && KeyOf(s.workers[w].copy) !in s.locks))
    case _ => false
  }

  /** The same for an event that has no record yet. */
  predicate OrphansEvent(s: State, a: Action) {
    LeavesLock(s, a) && s.workers[a.w].copy.event !in s.recorded
  }

  /** The step hands a copy to the exchange under a key that does not reach the main queue. */
  predicate Unroutable(cfg: Config, s: State, a: Action) {
    match a
    case RetryExpire(l) => !Routes(cfg, RetryQueue(cfg, l + 1))
    case Republish => s.dlq != [] && !Routes(cfg, s.dlq[0].routingKey)
    case _ => false
  }

  predicate Valid(cfg: Config, s: State, acts: seq<Action>)
    decreases |acts|
  {
    acts == [] || (CanDo(cfg, s, acts[0]) && Valid(cfg, Do(cfg, s, acts[0]), acts[1..]))
  }

  function Exec(cfg: Config, s: State, acts: seq<Action>): State
    requires Valid(cfg, s, acts)
    decreases |acts|
  {
    if acts == [] then s else Exec(cfg, Do(cfg, s, acts[0]), acts[1..])
  }

  /** No step of the run leaves a lock behind. */
  predicate LocksReleased(cfg: Config, s: State, acts: seq<Action>)
    requires Valid(cfg, s, acts)
    decreases |acts|
  {
    acts == [] || (!LeavesLock(s, acts[0]) && LocksReleased(cfg, Do(cfg, s, acts[0]), acts[1..]))
  }

  /** No step of the run leaves a lock behind on an event without a record. */
  predicate NoneOrphaned(cfg: Config, s: State, acts: seq<Action>)
    requires Valid(cfg, s, acts)
    decreases |acts|
  {
    acts == [] || (!OrphansEvent(s, acts[0]) && NoneOrphaned(cfg, Do(cfg, s, acts[0]), acts[1..]))
  }

  /** Every copy handed to the exchange in the run reaches the main queue. */
  predicate AllRouted(cfg: Config, s: State, acts: seq<Action>)
    requires Valid(cfg, s, acts)
    decreases |acts|
  {
    acts == [] || (!Unroutable(cfg, s, acts[0]) && AllRouted(cfg, Do(cfg, s, acts[0]), acts[1..]))
  }

  lemma {:induction false} ExecAppend(cfg: Config, s: State, a: seq<Action>, b: seq<Action>)
    requires Valid(cfg, s, a) && Valid(cfg, Exec(cfg, s, a), b)
    ensures Valid(cfg, s, a + b) && Exec(cfg, s, a + b) == Exec(cfg, Exec(cfg, s, a), b)
    decreases |a|
  {
    if a == [] {
      assert a + b == b;
    } else {
      assert (a + b)[1..] == a[1..] + b;
      ExecAppend(cfg, Do(cfg, s, a[0]), a[1..], b);
    }
  }

  lemma {:induction false} RoutedAppend(cfg: Config, s: State, acts: seq<Action>, a: Action)
    requires Valid(cfg, s, acts) && AllRouted(cfg, s, acts) && Valid(cfg, s, acts + [a])
    requires !Unroutable(cfg, Exec(cfg, s, acts), a)
    ensures AllRouted(cfg, s, acts + [a])
    decreases |acts|
  {
    if acts == [] {
      assert acts + [a] == [a] && [a][1..] == [];
    } else {
      assert (acts + [a])[1..] == acts[1..] + [a];
      RoutedAppend(cfg, Do(cfg, s, acts[0]), acts[1..], a);
    }
  }

  lemma ExecOne(cfg: Config, s: State, a: Action)
    requires CanDo(cfg, s, a)
    ensures Valid(cfg, s, [a]) && Exec(cfg, s, [a]) == Do(cfg, s, a)
  {
  }

  /** Appends one action to a run that has reached `s`. */
  lemma Then(cfg: Config, s0: State, acts: seq<Action>, s: State, a: Action, next: State) returns (longer: seq<Action>)
    requires Valid(cfg, s0, acts) && Exec(cfg, s0, acts) == s && CanDo(cfg, s, a) && Do(cfg, s, a) == next
    ensures longer == acts + [a]
    ensures Valid(cfg, s0, longer) && Exec(cfg, s0, longer) == next
  {
    longer := acts + [a];
    ExecOne(cfg, s, a);
    ExecAppend(cfg, s0, acts, [a]);
  }
}
