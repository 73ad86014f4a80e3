/** The consumer written as the source writes it: one delivery handled step by step over the shared
    Redis keys, the processed-events table and the broker queues. Every effect is one action of the
    pipeline machine on the abstract copies, so what holds for its runs holds for this code. */
module Consumer {
  import opened Common
  import opened Topology
  import opened Messages
  import opened Pipeline
  import PipelineSafety
  import PipelineClaims

  /** The abstract copy a raw message stands for. */
  function CopyOf(m: RawMessage): Copy {
    match ParseMessage(m)
    case Some(e) => Copy(Event(e.eventId), e.routingKey, true, RetryCount(m))
    case None => Copy(Unreadable(m.body), FailureKey(m), false, RetryCount(m))
  }

  /** A body that no hop can make readable: no id anywhere or no object for payload, but a key to route by. */
  predicate Hopeless(m: RawMessage) {
    && m.body.Body? && KeyFromBody(m.body).Some?
    && (|| m.body.payload.None? || !IsObject(m.body.payload.value)
        || (m.messageId == "" && m.body.id == "" && PayloadId(m.body) == "" && IdOfHeader(m.headers.id) == ""))
  }

  /** The message keeps its identity and its routing key on every hop. */
  predicate Steady(cfg: Config, m: RawMessage) {
    && ((ParseMessage(m).Some? && IdPinned(m) && KeyPinned(cfg, m)) || Hopeless(m))
    && (m.headers.originalKey.Some? ==> m.headers.originalKey.value == CopyOf(m).routingKey)
  }

  /** On steady messages the broker's hops are the machine's moves of abstract copies, and what is read from
      them stays the same, payload included. */
  lemma SteadyTravel(cfg: Config, m: RawMessage, hop: Hop)
    requires cfg.queue != "" && Steady(cfg, m)
    ensures var n := Travel(cfg, m, hop);
            && Steady(cfg, n) && ParseMessage(n) == ParseMessage(m)
            && CopyOf(n) == CopyOf(m).(retries := CopyOf(m).retries + if hop == ViaRetry then 1 else 0)
    ensures cfg.exchange.Some? ==> RepublishKey(DeadLettered(cfg, m)) == CopyOf(m).routingKey
  {
    if Hopeless(m) {
      assert ParseMessage(m).None? && ParseMessage(Travel(cfg, m, hop)).None?;
    } else {
      PinnedTravel(cfg, m, hop);
    }
  }


  function Events(q: seq<Envelope>): (r: seq<Event>)
    ensures |r| == |q| && forall i :: 0 <= i < |q| ==> r[i] == Event(q[i].eventId)
  {
    seq(|q|, i requires 0 <= i < |q| => Event(q[i].eventId))
  }

  /** A dead letter that comes back steady, under the key it is republished with. */
  predicate Exhumable(cfg: Config, d: RawMessage) {
    && Steady(cfg, Republished(cfg, d))
    && (cfg.exchange.Some? ==> RepublishKey(d) == CopyOf(Republished(cfg, d)).routingKey)
  }

  /** What is read from the message, if anything, is among these. */
  predicate Known(sent: set<Envelope>, m: RawMessage) { ParseMessage(m).Some? ==> ParseMessage(m).value in sent }

  /** What the consumer keeps about its messages and its dead letters, of all that was sent to it. */
  predicate Sound(cfg: Config, sent: set<Envelope>, m: RawMessage) { Steady(cfg, m) && Known(sent, m) }

  predicate Dead(cfg: Config, sent: set<Envelope>, d: RawMessage) { Exhumable(cfg, d) && Known(sent, Republished(cfg, d)) }

  lemma MoreSent(cfg: Config, sent: set<Envelope>, more: set<Envelope>)
    ensures forall m :: Sound(cfg, sent, m) ==> Sound(cfg, sent + more, m)
    ensures forall d :: Dead(cfg, sent, d) ==> Dead(cfg, sent + more, d)
  {
  }

  /** What draining a dead-letter queue appends to the main queue. */
  function Resent(cfg: Config, q: seq<RawMessage>): seq<RawMessage> {
    if q == [] then []
    else (if Routes(cfg, RepublishKey(q[0])) then [Republished(cfg, q[0])] else []) + Resent(cfg, q[1..])
  }

  /** The drain forwards every dead letter, in order and with its body and headers but for the mark of a
      republish, exactly when each resolved routing key reaches the main queue. */
  lemma {:induction false} DrainIsComplete(cfg: Config, q: seq<RawMessage>)
    ensures |Resent(cfg, q)| <= |q|
    ensures |Resent(cfg, q)| == |q| <==> forall i :: 0 <= i < |q| ==> Routes(cfg, RepublishKey(q[i]))
    ensures |Resent(cfg, q)| == |q| ==>
              forall i :: 0 <= i < |q| ==> Resent(cfg, q)[i] == Republished(cfg, q[i]) &&
                                           Resent(cfg, q)[i].body == q[i].body &&
                                           Resent(cfg, q)[i].headers == q[i].headers.(republished := true)
  {
    if q != [] {
      DrainIsComplete(cfg, q[1..]);
      assert forall i :: 0 < i < |q| ==> q[i] == q[1..][i - 1];
      if i :| 0 <= i < |q| && !Routes(cfg, RepublishKey(q[i])) && i > 0 {
        assert !Routes(cfg, RepublishKey(q[1..][i - 1]));
      }
    }
  }

  // Abstract counterparts of the broker's queues and of the deliveries in hand.

  function Copies(q: seq<RawMessage>): (r: seq<Copy>)
    ensures |r| == |q| && forall i :: 0 <= i < |q| ==> r[i] == CopyOf(q[i])
  {
    seq(|q|, i requires 0 <= i < |q| => CopyOf(q[i]))
  }

  function Waiting(cfg: Config, q: seq<RawMessage>): (r: seq<Copy>)
    ensures |r| == |q| && forall i :: 0 <= i < |q| ==> r[i] == CopyOf(Expired(cfg, q[i]))
  {
    seq(|q|, i requires 0 <= i < |q| => CopyOf(Expired(cfg, q[i])))
  }

  function Ladders(cfg: Config, levels: seq<seq<RawMessage>>): (r: seq<seq<Copy>>)
    ensures |r| == |levels| && forall l :: 0 <= l < |levels| ==> r[l] == Waiting(cfg, levels[l])
  {
    seq(|levels|, l requires 0 <= l < |levels| => Waiting(cfg, levels[l]))
  }

  function Buried(cfg: Config, q: seq<RawMessage>): (r: seq<Copy>)
    ensures |r| == |q| && forall i :: 0 <= i < |q| ==> r[i] == CopyOf(Republished(cfg, q[i]))
  {
    seq(|q|, i requires 0 <= i < |q| => CopyOf(Republished(cfg, q[i])))
  }

  function Deliveries(unacked: seq<Option<RawMessage>>, phases: seq<Phase>): (r: seq<Worker>)
    requires |phases| == |unacked|
    ensures |r| == |unacked|
    ensures forall i :: 0 <= i < |r| ==>
              r[i] == if unacked[i].Some? then Busy(CopyOf(unacked[i].value), phases[i]) else Idle
  {
    seq(|unacked|, i requires 0 <= i < |unacked| =>
      if unacked[i].Some? then Busy(CopyOf(unacked[i].value), phases[i]) else Idle)
  }

  lemma LaddersAppend(cfg: Config, levels: seq<seq<RawMessage>>, l: nat, m: RawMessage)
    requires l < |levels|
    ensures Ladders(cfg, levels[l := levels[l] + [m]]) ==
            Ladders(cfg, levels)[l := Ladders(cfg, levels)[l] + [CopyOf(Expired(cfg, m))]]
  {
    assert Waiting(cfg, levels[l] + [m]) == Waiting(cfg, levels[l]) + [CopyOf(Expired(cfg, m))];
  }

  lemma BuriedAppend(cfg: Config, q: seq<RawMessage>, m: RawMessage)
    ensures Buried(cfg, q + [m]) == Buried(cfg, q) + [CopyOf(Republished(cfg, m))]
  {
  }

  /** Dead-lettering a republished message buries the copy that was dug out. */
  lemma BuriedAgain(cfg: Config, d: RawMessage, rest: seq<RawMessage>)
    requires cfg.queue != "" && Exhumable(cfg, d)
    ensures RetryCount(Republished(cfg, d)) == RetryCount(d)
    ensures Buried(cfg, rest + [DeadLettered(cfg, Republished(cfg, d))]) == Buried(cfg, rest) + [CopyOf(Republished(cfg, d))]
  {
    SteadyTravel(cfg, Republished(cfg, d), ViaDeadLetter);
    hide CopyOf, Steady;
    BuriedAppend(cfg, rest, DeadLettered(cfg, Republished(cfg, d)));
  }

  lemma DeliveriesFree(unacked: seq<Option<RawMessage>>, phases: seq<Phase>, w: nat)
    requires |phases| == |unacked| && w < |unacked|
    ensures Deliveries(unacked[w := None], phases) == Deliveries(unacked, phases)[w := Idle]
  {
  }

  lemma DeliveriesMove(unacked: seq<Option<RawMessage>>, phases: seq<Phase>, w: nat, p: Phase)
    requires |phases| == |unacked| && w < |unacked| && unacked[w].Some?
    ensures Deliveries(unacked, phases[w := p]) == Deliveries(unacked, phases)[w := Busy(CopyOf(unacked[w].value), p)]
  {
  }

  const AllGood := Io(Answered, Answered, Answered, Answered, Answered, Answered, Answered, Answered, Answered,
                      Answered, Answered, Answered, Sent)

  /** How `dispatch` ends: normally, with SkipMessageError, or with another error. */
  datatype Verdict = Returned | Skipped | Thrown

  /** How each external call of a delivery goes; `send` is what `sendToQueue` answers. */
  datatype Io = Io(
    isProcessed: Reply, findRow: Reply, markSeen: Reply, acquire: Reply, handler: Reply, insert: Reply,
    mark: Reply, release: Reply, dupMark: Reply, dupRelease: Reply, dupReleaseAgain: Reply, failRelease: Reply,
    send: Send)

  /** How the external call of a phase goes; only a registered handler can throw. */
  function Answer(io: Io, c: Copy, p: Phase): Reply {
    match p
    case CheckFlag => io.isProcessed
    case CheckRow => io.findRow
    case MarkSeen => io.markSeen
    case Acquire => io.acquire
    case Handle => if c.routingKey == USER_CREATED then io.handler else Answered
    case Insert => io.insert
    case Mark => io.mark
    case Release => io.release
    case DupMark => io.dupMark
    case DupRelease => io.dupRelease
    case DupReleaseAgain => io.dupReleaseAgain
    case FailRelease => io.failRelease
    case _ => Answered
  }

  /** The answers as the delivery hears them: the handler's own check refuses a malformed event. */
  function Heard(io: Io, parsed: Option<Envelope>): Io {
    if parsed.Some? && Malformed(parsed.value) then io.(handler := Failed) else io
  }

  predicate Malformed(e: Envelope) { e.routingKey == USER_CREATED && ReadUserCreated(e.payload).None? }

  /** Where the machine takes delivery `w`, undisturbed, until it is to be acked or failed. */
  ghost function Finish(s: State, w: nat, io: Io): (r: State)
    requires IsBusy(s, w)
    ensures IsBusy(r, w) && ReadyToSettle(r.workers[w].phase) && r.workers[w].copy == s.workers[w].copy
    decreases PipelineClaims.PhaseRank(s.workers[w].phase)
  {
    if ReadyToSettle(s.workers[w].phase) then s
    else
      var r := Answer(io, s.workers[w].copy, s.workers[w].phase);
      PipelineClaims.RankDrops(s, w, r);
      Finish(AdvanceTo(s, w, r), w, io)
  }

  lemma FinishStep(s: State, w: nat, io: Io, c: Copy, p: Phase)
    requires w < |s.workers| && s.workers[w] == Busy(c, p) && !ReadyToSettle(p)
    ensures IsBusy(AdvanceTo(s, w, Answer(io, c, p)), w)
    ensures Finish(s, w, io) == Finish(AdvanceTo(s, w, Answer(io, c, p)), w, io)
  {
    PipelineClaims.RankDrops(s, w, Answer(io, c, p));
  }

  /** One step of the machine, with this answer. */
  predicate Moved(s: State, s': State, w: nat, r: Reply) {
    IsBusy(s, w) && !ReadyToSettle(s.workers[w].phase) && s' == AdvanceTo(s, w, r)
  }

  /** The settling step of the machine. */
  predicate Settles(cfg: Config, s: State, s': State, w: nat, send: Send) {
    IsBusy(s, w) && ReadyToSettle(s.workers[w].phase) && s' == SettleTo(cfg, s, w, send)
  }

  /** Both states have the same end ahead of them. */
  ghost predicate SameEnd(s: State, s': State, w: nat, io: Io) {
    IsBusy(s, w) && IsBusy(s', w) && Finish(s', w, io) == Finish(s, w, io)
  }

  /** The state with delivery `w` at phase `p`. */
  function Put(s: State, w: nat, c: Copy, p: Phase): State
    requires w < |s.workers|
  {
    s.(workers := s.workers[w := Busy(c, p)])
  }

  lemma Go(s: State, w: nat, io: Io, c: Copy, p: Phase, next: State, p': Phase)
    requires w < |s.workers| == |next.workers| && !ReadyToSettle(p)
    requires AdvanceTo(Put(s, w, c, p), w, Answer(io, c, p)) == Put(next, w, c, p')
    ensures Finish(Put(s, w, c, p), w, io) == Finish(Put(next, w, c, p'), w, io)
  {
    FinishStep(Put(s, w, c, p), w, io, c, p);
  }

  /** With nothing in the way, a delivery gets the lock. */
  lemma ReachesHandler(s: State, w: nat, c: Copy, io: Io)
    requires w < |s.workers| && c.parses && io.isProcessed == io.findRow == io.acquire == Answered
    requires KeyOf(c) !in s.flags && KeyOf(c) !in s.locks && c.event !in s.rows
    ensures Finish(Put(s, w, c, Received), w, io) ==
            Finish(Put(s.(locks := s.locks[KeyOf(c) := w]), w, c, Handle), w, io)
  {
    hide Finish;
    var locked := s.(locks := s.locks[KeyOf(c) := w]);
    Go(s, w, io, c, Received, s, CheckFlag);
    Go(s, w, io, c, CheckFlag, s, CheckRow);
    Go(s, w, io, c, CheckRow, s, Acquire);
    assert locked == s.(locks := s.locks[KeyOf(c) := w]);
    Go(s, w, io, c, Acquire, locked, Handle);
  }

  /** How a delivery ends when every call succeeds: an unreadable message fails; a flagged one is done; one
      with a row only gets its flag back; one whose key is in hand elsewhere is skipped; any other is handled
      once and leaves the row and the flag, and no lock. */
  lemma CleanDelivery(s: State, w: nat, c: Copy)
    requires w < |s.workers|
    ensures Finish(Put(s, w, c, Received), w, AllGood) ==
            if !c.parses then Put(s, w, c, Failing)
            else if KeyOf(c) in s.flags then Put(s, w, c, Done)
            else if c.event in s.rows then Put(s.(flags := s.flags + {KeyOf(c)}), w, c, Done)
            else if KeyOf(c) in s.locks then Put(s, w, c, Skipping)
            else Put(s.(rows := s.rows + {c.event}, recorded := s.recorded + {c.event}, flags := s.flags + {KeyOf(c)},
                        handled := s.handled + [c.event]), w, c, Done)
  {
    if c.parses && KeyOf(c) !in s.flags {
      if c.event in s.rows {
        RecordedBefore(s, w, c);
      } else if KeyOf(c) in s.locks {
        InHandElsewhere(s, w, c);
      } else {
        NewEvent(s, w, c);
      }
    } else {
      hide Finish;
      Go(s, w, AllGood, c, Received, s, if c.parses then CheckFlag else Failing);
      if c.parses { Go(s, w, AllGood, c, CheckFlag, s, Done); }
      Ended(s, w, AllGood, c, if c.parses then Done else Failing);
    }
  }

  lemma NewEvent(s: State, w: nat, c: Copy)
    requires w < |s.workers| && c.parses
    requires KeyOf(c) !in s.flags && KeyOf(c) !in s.locks && c.event !in s.rows
    ensures Finish(Put(s, w, c, Received), w, AllGood) ==
            Put(s.(rows := s.rows + {c.event}, recorded := s.recorded + {c.event}, flags := s.flags + {KeyOf(c)},
                   handled := s.handled + [c.event]), w, c, Done)
  {
    ReachesHandler(s, w, c, AllGood);
    hide Finish;
    var s1 := s.(locks := s.locks[KeyOf(c) := w]);
    assert s1.locks - {KeyOf(c)} == s.locks;
    RecordsAndReleases(s1, w, c);
  }

  lemma RecordedBefore(s: State, w: nat, c: Copy)
    requires w < |s.workers| && c.parses && KeyOf(c) !in s.flags && c.event in s.rows
    ensures Finish(Put(s, w, c, Received), w, AllGood) == Put(s.(flags := s.flags + {KeyOf(c)}), w, c, Done)
  {
    hide Finish;
    var s1 := s.(flags := s.flags + {KeyOf(c)});
    Go(s, w, AllGood, c, Received, s, CheckFlag);
    Go(s, w, AllGood, c, CheckFlag, s, CheckRow);
    Go(s, w, AllGood, c, CheckRow, s, MarkSeen);
    Go(s, w, AllGood, c, MarkSeen, s1, Done);
    Ended(s1, w, AllGood, c, Done);
  }

  lemma InHandElsewhere(s: State, w: nat, c: Copy)
    requires w < |s.workers| && c.parses && KeyOf(c) !in s.flags && c.event !in s.rows && KeyOf(c) in s.locks
    ensures Finish(Put(s, w, c, Received), w, AllGood) == Put(s, w, c, Skipping)
  {
    hide Finish;
    Go(s, w, AllGood, c, Received, s, CheckFlag);
    Go(s, w, AllGood, c, CheckFlag, s, CheckRow);
    Go(s, w, AllGood, c, CheckRow, s, Acquire);
    Go(s, w, AllGood, c, Acquire, s, Skipping);
    Ended(s, w, AllGood, c, Skipping);
  }

  lemma RecordsAndReleases(s: State, w: nat, c: Copy)
    requires w < |s.workers| && c.event !in s.rows
    ensures Finish(Put(s, w, c, Handle), w, AllGood) ==
            Put(s.(rows := s.rows + {c.event}, recorded := s.recorded + {c.event}, flags := s.flags + {KeyOf(c)},
                   handled := s.handled + [c.event], locks := s.locks - {KeyOf(c)}), w, c, Done)
  {
    hide Finish;
    var s2 := s.(handled := s.handled + [c.event]);
    var s3 := s2.(rows := s.rows + {c.event}, recorded := s.recorded + {c.event});
    var s4 := s3.(flags := s.flags + {KeyOf(c)});
    var s5 := s4.(locks := s.locks - {KeyOf(c)});
    Go(s, w, AllGood, c, Handle, s2, Insert);
    Go(s2, w, AllGood, c, Insert, s3, Mark);
    Go(s3, w, AllGood, c, Mark, s4, Release);
    Go(s4, w, AllGood, c, Release, s5, Done);
    Ended(s5, w, AllGood, c, Done);
  }

  lemma Ended(s: State, w: nat, io: Io, c: Copy, p: Phase)
    requires w < |s.workers| && ReadyToSettle(p)
    ensures Finish(Put(s, w, c, p), w, io) == Put(s, w, c, p)
  {
  }

  /** When the handler throws instead, the delivery leaves nothing behind and goes on to fail. */
  lemma ThrowingHandler(s: State, w: nat, c: Copy, io: Io)
    requires w < |s.workers| && c.parses && c.routingKey == USER_CREATED
    requires KeyOf(c) !in s.flags && KeyOf(c) !in s.locks && c.event !in s.rows
    requires io == AllGood.(handler := io.handler, send := io.send) && io.handler != Answered
    ensures Finish(Put(s, w, c, Received), w, io) == Put(s, w, c, Failing)
  {
    ReachesHandler(s, w, c, io);
    hide Finish;
    var s1 := s.(locks := s.locks[KeyOf(c) := w]);
    assert s1.locks - {KeyOf(c)} == s.locks;
    Go(s1, w, io, c, Handle, s1, FailRelease);
    Go(s1, w, io, c, FailRelease, s, Failing);
    Ended(s, w, io, c, Failing);
  }

  /** Delivery `w`, left alone with these answers, ends in an error. */
  ghost predicate Fails(s: State, w: nat, io: Io)
    requires IsBusy(s, w)
  {
    Finish(s, w, io).workers[w].phase == Failing
  }

  lemma UnansweredFails(s: State, w: nat, io: Io)
    requires IsBusy(s, w) && s.workers[w].phase == Received && io.isProcessed != Answered
    ensures Fails(s, w, io)
  {
    hide Finish;
    var c := s.workers[w].copy;
    assert s == Put(s, w, c, Received);
    Go(s, w, io, c, Received, s, if c.parses then CheckFlag else Failing);
    if c.parses { Go(s, w, io, c, CheckFlag, s, Failing); }
    Ended(s, w, io, c, Failing);
  }

  lemma LongerPrefix(a: seq<RawMessage>, b: seq<RawMessage>, c: seq<RawMessage>)
    requires a <= b <= c
    ensures a <= c
  {
  }

  lemma LongerBy(a: seq<RawMessage>, b: seq<RawMessage>, more: seq<RawMessage>)
    requires a != [] && a[1..] <= b
    ensures a[1..] <= b + more
    ensures more != [] ==> |a| <= |b + more| && (b + more)[|b + more| - 1] == more[|more| - 1]
  {
  }

  lemma SameEndOn(s: State, s': State, s'': State, w: nat, io: Io)
    requires SameEnd(s, s', w, io) && SameEnd(s', s'', w, io)
    ensures SameEnd(s, s'', w, io)
  {
  }

  lemma DropTwice(locks: map<Key, nat>, k: Key)
    ensures locks - {k} - {k} == locks - {k}
  {
  }

  lemma CopyOfReadable(m: RawMessage, e: Envelope)
    requires ParseMessage(m) == Some(e)
    ensures CopyOf(m).event == Event(e.eventId) && CopyOf(m).routingKey == e.routingKey
    ensures KeyOf(CopyOf(m)) == Key(e.routingKey, Event(e.eventId))
  {
  }

  /** The insert's step: the row is new unless it is there or the call failed. */
  lemma Inserted(cfg: Config, s: State, w: nat, c: Copy, io: Io)
    requires w < |s.workers| && s.workers[w] == Busy(c, Insert)
    ensures IsBusy(s, w) && CanDo(cfg, s, Advance(w, io.insert)) && Answer(io, c, Insert) == io.insert
    ensures var wrote := io.insert != Failed && c.event !in s.rows;
            AdvanceTo(s, w, io.insert) ==
            GoTo(if wrote then s.(rows := s.rows + {c.event}, recorded := s.recorded + {c.event}) else s, w,
                 if io.insert != Answered then FailRelease else if c.event in s.rows then DupMark else Mark)
  {
  }

  class RabbitmqConsumer {
    const cfg: Config
    const slots: nat
    var main: seq<RawMessage>
    var retry: seq<seq<RawMessage>>        // as sent; retry[i] is level i + 1
    var dlq: seq<RawMessage>               // as dead-lettered
    var unacked: seq<Option<RawMessage>>   // one slot per prefetched delivery
    var flags: set<Key>
    var locks: map<Key, nat>
    var rows: set<Event>
    ghost var phases: seq<Phase>
    ghost var entered: set<Event>
    ghost var recorded: set<Event>
    ghost var handled: seq<Event>
    ghost var sent: set<Envelope>          // what the messages that arrived say
    ghost var delivered: seq<Envelope>     // what the handlers were given, in order
    ghost var script: seq<Action>          // what has happened since the queues were declared

    ghost predicate Shape()
      reads `main, `retry, `dlq, `unacked, `phases, `sent
    {
      && cfg.queue != ""
      && |phases| == |unacked| == slots
      && |retry| == cfg.maxRetries
      && (forall i :: 0 <= i < |main| ==> Sound(cfg, sent, main[i]))
      && (forall i :: 0 <= i < |unacked| && unacked[i].Some? ==> Sound(cfg, sent, unacked[i].value))
      && (forall l, i :: 0 <= l < |retry| && 0 <= i < |retry[l]| ==> Sound(cfg, sent, Expired(cfg, retry[l][i])))
      && (forall i :: 0 <= i < |dlq| ==> Dead(cfg, sent, dlq[i]))
    }

    /** The handlers were given what arrived, and the log of handled events is the log of what they were given. */
    ghost predicate Logged()
      reads `handled, `delivered, `sent
    {
      handled == Events(delivered) && forall i :: 0 <= i < |delivered| ==> delivered[i] in sent && !Malformed(delivered[i])
    }

    ghost function View(): State
      reads `main, `retry, `dlq, `unacked, `flags, `locks, `rows, `phases, `entered, `recorded, `handled
      requires |phases| == |unacked|
    {
      State(Copies(main), Ladders(cfg, retry), Buried(cfg, dlq), Deliveries(unacked, phases),
            flags, locks, rows, entered, recorded, handled)
    }

    /** The consumer's state is where a run of the machine from empty queues has led. */
    ghost predicate Valid()
      reads this
    {
      Shape() && Logged() && Pipeline.Valid(cfg, Init(cfg, slots), script) && View() == Exec(cfg, Init(cfg, slots), script)
    }

    ghost predicate At(w: nat, p: Phase)
      reads this
    {
      w < |unacked| && |phases| == |unacked| && unacked[w].Some? && phases[w] == p
    }

    constructor (cfg: Config, slots: nat)
      requires cfg.queue != ""
      ensures Valid() && this.cfg == cfg && this.slots == slots && script == []
    {
      this.cfg, this.slots := cfg, slots;
      main, dlq := [], [];
      retry := seq(cfg.maxRetries, _ => []);
      unacked := seq(slots, _ => None);
      flags, locks, rows := {}, map[], {};
      phases := seq(slots, _ => Received);
      entered, recorded, handled, script := {}, {}, [], [];
      sent, delivered := {}, [];
      new;
      assert View() == Init(cfg, slots);
    }

    // ---------------------------------------------------------------- the broker

    static function Said(m: RawMessage): set<Envelope> {
      match ParseMessage(m)
      case Some(e) => {e}
      case None => {}
    }

    method Enqueue(m: RawMessage)
      requires Shape() && Sound(cfg, sent, m)
      modifies this`main
      ensures Shape() && main == old(main) + [m] && View() == old(View()).(main := old(View()).main + [CopyOf(m)])
    {
      hide Sound, Dead, CopyOf;
      ghost var before := View();
      main := main + [m];
      assert View().main == before.main + [CopyOf(m)];
    }

    method TakeDead() returns (d: RawMessage)
      requires Shape() && dlq != []
      modifies this`dlq
      ensures Shape() && d == old(dlq)[0] && dlq == old(dlq)[1..] && Dead(cfg, sent, d)
      ensures old(View()).dlq != [] && old(View()).dlq[0] == CopyOf(Republished(cfg, d))
      ensures View() == old(View()).(dlq := old(View()).dlq[1..])
    {
      hide Sound, Dead, CopyOf, Republished;
      ghost var before := View();
      d := dlq[0];
      dlq := dlq[1..];
      assert View().dlq == before.dlq[1..];
    }

    /** What the consumer was told grows. */
    ghost method Learn(more: set<Envelope>)
      requires Shape() && Logged()
      modifies this`sent
      ensures Shape() && Logged() && sent == old(sent) + more
    {
      MoreSent(cfg, sent, more);
      hide Sound, Dead;
      sent := sent + more;
    }

    lemma Holds()
      requires Valid()
      ensures Shape() && Logged() && |phases| == |unacked|
      ensures Pipeline.Valid(cfg, Init(cfg, slots), script) && View() == Exec(cfg, Init(cfg, slots), script)
    {
    }

    /** A message reaches the main queue from any publisher. */
    method Arrive(m: RawMessage)
      requires Valid() && Steady(cfg, m) && RetryCount(m) == 0
      modifies this`main, this`entered, this`sent, this`script
      ensures Valid() && main == old(main) + [m] && CopyOf(m).event in entered
      ensures sent == old(sent) + Said(m)
    {
      hide Valid, Shape, Logged, Sound, CopyOf, RetryCount, Said, Steady, ParseMessage, AdvanceTo, SettleTo, Exec,
        Pipeline.Valid, Copies, Ladders, Buried, Deliveries;
      NewcomerIsSound(m);
      Holds();
      ghost var before := View();
      Learn(Said(m));
      Enqueue(m);
      entered := entered + {CopyOf(m).event};
      script := Then(cfg, Init(cfg, slots), script, before, Action.Publish(CopyOf(m)), View());
      HoldsAgain();
    }

    lemma NewcomerIsSound(m: RawMessage)
      requires Steady(cfg, m) && RetryCount(m) == 0
      ensures Sound(cfg, sent + Said(m), m) && CopyOf(m).retries == 0
    {
    }

    lemma HoldsAgain()
      requires Shape() && Logged() && |phases| == |unacked|
      requires Pipeline.Valid(cfg, Init(cfg, slots), script) && View() == Exec(cfg, Init(cfg, slots), script)
      ensures Valid()
    {
    }

    /** `publish` under a fresh id: through the exchange if there is one, else straight to the queue. */
    method Publish(eventId: string, key: string, payload: Json)
      requires Valid() && eventId != "" && key != "" && IsObject(payload)
      modifies this`main, this`entered, this`sent, this`script
      ensures Valid()
      ensures main == old(main) + (if Routes(cfg, key) then [PublishedMessage(cfg, eventId, key, payload)] else [])
      ensures Routes(cfg, key) ==> Event(eventId) in entered
      ensures sent == old(sent) + if Routes(cfg, key) then {Envelope(eventId, key, Unwrapped(payload))} else {}
    {
      PublishedIsPinned(cfg, eventId, key, payload);
      hide Valid, Routes;
      if Routes(cfg, key) { Arrive(PublishedMessage(cfg, eventId, key, payload)); }
    }

    /** The message the outbox router makes of a row. */
    method Capture(m: RawMessage, row: OutboxRow)
      requires Valid() && FromOutbox(m, row) && row.id != "" && row.routingKey != "" && row.payload != Null
      requires (cfg.exchange.Some? || row.routingKey == cfg.queue) && RetryCount(m) == 0
      modifies this`main, this`entered, this`sent, this`script
      ensures Valid() && main == old(main) + [m] && Event(row.id) in entered
      ensures sent == old(sent) + {Envelope(row.id, row.routingKey, row.payload)}
    {
      OutboxRowComesBack(cfg, m, row);
      CdcIsPinned(cfg, m, m.body.payload.value);
      hide Valid, FromOutbox, Unwrapped;
      Arrive(m);
    }

    /** The broker pushes the head of the main queue into a free slot. */
    method Deliver(w: nat) returns (m: RawMessage)
      requires Valid() && w < slots && unacked[w].None? && main != []
      modifies this`main, this`unacked, this`phases, this`script
      ensures Valid() && m == old(main)[0] && main == old(main)[1..]
      ensures unacked == old(unacked)[w := Some(m)] && At(w, Received)
      ensures CanDo(cfg, old(View()), Action.Deliver(w)) && View() == Do(cfg, old(View()), Action.Deliver(w))
    {
      Holds();
      hide Shape, Logged, AdvanceTo, SettleTo, Exec, Pipeline.Valid, CopyOf, Copies, Ladders, Buried, Deliveries;
      ghost var before := View();
      m := Take(w);
      script := Then(cfg, Init(cfg, slots), script, before, Action.Deliver(w), View());
    }

    method Take(w: nat) returns (m: RawMessage)
      requires Shape() && w < slots && unacked[w].None? && main != []
      modifies this`main, this`unacked, this`phases
      ensures Shape() && m == old(main)[0] && main == old(main)[1..]
      ensures unacked == old(unacked)[w := Some(m)] && At(w, Received)
      ensures var s := old(View());
              && w < |s.workers| && s.workers[w].Idle? && s.main != [] && s.main[0] == CopyOf(m)
              && View() == s.(main := s.main[1..], workers := s.workers[w := Busy(CopyOf(m), Received)])
    {
      hide Sound, Dead, CopyOf;
      ghost var before := View();
      m := main[0];
      unacked, phases, main := unacked[w := Some(m)], phases[w := Received], main[1..];
      assert View().main == before.main[1..];
      assert View().workers == before.workers[w := Busy(CopyOf(m), Received)];
    }

    /** The head of retry queue `l + 1` has waited out its delay. */
    method RetryExpire(l: nat)
      requires Valid() && l < |retry| && retry[l] != []
      modifies this`main, this`retry, this`script
      ensures Valid() && retry == old(retry)[l := old(retry)[l][1..]]
      ensures main == if Routes(cfg, RetryQueue(cfg, l + 1)) then old(main) + [Expired(cfg, old(retry)[l][0])] else old(main)
    {
      hide Sound, Dead, Logged, CopyOf;
      ghost var before := View();
      var m := Expired(cfg, retry[l][0]);
      ghost var rest := retry[l][1..];
      retry := retry[l := retry[l][1..]];
      assert Waiting(cfg, rest) == before.retry[l][1..];
      assert View().retry == before.retry[l := before.retry[l][1..]];
      if Routes(cfg, RetryQueue(cfg, l + 1)) {
        main := main + [m];
        assert View().main == before.main + [before.retry[l][0]];
      }
      script := Then(cfg, Init(cfg, slots), script, before, Action.RetryExpire(l), View());
    }

    /** `republishOne`: get the head of the dead-letter queue, publish it again, ack it. */
    method RepublishOne() returns (key: Option<string>)
      requires Valid()
      modifies this`main, this`dlq, this`script
      ensures Valid()
      ensures old(dlq) == [] ==> key == None && main == old(main) && dlq == []
      ensures old(dlq) != [] ==>
                && key == Some(RepublishKey(old(dlq)[0])) && dlq == old(dlq)[1..]
                && main == (if Routes(cfg, key.value) then old(main) + [Republished(cfg, old(dlq)[0])] else old(main))
                && CanDo(cfg, old(View()), Action.Republish) && View() == Do(cfg, old(View()), Action.Republish)
    {
      if dlq == [] { return None; }
      Holds();
      hide Shape, Logged, Sound, CopyOf, RepublishKey, Republished, Steady, ParseMessage, AdvanceTo, SettleTo, Exec,
        Pipeline.Valid, Copies, Ladders, Buried, Deliveries;
      ghost var before := View();
      var m := TakeDead();
      key := Some(RepublishKey(m));
      assert Sound(cfg, sent, Republished(cfg, m));
      if Routes(cfg, key.value) { Enqueue(Republished(cfg, m)); }
      script := Then(cfg, Init(cfg, slots), script, before, Action.Republish, View());
    }

    /** `republishAll`: drains the dead-letter queue into the main queue, in order. */
    method RepublishAll() returns (count: nat)
      requires Valid()
      modifies this`main, this`dlq, this`script
      ensures Valid() && dlq == [] && count == |old(dlq)| && main == old(main) + Resent(cfg, old(dlq))
    {
      hide Valid, View, Do, Routes, Republished, RepublishKey;
      count := 0;
      while true
        invariant Valid() && count + |dlq| == |old(dlq)|
        invariant main + Resent(cfg, dlq) == old(main) + Resent(cfg, old(dlq))
        decreases |dlq|
      {
        var key := RepublishOne();
        if key.None? { break; }
        count := count + 1;
      }
    }

    /** Nothing that was ever accepted into the main queue has disappeared, as long as every expired or
        republished copy reached the main queue and no lock was left behind on an unrecorded event. */
    lemma NothingLost(e: Event)
      requires Valid() && e in entered
      requires AllRouted(cfg, Init(cfg, slots), script) && NoneOrphaned(cfg, Init(cfg, slots), script)
      ensures PipelineSafety.NotLost(View(), e)
    {
      PipelineSafety.NoEventLost(cfg, slots, script, e);
    }

    /** Whatever a handler was given is, id, key and payload, what some message said when it arrived, after
        however many retries and republishes; and every handled event stands for one such call. */
    lemma HandlersGetWhatWasSent(i: nat)
      requires Valid() && i < |delivered|
      ensures |handled| == |delivered| && handled[i] == Event(delivered[i].eventId)
      ensures delivered[i] in sent
      ensures delivered[i].routingKey == USER_CREATED ==> ReadUserCreated(delivered[i].payload).Some?
    {
    }

    // ---------------------------------------------------------------- one effect of one delivery

    /** Moves the program counter of slot `w`, after the effect `before -> now` of one step. */
    ghost method Next(w: nat, p: Phase, before: State, r: Reply, io: Io)
      requires Shape() && Logged() && w < slots && unacked[w].Some?
      requires Pipeline.Valid(cfg, Init(cfg, slots), script) && before == Exec(cfg, Init(cfg, slots), script)
      requires CanDo(cfg, before, Advance(w, r)) && GoTo(View(), w, p) == AdvanceTo(before, w, r)
      requires before.workers[w].copy == CopyOf(unacked[w].value)
      requires r == Answer(io, CopyOf(unacked[w].value), before.workers[w].phase)
      modifies this`phases, this`script
      ensures Valid() && At(w, p) && Moved(before, View(), w, r) && SameEnd(before, View(), w, io)
    {
      hide Sound, Dead, Logged, CopyOf, AdvanceTo, Copies, Ladders, Buried, Finish, Answer;
      DeliveriesMove(unacked, phases, w, p);
      phases := phases[w := p];
      FinishStep(before, w, io, CopyOf(unacked[w].value), before.workers[w].phase);
      script := Then(cfg, Init(cfg, slots), script, before, Advance(w, r), View());
    }

    lemma InPhase(w: nat, p: Phase)
      requires Valid() && At(w, p)
      ensures w < |unacked| == slots && unacked[w].Some?
      ensures w < |View().workers| && View().workers[w] == Busy(CopyOf(unacked[w].value), p)
    {
    }

    // IdempotencyService and the processed-events table; None stands for a thrown error.

    method IsProcessed(w: nat, k: Key, io: Io) returns (r: Option<bool>)
      requires Valid() && At(w, CheckFlag) && k == KeyOf(CopyOf(unacked[w].value))
      modifies this`phases, this`script
      ensures Valid() && r == if io.isProcessed == Answered then Some(k in flags) else None
      ensures At(w, if r.None? then Failing else if r.value then Done else CheckRow)
      ensures Moved(old(View()), View(), w, io.isProcessed) && SameEnd(old(View()), View(), w, io)
    {
      hide Sound, Dead, Logged, CopyOf, Finish;
      r := if io.isProcessed == Answered then Some(k in flags) else None;
      Next(w, if r.None? then Failing else if r.value then Done else CheckRow, View(), io.isProcessed, io);
    }

    method FindRow(w: nat, e: Event, io: Io) returns (r: Option<bool>)
      requires Valid() && At(w, CheckRow) && e == CopyOf(unacked[w].value).event
      modifies this`phases, this`script
      ensures Valid() && r == if io.findRow == Answered then Some(e in rows) else None
      ensures At(w, if r.None? then Failing else if r.value then MarkSeen else Acquire)
      ensures Moved(old(View()), View(), w, io.findRow) && SameEnd(old(View()), View(), w, io)
    {
      hide Sound, Dead, Logged, CopyOf, Finish;
      r := if io.findRow == Answered then Some(e in rows) else None;
      Next(w, if r.None? then Failing else if r.value then MarkSeen else Acquire, View(), io.findRow, io);
    }

    /** Where a delivery goes after setting the Redis flag. */
    ghost function AfterMark(from: Phase, ok: bool): Phase {
      if from == MarkSeen then (if ok then Done else Failing)
      else if !ok then FailRelease
      else if from == Mark then Release
      else DupRelease
    }

    /** `set`: the flag is in Redis unless the call failed, whether or not its answer arrived. */
    method MarkFlag(w: nat, k: Key, reply: Reply, ghost from: Phase, ghost io: Io) returns (r: bool)
      requires Valid() && At(w, from) && k == KeyOf(CopyOf(unacked[w].value))
      requires from == MarkSeen || from == Mark || from == DupMark
      requires reply == Answer(io, CopyOf(unacked[w].value), from)
      modifies this`phases, this`flags, this`script
      ensures Valid() && r == (reply == Answered) && flags == if reply == Failed then old(flags) else old(flags) + {k}
      ensures At(w, AfterMark(from, r))
      ensures Moved(old(View()), View(), w, reply) && SameEnd(old(View()), View(), w, io)
    {
      hide Sound, Dead, Logged, CopyOf, Finish, Answer;
      ghost var before := View();
      r := reply == Answered;
      if reply != Failed { flags := flags + {k}; }
      Next(w, AfterMark(from, r), before, reply, io);
    }

    /** SET NX: a free lock is set unless the call failed; the caller knows only if it is told. */
    method AcquireLock(w: nat, k: Key, io: Io) returns (r: Option<bool>)
      requires Valid() && At(w, Acquire) && k == KeyOf(CopyOf(unacked[w].value))
      modifies this`phases, this`locks, this`script
      ensures Valid() && r == if io.acquire == Answered then Some(k !in old(locks)) else None
      ensures locks == if io.acquire != Failed && k !in old(locks) then old(locks)[k := w] else old(locks)
      ensures At(w, if r.None? then Failing else if r.value then Handle else Skipping)
      ensures Moved(old(View()), View(), w, io.acquire) && SameEnd(old(View()), View(), w, io)
    {
      hide Sound, Dead, Logged, CopyOf, Finish;
      ghost var before := View();
      r := if io.acquire == Answered then Some(k !in locks) else None;
      if io.acquire != Failed && k !in locks { locks := locks[k := w]; }
      Next(w, if r.None? then Failing else if r.value then Handle else Skipping, before, io.acquire, io);
    }

    ghost predicate Releases(p: Phase) { p == Release || p == DupRelease || p == DupReleaseAgain || p == FailRelease }

    /** Where a delivery goes after a delete of its lock. */
    ghost function AfterRelease(from: Phase, ok: bool): Phase {
      if from == FailRelease then Failing
      else if from == DupReleaseAgain then (if ok then Done else Failing)
      else if !ok then FailRelease
      else if from == DupRelease then DupReleaseAgain
      else Done
    }

    method ReleaseLock(w: nat, k: Key, reply: Reply, ghost from: Phase, ghost io: Io) returns (r: bool)
      requires Valid() && At(w, from) && Releases(from) && k == KeyOf(CopyOf(unacked[w].value))
      requires reply == Answer(io, CopyOf(unacked[w].value), from)
      modifies this`phases, this`locks, this`script
      ensures Valid() && r == (reply == Answered) && locks == if reply == Failed then old(locks) else old(locks) - {k}
      ensures At(w, AfterRelease(from, r))
      ensures Moved(old(View()), View(), w, reply) && SameEnd(old(View()), View(), w, io)
    {
      hide Sound, Dead, Logged, CopyOf, Finish, Answer;
      ghost var before := View();
      r := reply == Answered;
      if reply != Failed { locks := locks - {k}; }
      Next(w, AfterRelease(from, r), before, reply, io);
    }

    ghost method Log(e: Envelope)
      requires Logged() && e in sent && !Malformed(e)
      modifies this`handled, this`delivered
      ensures Logged() && handled == old(handled) + [Event(e.eventId)] && delivered == old(delivered) + [e]
    {
      handled, delivered := handled + [Event(e.eventId)], delivered + [e];
    }

    /** The handler registered for the key; an unknown key only logs a warning. */
    method RunHandler(w: nat, e: Envelope, io: Io) returns (r: bool)
      requires Valid() && At(w, Handle) && ParseMessage(unacked[w].value) == Some(e) && Heard(io, Some(e)) == io
      modifies this`phases, this`handled, this`delivered, this`script
      ensures Valid() && r == (io.handler == Answered || e.routingKey != USER_CREATED)
      ensures At(w, if r then Insert else FailRelease)
      ensures handled == if r then old(handled) + [Event(e.eventId)] else old(handled)
      ensures delivered == if r then old(delivered) + [e] else old(delivered)
      ensures SameEnd(old(View()), View(), w, io)
    {
      CopyOfReadable(unacked[w].value, e);
      assert e in sent by { assert Sound(cfg, sent, unacked[w].value); }
      Holds();
      InPhase(w, Handle);
      hide Valid, Shape, Logged, CopyOf, Finish, Copies, Ladders, Buried, Deliveries, ParseMessage;
      ghost var before := View();
      ghost var reply := if e.routingKey == USER_CREATED then io.handler else Answered;
      r := true;
      if e.routingKey == USER_CREATED { r := ReadUserCreated(e.payload).Some? && io.handler == Answered; }
      if r { Log(e); }
      Next(w, if r then Insert else FailRelease, before, reply, io);
    }

    /** `processedEvent.create`: None is an error, Some(false) the unique violation. */
    method InsertRow(w: nat, e: Event, io: Io) returns (r: Option<bool>)
      requires Valid() && At(w, Insert) && e == CopyOf(unacked[w].value).event
      modifies this`phases, this`rows, this`recorded, this`script
      ensures Valid() && r == if io.insert == Answered then Some(e !in old(rows)) else None
      ensures rows == if io.insert == Failed then old(rows) else old(rows) + {e}
      ensures At(w, if r.None? then FailRelease else if r.value then Mark else DupMark)
      ensures Moved(old(View()), View(), w, io.insert) && SameEnd(old(View()), View(), w, io)
    {
      hide *;
      Holds();
      InPhase(w, Insert);
      Tables();
      ghost var before := View();
      Inserted(cfg, before, w, CopyOf(unacked[w].value), io);
      r := if io.insert == Answered then Some(e !in rows) else None;
      if io.insert != Failed && e !in rows { Record(e); }
      Next(w, if r.None? then FailRelease else if r.value then Mark else DupMark, before, io.insert, io);
    }

    lemma Tables()
      requires |phases| == |unacked|
      ensures View().rows == rows && View().recorded == recorded
    {
    }

    method Record(e: Event)
      requires |phases| == |unacked|
      modifies this`rows, this`recorded
      ensures rows == old(rows) + {e}
      ensures View() == old(View()).(rows := old(rows) + {e}, recorded := old(recorded) + {e})
    {
      rows, recorded := rows + {e}, recorded + {e};
    }

    // ---------------------------------------------------------------- dispatch and markProcessed

    lemma Sized()
      requires Valid()
      ensures |phases| == |unacked|
    {
    }

    lemma Marking(io: Io, c: Copy)
      ensures Answer(io, c, MarkSeen) == io.markSeen
      ensures AfterMark(MarkSeen, true) == Done && AfterMark(MarkSeen, false) == Failing
    {
    }

    /** Whatever the calls answer, what happens is what the machine does with these answers. */
    method Dispatch(w: nat, e: Envelope, io: Io) returns (v: Verdict)
      requires Valid() && At(w, CheckFlag) && ParseMessage(unacked[w].value) == Some(e) && Heard(io, Some(e)) == io
      modifies this`phases, this`flags, this`locks, this`rows, this`recorded, this`handled, this`delivered, this`script
      ensures Valid() && SameEnd(old(View()), View(), w, io)
      ensures v == Returned ==> At(w, Done)
      ensures v == Skipped ==> At(w, Done) || At(w, Skipping)
      ensures v == Thrown ==> At(w, Failing)
    {
      hide *;
      InPhase(w, CheckFlag);
      CopyOfReadable(unacked[w].value, e);
      Marking(io, CopyOf(unacked[w].value));
      var k, id := Key(e.routingKey, Event(e.eventId)), Event(e.eventId);
      Sized();
      ghost var before := View();
      var seen := IsProcessed(w, k, io);
      Sized();
      ghost var here := View();
      if seen.None? { return Thrown; }
      if seen.value { return Returned; }

      var row := FindRow(w, id, io);
      Sized();
      SameEndOn(before, here, View(), w, io);
      here := View();
      if row.None? { return Thrown; }
      if row.value {
        var marked := MarkFlag(w, k, io.markSeen, MarkSeen, io);
        Sized();
        SameEndOn(before, here, View(), w, io);
        return if marked then Returned else Thrown;
      }
      v := LockAndHandle(w, e, io);
      Sized();
      SameEndOn(before, here, View(), w, io);
    }

    /** `dispatch` from the lock attempt on. */
    method LockAndHandle(w: nat, e: Envelope, io: Io) returns (v: Verdict)
      requires Valid() && At(w, Acquire) && ParseMessage(unacked[w].value) == Some(e) && Heard(io, Some(e)) == io
      modifies this`phases, this`flags, this`locks, this`rows, this`recorded, this`handled, this`delivered, this`script
      ensures Valid() && SameEnd(old(View()), View(), w, io)
      ensures v == Returned ==> At(w, Done)
      ensures v == Skipped ==> At(w, Done) || At(w, Skipping)
      ensures v == Thrown ==> At(w, Failing)
    {
      CopyOfReadable(unacked[w].value, e);
      hide Valid, View, Finish, Moved, CopyOf, ParseMessage, Heard, SameEnd, IsBusy;
      ghost var before := View();
      var acquired := AcquireLock(w, Key(e.routingKey, Event(e.eventId)), io);
      if acquired.None? { return Thrown; }
      if !acquired.value { return Skipped; }
      ghost var locked := View();
      v := HandleLocked(w, e, io);
      SameEndOn(before, locked, View(), w, io);
    }

    /** The part of `dispatch` that holds the lock: however it ends, the lock is deleted, unless it ends in
        an error and the last delete failed. */
    method HandleLocked(w: nat, e: Envelope, io: Io) returns (v: Verdict)
      requires Valid() && At(w, Handle) && ParseMessage(unacked[w].value) == Some(e) && Heard(io, Some(e)) == io
      modifies this`phases, this`flags, this`locks, this`rows, this`recorded, this`handled, this`delivered, this`script
      ensures Valid() && SameEnd(old(View()), View(), w, io)
      ensures At(w, if v == Thrown then Failing else Done)
      ensures var k := Key(e.routingKey, Event(e.eventId));
              || locks == old(locks) - {k}
              || (v == Thrown && io.failRelease == Failed && locks == old(locks))
    {
      hide *;
      InPhase(w, Handle);
      CopyOfReadable(unacked[w].value, e);
      var k := Key(e.routingKey, Event(e.eventId));
      Sized();
      ghost var before := View();
      DropTwice(locks, k);
      v := HandleAndMark(w, e, io);
      if v != Returned { v := Caught(w, k, v, before, io); }
    }

    /** The `catch` of `dispatch`: release the lock, then throw the error again. */
    method Caught(w: nat, k: Key, error: Verdict, ghost before: State, io: Io) returns (v: Verdict)
      requires Valid() && error != Returned && At(w, if error == Skipped then DupReleaseAgain else FailRelease)
      requires k == KeyOf(CopyOf(unacked[w].value)) && SameEnd(before, View(), w, io)
      modifies this`phases, this`locks, this`script
      ensures Valid() && SameEnd(before, View(), w, io) && v != Returned
      ensures At(w, if v == Thrown then Failing else Done)
      ensures var reply := if error == Skipped then io.dupReleaseAgain else io.failRelease;
              && locks == (if reply == Failed then old(locks) else old(locks) - {k})
              && (v == Skipped <==> error == Skipped && reply == Answered)
    {
      hide Valid, View, Finish, Moved, CopyOf, SameEnd, IsBusy;
      ghost var caught := View();
      var released := ReleaseLock(w, k, if error == Skipped then io.dupReleaseAgain else io.failRelease,
                                  if error == Skipped then DupReleaseAgain else FailRelease, io);
      SameEndOn(before, caught, View(), w, io);
      v := if released then error else Thrown;
    }

    /** The guarded statements: the handler, then the record. */
    method HandleAndMark(w: nat, e: Envelope, io: Io) returns (v: Verdict)
      requires Valid() && At(w, Handle) && ParseMessage(unacked[w].value) == Some(e) && Heard(io, Some(e)) == io
      modifies this`phases, this`flags, this`locks, this`rows, this`recorded, this`handled, this`delivered, this`script
      ensures Valid() && SameEnd(old(View()), View(), w, io)
      ensures At(w, if v == Returned then Done else if v == Skipped then DupReleaseAgain else FailRelease)
      ensures locks == old(locks) - {Key(e.routingKey, Event(e.eventId))} || (v == Thrown && locks == old(locks))
    {
      hide Valid, View, Finish, Moved, CopyOf, ParseMessage, Heard, SameEnd, IsBusy;
      ghost var before := View();
      var ran := RunHandler(w, e, io);
      if !ran { return Thrown; }
      ghost var done := View();
      v := MarkProcessed(w, e, io);
      SameEndOn(before, done, View(), w, io);
    }

    method MarkProcessed(w: nat, e: Envelope, io: Io) returns (v: Verdict)
      requires Valid() && At(w, Insert) && ParseMessage(unacked[w].value) == Some(e)
      modifies this`phases, this`flags, this`locks, this`rows, this`recorded, this`script
      ensures Valid() && SameEnd(old(View()), View(), w, io)
      ensures At(w, if v == Returned then Done else if v == Skipped then DupReleaseAgain else FailRelease)
      ensures v == Skipped ==> Event(e.eventId) in old(rows)
      ensures v != Thrown ==> Event(e.eventId) in rows && Key(e.routingKey, Event(e.eventId)) in flags
      ensures locks == old(locks) - {Key(e.routingKey, Event(e.eventId))} || (v == Thrown && locks == old(locks))
    {
      hide *;
      InPhase(w, Insert);
      CopyOfReadable(unacked[w].value, e);
      var k, id := Key(e.routingKey, Event(e.eventId)), Event(e.eventId);
      Sized();
      ghost var before := View();
      var created := InsertRow(w, id, io);
      Sized();
      ghost var inserted := View();
      if created.None? { return Thrown; }
      if !created.value {
        v := SkipDuplicate(w, k, io);
        Sized();
        SameEndOn(before, inserted, View(), w, io);
        return;
      }
      v := FlagAndRelease(w, k, Mark, io.mark, io.release, io);
      Sized();
      SameEndOn(before, inserted, View(), w, io);
    }

    /** The unique violation: somebody else recorded the event. */
    method SkipDuplicate(w: nat, k: Key, io: Io) returns (v: Verdict)
      requires Valid() && At(w, DupMark) && k == KeyOf(CopyOf(unacked[w].value))
      modifies this`phases, this`flags, this`locks, this`script
      ensures Valid() && SameEnd(old(View()), View(), w, io)
      ensures if v == Skipped then At(w, DupReleaseAgain) && k in flags && locks == old(locks) - {k}
              else v == Thrown && At(w, FailRelease) && (locks == old(locks) || locks == old(locks) - {k})
    {
      hide Valid, View, Finish, Moved, CopyOf;
      v := FlagAndRelease(w, k, DupMark, io.dupMark, io.dupRelease, io);
      if v == Returned { v := Skipped; }
    }

    /** Flag, then release: what both ends of `markProcessed` do. */
    method FlagAndRelease(w: nat, k: Key, ghost from: Phase, mark: Reply, release: Reply, io: Io) returns (v: Verdict)
      requires Valid() && At(w, from) && k == KeyOf(CopyOf(unacked[w].value))
      requires || (from == Mark && mark == io.mark && release == io.release)
               || (from == DupMark && mark == io.dupMark && release == io.dupRelease)
      modifies this`phases, this`flags, this`locks, this`script
      ensures Valid() && SameEnd(old(View()), View(), w, io)
      ensures if v == Returned then
                At(w, if from == Mark then Done else DupReleaseAgain) && k in flags && locks == old(locks) - {k}
              else
                v == Thrown && At(w, FailRelease) && (locks == old(locks) || locks == old(locks) - {k})
    {
      hide Valid, View, Finish, Moved, CopyOf;
      var marked := MarkFlag(w, k, mark, from, io);
      if !marked { return Thrown; }
      var released := ReleaseLock(w, k, release, if from == Mark then Release else DupRelease, io);
      return if released then Returned else Thrown;
    }

    // ---------------------------------------------------------------- handleMessage

    method Ack(w: nat, ghost from: Phase, ghost send: Send)
      requires Valid() && At(w, from) && (from == Done || from == Skipping)
      modifies this`unacked, this`script
      ensures Valid() && unacked == old(unacked)[w := None] && Settles(cfg, old(View()), View(), w, send)
    {
      hide Sound, Dead, Logged, CopyOf;
      ghost var before := View();
      DeliveriesFree(unacked, phases, w);
      unacked := unacked[w := None];
      Settled(w, send, before);
    }

    lemma Before(w: nat)
      requires Valid() && At(w, Failing)
      ensures Shape() && Logged() && |phases| == |unacked|
      ensures Pipeline.Valid(cfg, Init(cfg, slots), script) && View() == Exec(cfg, Init(cfg, slots), script)
      ensures IsBusy(View(), w) && View().workers[w].phase == Failing
    {
    }

    lemma Settling(s: State, w: nat, send: Send)
      requires IsBusy(s, w) && s.workers[w].phase == Failing
      ensures CanDo(cfg, s, Settle(w, send)) && Settles(cfg, s, SettleTo(cfg, s, w, send), w, send)
    {
    }

    /** The failure branch: one more retry, or the dead-letter queue; a refused send may have queued
        the retry copy all the same. */
    method Fail(w: nat, send: Send)
      requires Valid() && At(w, Failing)
      modifies this`unacked, this`retry, this`dlq, this`script
      ensures Valid() && PutAway(w, send) && Settles(cfg, old(View()), View(), w, send)
    {
      Before(w);
      hide *;
      ghost var before := View();
      Settling(before, w, send);
      Requeue(w, send);
      Settled(w, send, before);
    }

    /** Adds the settling of slot `w` to the script, once its effect `before -> now` has been made. */
    ghost method Settled(w: nat, send: Send, before: State)
      requires Shape() && Logged() && Pipeline.Valid(cfg, Init(cfg, slots), script)
      requires before == Exec(cfg, Init(cfg, slots), script)
      requires CanDo(cfg, before, Settle(w, send)) && View() == SettleTo(cfg, before, w, send)
      modifies this`script
      ensures Valid()
    {
      script := Then(cfg, Init(cfg, slots), script, before, Settle(w, send), View());
    }

    method Requeue(w: nat, send: Send)
      requires Shape() && At(w, Failing) && IsBusy(View(), w) && View().workers[w].phase == Failing
      modifies this`unacked, this`retry, this`dlq
      ensures Shape() && PutAway(w, send) && View() == SettleTo(cfg, old(View()), w, send)
    {
      InHand(w);
      hide View, Shape, CopyOf, Steady, Travel, Retried, DeadLettered, RetryCount;
      var m := unacked[w].value;
      FreeSlot(w);
      SendOn(m, send);
    }

    method SendOn(m: RawMessage, send: Send)
      requires Shape() && Sound(cfg, sent, m) && cfg.queue != ""
      requires CopyOf(m).retries == RetryCount(m) && |View().retry| == cfg.maxRetries
      modifies this`retry, this`dlq
      ensures Shape() && View() == Forward(cfg, old(View()), CopyOf(m), send)
      ensures retry == (if RetryCount(m) < cfg.maxRetries && send != Refused then
                          old(retry)[RetryCount(m) := old(retry)[RetryCount(m)] + [Retried(cfg, m)]]
                        else old(retry))
      ensures dlq == (if RetryCount(m) < cfg.maxRetries && send == Sent then old(dlq) else old(dlq) + [DeadLettered(cfg, m)])
    {
      hide View, Shape, CopyOf, Steady, Travel, Retried, DeadLettered, RetryCount;
      SteadyTravel(cfg, m, ViaRetry);
      var last := RetryCount(m) >= cfg.maxRetries;
      if !last && send != Refused { SendToRetryQueue(m); }
      if last || send != Sent { DeadLetter(m); }
    }

    lemma InHand(w: nat)
      requires Shape() && w < slots && unacked[w].Some?
      ensures View().workers == Deliveries(unacked, phases) && |View().retry| == cfg.maxRetries
      ensures Sound(cfg, sent, unacked[w].value) && cfg.queue != ""
      ensures CopyOf(unacked[w].value).retries == RetryCount(unacked[w].value)
    {
    }

    method FreeSlot(w: nat)
      requires Shape() && w < |unacked| && |phases| == |unacked| && unacked[w].Some?
      modifies this`unacked
      ensures Shape() && unacked == old(unacked)[w := None] && View() == Free(old(View()), w)
    {
      DeliveriesFree(unacked, phases, w);
      unacked := unacked[w := None];
    }

    /** What the failure branch leaves: the raw retry and dead-letter copies. */
    twostate predicate PutAway(w: nat, send: Send)
      requires w < old(|unacked|) && old(unacked[w]).Some? && |old(retry)| == cfg.maxRetries
      reads this
    {
      var m := old(unacked[w].value);
      var n := RetryCount(m);
      && unacked == old(unacked)[w := None]
      && retry == (if n < cfg.maxRetries && send != Refused then old(retry)[n := old(retry)[n] + [Retried(cfg, m)]]
                   else old(retry))
      && dlq == (if n < cfg.maxRetries && send == Sent then old(dlq) else old(dlq) + [DeadLettered(cfg, m)])
    }

    method SendToRetryQueue(m: RawMessage)
      requires Shape() && Sound(cfg, sent, m) && Sound(cfg, sent, Travel(cfg, m, ViaRetry)) && RetryCount(m) < cfg.maxRetries
      modifies this`retry
      ensures Shape() && retry == old(retry)[RetryCount(m) := old(retry)[RetryCount(m)] + [Retried(cfg, m)]]
      ensures var q := old(View()).retry;
              View() == old(View()).(retry := q[RetryCount(m) := q[RetryCount(m)] + [CopyOf(Travel(cfg, m, ViaRetry))]])
    {
      LaddersAppendIf(m);
      retry := retry[RetryCount(m) := retry[RetryCount(m)] + [Retried(cfg, m)]];
    }

    method DeadLetter(m: RawMessage)
      requires Shape() && Sound(cfg, sent, m)
      modifies this`dlq
      ensures Shape() && dlq == old(dlq) + [DeadLettered(cfg, m)]
      ensures View() == old(View()).(dlq := old(View()).dlq + [CopyOf(m)])
    {
      SteadyTravel(cfg, m, ViaDeadLetter);
      BuriedAppend(cfg, dlq, DeadLettered(cfg, m));
      dlq := dlq + [DeadLettered(cfg, m)];
    }

    lemma LaddersAppendIf(m: RawMessage)
      requires |retry| == cfg.maxRetries
      ensures RetryCount(m) < cfg.maxRetries ==>
                Ladders(cfg, retry[RetryCount(m) := retry[RetryCount(m)] + [Retried(cfg, m)]]) ==
                Ladders(cfg, retry)[RetryCount(m) := Ladders(cfg, retry)[RetryCount(m)] + [CopyOf(Expired(cfg, Retried(cfg, m)))]]
    {
      if RetryCount(m) < cfg.maxRetries { LaddersAppend(cfg, retry, RetryCount(m), Retried(cfg, m)); }
    }

    /** One delivery from parse to ack, retry or dead letter: the machine's steps for these answers,
        settled as `sendToQueue` answers. */
    method HandleMessage(w: nat, io: Io)
      requires Valid() && At(w, Received)
      modifies this`unacked, this`retry, this`dlq, this`phases, this`flags, this`locks, this`rows,
               this`recorded, this`handled, this`delivered, this`script
      ensures Valid() && unacked == old(unacked)[w := None] && old(dlq) <= dlq
      ensures var heard := Heard(io, ParseMessage(old(unacked[w].value)));
              && Carried(old(View()), View(), w, heard)
              && (if Finish(old(View()), w, heard).workers[w].phase == Failing then PutAway(w, io.send)
                  else retry == old(retry) && dlq == old(dlq))
    {
      hide Valid, View, Finish, Moved, SettleTo, CopyOf, ParseMessage, Malformed;
      ghost var before := View();
      var parsed := Parse(w, Heard(io, ParseMessage(unacked[w].value)));
      var heard := Heard(io, parsed);
      var verdict := Thrown;
      if parsed.Some? { verdict := Dispatch(w, parsed.value, heard); }
      ghost var p := phases[w];
      InPhase(w, p);
      FinishEnd(View(), w, heard, before);
      if verdict == Thrown { Fail(w, io.send); } else { Ack(w, p, io.send); }
    }

    /** The answers as the delivery of the republished dead letter hears them. */
    ghost function Told(io: Io, d: RawMessage): Io { Heard(io, ParseMessage(Republished(cfg, d))) }

    lemma ToldKeeps(io: Io, d: RawMessage)
      ensures Told(io, d).isProcessed == io.isProcessed && Told(io, d).send == io.send
    {
    }

    /** Draining cannot rescue a message whose retries are used up. It is republished behind whatever waits
        in the main queue, and one slot handles all that. If its own delivery fails (`found` is the state it
        starts in), it is at the end of the dead-letter queue again, the same copy under the same key and
        with the same count, and otherwise it is gone from it; no retry queue changes. */
    method ExhaustedCopyReturns(w: nat, ios: seq<Io>, io: Io) returns (ghost found: State)
      requires Valid() && w < slots && unacked[w].None? && dlq != [] && |ios| == |main|
      requires Routes(cfg, RepublishKey(dlq[0])) && RetryCount(dlq[0]) >= cfg.maxRetries
      modifies this`main, this`unacked, this`retry, this`dlq, this`phases, this`flags, this`locks, this`rows,
               this`recorded, this`handled, this`delivered, this`script
      ensures Valid() && main == [] && unacked == old(unacked) && View().retry == found.retry
      ensures w < |found.workers| && found.workers[w] == Busy(CopyOf(Republished(cfg, old(dlq[0]))), Received)
      ensures old(dlq)[1..] <= dlq
      ensures View().dlq == found.dlq + if Fails(found, w, Told(io, old(dlq[0]))) then [found.workers[w].copy] else []
      ensures Fails(found, w, Told(io, old(dlq[0]))) ==>
                0 < |old(dlq)| <= |dlq| && dlq[|dlq| - 1] == DeadLettered(cfg, Republished(cfg, old(dlq[0])))
      ensures io.isProcessed != Answered ==> Fails(found, w, Told(io, old(dlq[0])))
    {
      hide *;
      assert w < |unacked| by { Grave(); }
      ghost var d := dlq[0];
      found := BringBack(w, ios);
      ghost var was := dlq;
      Resettle(w, d, io);
      LongerBy(old(dlq), was, if Fails(found, w, Told(io, d)) then [DeadLettered(cfg, Republished(cfg, d))] else []);
      ToldKeeps(io, d);
      if io.isProcessed != Answered { UnansweredFails(found, w, Told(io, d)); }
    }

    /** The head of the dead-letter queue is republished, and delivered after what was waiting before it. */
    method BringBack(w: nat, ios: seq<Io>) returns (ghost found: State)
      requires Valid() && w < slots && unacked[w].None? && dlq != [] && |ios| == |main|
      requires Routes(cfg, RepublishKey(dlq[0]))
      modifies this`main, this`unacked, this`retry, this`dlq, this`phases, this`flags, this`locks, this`rows,
               this`recorded, this`handled, this`delivered, this`script
      ensures Valid() && main == [] && At(w, Received) && old(dlq)[1..] <= dlq && Exhumable(cfg, old(dlq[0]))
      ensures unacked == old(unacked)[w := Some(Republished(cfg, old(dlq[0])))]
      ensures found == View() && IsBusy(found, w) && w < |found.workers|
      ensures found.workers[w] == Busy(CopyOf(Republished(cfg, old(dlq[0]))), Received)
    {
      assert Exhumable(cfg, dlq[0]) by { Grave(); }
      hide Valid, View, CopyOf, Republished, RepublishKey, Routes, Do, CanDo, Shape, Exhumable, ParseMessage;
      ghost var d := dlq[0];
      var key := RepublishOne();
      HandleWaiting(w, ios, d);
      var m := Deliver(w);
      InPhase(w, Received);
      found := View();
    }

    /** One slot handles everything in the main queue but the last message. */
    method HandleWaiting(w: nat, ios: seq<Io>, ghost d: RawMessage)
      requires Valid() && w < slots && unacked[w].None?
      requires |main| == |ios| + 1 && main[|ios|] == Republished(cfg, d)
      modifies this`main, this`unacked, this`retry, this`dlq, this`phases, this`flags, this`locks, this`rows,
               this`recorded, this`handled, this`delivered, this`script
      ensures Valid() && main == [Republished(cfg, d)] && unacked == old(unacked) && old(dlq) <= dlq
    {
      hide Valid, View, Republished;
      for i := 0 to |ios|
        invariant Valid() && main == old(main)[i..] && unacked == old(unacked) && old(dlq) <= dlq
      {
        ghost var was := dlq;
        HandleNext(w, ios[i]);
        LongerPrefix(old(dlq), was, dlq);
      }
    }

    /** One delivery to a free slot, from the push to its end. */
    method HandleNext(w: nat, io: Io)
      requires Valid() && w < slots && unacked[w].None? && main != []
      modifies this`main, this`unacked, this`retry, this`dlq, this`phases, this`flags, this`locks, this`rows,
               this`recorded, this`handled, this`delivered, this`script
      ensures Valid() && main == old(main)[1..] && unacked == old(unacked) && old(dlq) <= dlq
    {
      Grave();
      hide Valid, View, Finish, CopyOf, DeadLettered, Retried, RetryCount, Do, CanDo, Carried, Shape, Exhumable,
        ParseMessage, Heard, PutAway;
      var m := Deliver(w);
      HandleMessage(w, io);
      assert unacked == old(unacked);
    }

    lemma Grave()
      requires Valid()
      ensures cfg.queue != "" && View().dlq == Buried(cfg, dlq) && View().retry == Ladders(cfg, retry)
      ensures |View().workers| == |unacked| == slots && |retry| == cfg.maxRetries
      ensures forall i :: 0 <= i < |dlq| ==> Exhumable(cfg, dlq[i])
    {
    }

    method Resettle(w: nat, ghost d: RawMessage, io: Io)
      requires Valid() && At(w, Received) && unacked[w] == Some(Republished(cfg, d)) && IsBusy(View(), w)
      requires Exhumable(cfg, d) && RetryCount(d) >= cfg.maxRetries
      modifies this`unacked, this`retry, this`dlq, this`phases, this`flags, this`locks, this`rows,
               this`recorded, this`handled, this`delivered, this`script
      ensures Valid() && unacked == old(unacked)[w := None] && View().retry == old(View()).retry
      ensures dlq == old(dlq) + if Fails(old(View()), w, Told(io, d)) then [DeadLettered(cfg, Republished(cfg, d))] else []
      ensures View().dlq == old(View()).dlq + if Fails(old(View()), w, Told(io, d)) then [CopyOf(Republished(cfg, d))] else []
    {
      Grave();
      BuriedAgain(cfg, d, dlq);
      hide Valid, ParseMessage, Malformed, View, Finish, SettleTo, CopyOf, Routes, Steady, Exhumable, Shape, DeadLettered,
        Republished, RetryCount, Buried, Ladders;
      HandleMessage(w, io);
      Grave();
    }

    lemma FinishEnd(s: State, w: nat, io: Io, before: State)
      requires IsBusy(s, w) && IsBusy(before, w) && ReadyToSettle(s.workers[w].phase)
      requires Finish(s, w, io) == Finish(before, w, io)
      ensures s == Finish(before, w, io)
    {
    }

    /** The machine, left alone with delivery `w`, goes from `s` to `s'`. */
    ghost predicate Carried(s: State, s': State, w: nat, io: Io) {
      && IsBusy(s, w)
      && var done := Finish(s, w, io);
         && IsBusy(done, w) && ReadyToSettle(done.workers[w].phase)
         && s' == SettleTo(cfg, done, w, io.send)
    }

    method Parse(w: nat, ghost io: Io) returns (e: Option<Envelope>)
      requires Valid() && At(w, Received)
      modifies this`phases, this`script
      ensures Valid() && e == ParseMessage(unacked[w].value) && At(w, if e.Some? then CheckFlag else Failing)
      ensures Moved(old(View()), View(), w, Answered) && SameEnd(old(View()), View(), w, io)
    {
      hide Finish;
      ghost var before := View();
      e := ParseMessage(unacked[w].value);
      Next(w, if e.Some? then CheckFlag else Failing, before, Answered, io);
    }
  }
}
