/** Message bodies, their identity, and what the retry and dead-letter paths do to them.
    An absent text field is the empty string, because the source reads every field with `||`;
    the `x-original-routing-key` header alone is also read with `??`, so it is an option. */
module Messages {
  import opened Common
  import opened Topology

  /** A JSON value; a text carries what `JSON.parse` makes of it, if it is JSON itself. */
  datatype Json =
    | Null
    | Scalar(literal: string)
    | Text(text: string, parsed: Option<Json>)
    | Array(items: seq<Json>)
    | Object(fields: map<string, Json>)

  datatype Body =
    | BadJson(text: string)
    | Body(id: string, routingKey: string, payload: Option<Json>)

  /** The `id` header a CDC connector may add: plain text, or JSON with a `payload` field. */
  datatype HeaderId = NoId | PlainId(text: string) | JsonId(payload: string)

  datatype Headers = Headers(retryCount: Option<nat>, originalKey: Option<string>, id: HeaderId, republished: bool)

  const NoHeaders := Headers(None, None, NoId, false)

  datatype RawMessage = RawMessage(body: Body, messageId: string, headers: Headers, routingKey: string)

  datatype Envelope = Envelope(eventId: string, routingKey: string, payload: Json)

  function Or(a: string, b: string): string { if a != "" then a else b }

  function Field(j: Json, name: string): Option<Json> {
    if j.Object? && name in j.fields then Some(j.fields[name]) else None
  }

  function TextField(j: Json, name: string): string {
    match Field(j, name)
    case Some(Text(text, _)) => text
    case _ => ""
  }

  /** `typeof` says 'object', and it is not null. */
  predicate IsObject(j: Json) { j.Object? || j.Array? }

  /** `parseJSON`: an object as it is, a text parsed. */
  function ParseJSON(j: Option<Json>): Option<Json> {
    match j
    case Some(Object(_)) => j
    case Some(Array(_)) => j
    case Some(Text(_, parsed)) => parsed
    case _ => None
  }

  /** The value wrapped in a field `payload`, if there is one. */
  function Wrapped(p: Json): Option<Json> {
    var inner := ParseJSON(Field(p, "payload"));
    if inner == Some(Null) then None else inner
  }

  /** What the handler is given for a payload. */
  function Unwrapped(p: Json): Json { if Wrapped(p).Some? then Wrapped(p).value else p }

  function PayloadId(b: Body): string
    requires b.Body?
  {
    if b.payload.Some? then TextField(b.payload.value, "id") else ""
  }

  function PayloadKey(b: Body): string
    requires b.Body?
  {
    if b.payload.Some? then TextField(b.payload.value, "routingKey") else ""
  }

  function IdOfHeader(h: HeaderId): string {
    match h
    case NoId => ""
    case PlainId(s) => s
    case JsonId(s) => s
  }

  function OriginalKey(m: RawMessage): string {
    if m.headers.originalKey.Some? then m.headers.originalKey.value else ""
  }

  function ParseMessage(m: RawMessage): Option<Envelope> {
    if m.body.BadJson? then None
    else
      var key := Or(m.body.routingKey, Or(OriginalKey(m), Or(m.routingKey, PayloadKey(m.body))));
      var id := Or(m.messageId, Or(m.body.id, Or(PayloadId(m.body), IdOfHeader(m.headers.id))));
      if key == "" || id == "" || m.body.payload.None? || !IsObject(m.body.payload.value) then None
      else Some(Envelope(id, key, Unwrapped(m.body.payload.value)))
  }

  predicate First(x: string, a: string, b: string, c: string, d: string) {
    (a != "" && x == a) || (a == "" && b != "" && x == b) || (a == b == "" && c != "" && x == c) || (a == b == c == "" && x == d)
  }

  /** Which of its places a key and an id are read from: the key from the body before the retry header, the
      delivery and the payload; the id from the message before the body, the payload and the header. A message
      without either, or without an object for payload, is unreadable, and no other JSON is. */
  lemma ReadingOrder(m: RawMessage, key: string, id: string)
    requires m.body.Body? && First(key, m.body.routingKey, OriginalKey(m),
                                   m.routingKey, PayloadKey(m.body))
    requires First(id, m.messageId, m.body.id, PayloadId(m.body), IdOfHeader(m.headers.id))
    ensures ParseMessage(m).Some? <==> key != "" && id != "" && m.body.payload.Some? && IsObject(m.body.payload.value)
    ensures ParseMessage(m).Some? ==>
              ParseMessage(m).value == Envelope(id, key, Unwrapped(m.body.payload.value)) && FailureKey(m) == key
  {
  }

  function KeyFromBody(b: Body): Option<string> {
    if b.BadJson? then None
    else
      var key := Or(b.routingKey, PayloadKey(b));
      if key == "" then None else Some(key)
  }

  function RetryCount(m: RawMessage): nat {
    if m.headers.retryCount.Some? then m.headers.retryCount.value else 0
  }

  /** The routing key `handleMessage` works with once the handler or the parser has failed. */
  function FailureKey(m: RawMessage): string {
    match ParseMessage(m)
    case Some(e) => e.routingKey
    case None => if KeyFromBody(m.body).Some? then KeyFromBody(m.body).value else m.routingKey
  }

  /** The copy sent to the next retry queue: same body, fresh headers, no messageId. */
  function Retried(cfg: Config, m: RawMessage): RawMessage {
    var count := RetryCount(m) + 1;
    RawMessage(m.body, "", Headers(Some(count), Some(FailureKey(m)), NoId, false), RetryQueue(cfg, count))
  }

  /** A retry copy whose delay is over, as the main queue receives it. */
  function Expired(cfg: Config, m: RawMessage): RawMessage {
    if cfg.exchange.Some? then m else m.(routingKey := cfg.queue)
  }

  /** A message rejected by the main queue's consumer. */
  function DeadLettered(cfg: Config, m: RawMessage): RawMessage {
    m.(routingKey := DeadLetterQueue(cfg))
  }

  function RepublishKey(m: RawMessage): string {
    match m.headers.originalKey
    case Some(key) => key
    case None => if KeyFromBody(m.body).Some? then KeyFromBody(m.body).value else m.routingKey
  }

  function Republished(cfg: Config, m: RawMessage): RawMessage {
    var key := RepublishKey(m);
    RawMessage(m.body, "", m.headers.(republished := true), if cfg.exchange.Some? then key else cfg.queue)
  }

  /** A message built by `publish` under a fresh event id. */
  function PublishedMessage(cfg: Config, eventId: string, key: string, payload: Json): RawMessage {
    RawMessage(Body(eventId, key, Some(payload)), eventId, NoHeaders, if cfg.exchange.Some? then key else cfg.queue)
  }

  datatype Hop = ViaRetry | ViaDeadLetter

  function Travel(cfg: Config, m: RawMessage, hop: Hop): RawMessage {
    match hop
    case ViaRetry => Expired(cfg, Retried(cfg, m))
    case ViaDeadLetter => Republished(cfg, DeadLettered(cfg, m))
  }

  function Journey(cfg: Config, m: RawMessage, hops: seq<Hop>): RawMessage
    decreases |hops|
  {
    if hops == [] then m else Journey(cfg, Travel(cfg, m, hops[0]), hops[1..])
  }

  /** The event id is in the body, so it survives the loss of messageId and headers. */
  predicate IdPinned(m: RawMessage) {
    m.body.Body? &&
    var bodyId := Or(m.body.id, PayloadId(m.body));
    bodyId != "" && (m.messageId == "" || m.messageId == bodyId)
  }

  /** The routing key is in the body or in the retry header, or is the one a republish resolves to. */
  predicate KeyPinned(cfg: Config, m: RawMessage) {
    m.body.Body? &&
    (m.body.routingKey != "" ||
     match m.headers.originalKey
     case Some("") =>
       Or(m.routingKey, PayloadKey(m.body)) == if cfg.exchange.Some? then PayloadKey(m.body) else cfg.queue
     case Some(_) => true
     case None =>
       Or(m.routingKey, PayloadKey(m.body)) ==
       if cfg.exchange.None? then cfg.queue
       else Or(PayloadKey(m.body), DeadLetterQueue(cfg)))
  }

  lemma PinnedTravel(cfg: Config, m: RawMessage, hop: Hop)
    requires cfg.queue != ""
    requires ParseMessage(m).Some? && IdPinned(m) && KeyPinned(cfg, m)
    ensures var n := Travel(cfg, m, hop);
            ParseMessage(n) == ParseMessage(m) && IdPinned(n) && KeyPinned(cfg, n)
  {
  }

  lemma {:induction false} PinnedJourney(cfg: Config, m: RawMessage, hops: seq<Hop>)
    requires cfg.queue != ""
    requires ParseMessage(m).Some? && IdPinned(m) && KeyPinned(cfg, m)
    ensures ParseMessage(Journey(cfg, m, hops)) == ParseMessage(m)
    decreases |hops|
  {
    if hops != [] {
      PinnedTravel(cfg, m, hops[0]);
      PinnedJourney(cfg, Travel(cfg, m, hops[0]), hops[1..]);
    }
  }

  /** Event id, routing key and payload read the same after the journey. */
  ghost predicate SameAfter(cfg: Config, m: RawMessage, hops: seq<Hop>) {
    ParseMessage(Journey(cfg, m, hops)) == ParseMessage(m)
  }

  /** A readable message keeps its event id, routing key and payload on every journey through the
      retry and dead-letter paths exactly when its id and its key are pinned. */
  lemma IdentityIsStable(cfg: Config, m: RawMessage)
    requires cfg.queue != "" && ParseMessage(m).Some?
    ensures (forall hops :: SameAfter(cfg, m, hops))
       <==> IdPinned(m) && KeyPinned(cfg, m)
  {
    if IdPinned(m) && KeyPinned(cfg, m) {
      forall hops ensures SameAfter(cfg, m, hops) {
        PinnedJourney(cfg, m, hops);
      }
    } else {
      var hop := if IdPinned(m) then ViaDeadLetter else ViaRetry;
      UnpinnedChanges(cfg, m);
      var hops := [hop];
      assert hops[1..] == [];
      assert Journey(cfg, m, hops) == Travel(cfg, m, hop);
      assert !SameAfter(cfg, m, hops);
    }
  }

  /** An id that is not pinned is lost by a retry; a key that is not pinned, by a republish. */
  lemma UnpinnedChanges(cfg: Config, m: RawMessage)
    requires cfg.queue != "" && ParseMessage(m).Some?
    ensures !IdPinned(m) ==> ParseMessage(Travel(cfg, m, ViaRetry)) != ParseMessage(m)
    ensures IdPinned(m) && !KeyPinned(cfg, m) ==> ParseMessage(Travel(cfg, m, ViaDeadLetter)) != ParseMessage(m)
  {
  }

  /** What `publish` builds is pinned in both modes, whatever its payload object holds. */
  lemma PublishedIsPinned(cfg: Config, eventId: string, key: string, payload: Json)
    requires eventId != "" && key != "" && IsObject(payload)
    ensures var m := PublishedMessage(cfg, eventId, key, payload);
            m.messageId == eventId && IdPinned(m) && KeyPinned(cfg, m) && RetryCount(m) == 0 &&
            ParseMessage(m).Some? && ParseMessage(m).value.eventId == eventId &&
            ParseMessage(m).value.routingKey == key
  {
  }

  /** Whatever is published comes back under its id and key, now and after every journey; the object itself
      comes back exactly when it has no field `payload` to be taken for the wrapped one. */
  lemma PublishedComesBack(cfg: Config, eventId: string, key: string, payload: Json, hops: seq<Hop>)
    requires cfg.queue != "" && eventId != "" && key != "" && IsObject(payload)
    ensures var e := ParseMessage(Journey(cfg, PublishedMessage(cfg, eventId, key, payload), hops));
            && e.Some? && e.value.eventId == eventId && e.value.routingKey == key
            && (e.value.payload == payload <==> Wrapped(payload).None?)
            && (Wrapped(payload).Some? ==> e.value.payload == Wrapped(payload).value)
  {
    PublishedIsPinned(cfg, eventId, key, payload);
    PinnedJourney(cfg, PublishedMessage(cfg, eventId, key, payload), hops);
    if Wrapped(payload).Some? { WrappedIsSmaller(payload); }
  }

  lemma WrappedIsSmaller(p: Json)
    requires Wrapped(p).Some?
    ensures Wrapped(p).value != p
  {
    var f := p.fields["payload"];
    assert f < p;
    match f
    case Text(_, parsed) => assert parsed.value < f;
    case _ =>
  }

  /** A CDC body carries its id and key inside `payload`. Delivered under its own key it is pinned
      exactly when an exchange is configured or its key happens to be the queue's name. */
  lemma CdcIsPinned(cfg: Config, m: RawMessage, payload: Json)
    requires m.body == Body("", "", Some(payload))
    requires TextField(payload, "id") != "" && TextField(payload, "routingKey") != ""
    requires m.messageId == "" || m.messageId == TextField(payload, "id")
    requires m.headers.originalKey.None? && m.routingKey == TextField(payload, "routingKey")
    ensures IdPinned(m)
    ensures KeyPinned(cfg, m) <==> cfg.exchange.Some? || TextField(payload, "routingKey") == cfg.queue
  {
  }

  /** A row of the outbox table. */
  datatype OutboxRow = OutboxRow(id: string, routingKey: string, payload: Json)

  /** What the outbox router sends for a row, under the row's key: an envelope with its id and key, in whose
      field `payload` the row's JSON column stands, as text or expanded. */
  predicate FromOutbox(m: RawMessage, row: OutboxRow) {
    && m.body.Body? && m.body.id == "" && m.body.routingKey == ""
    && m.body.payload.Some? && Carrying(m.body.payload.value, row)
    && (m.messageId == "" || m.messageId == row.id)
    && m.headers.originalKey.None? && m.routingKey == row.routingKey
  }

  predicate Carrying(p: Json, row: OutboxRow) {
    && p.Object? && TextField(p, "id") == row.id && TextField(p, "routingKey") == row.routingKey
    && ParseJSON(Field(p, "payload")) == Some(row.payload)
  }

  /** The message of an outbox row reads as exactly that row (only for a payload null, as the whole envelope);
      it still does after every journey of retries and republishes if and only if an exchange is configured or
      the key is the queue's name. */
  lemma OutboxRowComesBack(cfg: Config, m: RawMessage, row: OutboxRow)
    requires cfg.queue != "" && FromOutbox(m, row) && row.id != "" && row.routingKey != ""
    ensures ParseMessage(m) ==
            Some(Envelope(row.id, row.routingKey, if row.payload != Null then row.payload else m.body.payload.value))
    ensures (forall hops :: SameAfter(cfg, m, hops)) <==> cfg.exchange.Some? || row.routingKey == cfg.queue
  {
    CdcIsPinned(cfg, m, m.body.payload.value);
    IdentityIsStable(cfg, m);
  }

  // ---------------------------------------------------------------- the one event with a handler

  datatype UserCreated = UserCreated(userId: string, tenantId: string, email: string, occurredAt: string)

  /** `parseUserCreatedPayload`; `None` stands for its error. */
  function ReadUserCreated(payload: Json): Option<UserCreated> {
    var userId, tenantId, email, occurredAt :=
      Field(payload, "userId"), Field(payload, "tenantId"), Field(payload, "email"), Field(payload, "occurredAt");
    if userId.Some? && userId.value.Text? && tenantId.Some? && tenantId.value.Text? && email.Some? && email.value.Text? &&
       occurredAt.Some? && occurredAt.value.Text?
    then Some(UserCreated(userId.value.text, tenantId.value.text, email.value.text, occurredAt.value.text))
    else None
  }

  predicate HasText(j: Json, name: string, text: string) {
    j.Object? && name in j.fields && j.fields[name].Text? && j.fields[name].text == text
  }

  /** The payload written to the outbox when an account is created. */
  predicate Writes(payload: Json, u: UserCreated) {
    && HasText(payload, "userId", u.userId) && HasText(payload, "tenantId", u.tenantId)
    && HasText(payload, "email", u.email) && HasText(payload, "occurredAt", u.occurredAt)
  }

  /** The handler reads back what was written when the account was created, however often the message was
      retried or dug out, so it never refuses such a message; and nothing else is read as that event. */
  lemma UserCreatedComesBack(cfg: Config, m: RawMessage, row: OutboxRow, u: UserCreated, hops: seq<Hop>)
    requires cfg.queue != "" && (cfg.exchange.Some? || cfg.queue == row.routingKey || hops == [])
    requires FromOutbox(m, row) && row.id != "" && row.routingKey != "" && row.payload != Null
    ensures var e := ParseMessage(Journey(cfg, m, hops));
            e.Some? && e.value.eventId == row.id && e.value.routingKey == row.routingKey &&
            (ReadUserCreated(e.value.payload) == Some(u) <==> Writes(row.payload, u))
  {
    OutboxRowComesBack(cfg, m, row);
    if hops != [] { assert SameAfter(cfg, m, hops); }
  }

  function Retries(hops: seq<Hop>): nat {
    if hops == [] then 0 else (if hops[0] == ViaRetry then 1 else 0) + Retries(hops[1..])
  }

  /** The retry count grows by one on each retry and is kept through the dead-letter queue. */
  lemma {:induction false} RetryCountOf(cfg: Config, m: RawMessage, hops: seq<Hop>)
    ensures RetryCount(Journey(cfg, m, hops)) == RetryCount(m) + Retries(hops)
    decreases |hops|
  {
    if hops != [] { RetryCountOf(cfg, Travel(cfg, m, hops[0]), hops[1..]); }
  }
}
