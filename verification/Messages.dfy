/** What the messages say: the bodies and properties the consumers read, and the bodies they write.
    A message text is represented by what parsing it yields. */
module Messages {
  import opened Wrappers

  /** The field names the program reads, and every other name. */
  datatype Key = EventId | EventType | Payload | CorrelationId | Other(name: string)

  datatype Json =
    | Null
    | Bool(flag: bool)
    | Number(number: int)
    | Text(text: string)
    | Array(items: seq<Json>)
    | Object(fields: map<Key, Json>)

  datatype Raw = Garbage(bytes: string) | Parses(value: Json)

  /** A message of the work queue or of a retry queue. */
  datatype Delivery = Delivery(
    body: Raw,
    correlationProp: Option<string>,
    correlationHeader: Option<string>,
    attemptHeader: Option<int>,
    redelivered: bool)

  datatype HandledEvent = HandledEvent(eventId: string, eventType: string, correlationId: string, payload: Json)

  function NonEmpty(o: Option<string>): (r: Option<string>) {
    if o.Some? && o.value != "" then o else None
  }

  function Field(raw: Raw, key: Key): Option<Json> {
    if raw.Parses? && raw.value.Object? && key in raw.value.fields then Some(raw.value.fields[key]) else None
  }

  function TextField(raw: Raw, key: Key): Option<string> {
    match Field(raw, key)
    case Some(Text(t)) => Some(t)
    case _ => None
  }

  /** The usable event id of a body: a non-empty string field of a JSON object. */
  function EventIdOf(raw: Raw): Option<string> {
    NonEmpty(TextField(raw, EventId))
  }

  function EventTypeOf(raw: Raw): string {
    match TextField(raw, EventType)
    case Some(t) => t
    case None => "unknown"
  }

  /** JavaScript's `typeof` calls arrays objects too, so an array payload is kept. */
  function PayloadOf(raw: Raw): Json {
    match Field(raw, Payload)
    case Some(Object(fields)) => Object(fields)
    case Some(Array(items)) => Array(items)
    case _ => Object(map[])
  }

  function CarriedCorrelation(d: Delivery): Option<string> {
    if NonEmpty(d.correlationProp).Some? then d.correlationProp
    else if NonEmpty(d.correlationHeader).Some? then d.correlationHeader
    else NonEmpty(TextField(d.body, CorrelationId))
  }

  function CorrelationOf(d: Delivery, generated: string): string {
    match CarriedCorrelation(d)
    case Some(c) => c
    case None => generated
  }

  function EventOf(d: Delivery, correlation: string): HandledEvent
    requires EventIdOf(d.body).Some?
  {
    HandledEvent(EventIdOf(d.body).value, EventTypeOf(d.body), correlation, PayloadOf(d.body))
  }

  predicate IsContinuation(d: Delivery) {
    d.attemptHeader.Some? || d.redelivered
  }

  /** The message published to a retry tier: the event, re-serialised. */
  function RetryDelivery(event: HandledEvent, attempts: int): Delivery {
    Delivery(
      Parses(Object(map[EventId := Text(event.eventId), EventType := Text(event.eventType),
                        Payload := event.payload, CorrelationId := Text(event.correlationId)])),
      Some(event.correlationId), Some(event.correlationId), Some(attempts), false)
  }

  /** The body of a dead-queue message, by what the consumer can read of it: text that is not JSON, the JSON
      literal null, or anything else with each field present only when it has the type the consumer tests for.
      `stored` is the letter's payload string or, when it has none, the letter's own text. */
  datatype LetterBody =
    | NotJson(text: Raw)
    | NullLiteral
    | Letter(eventId: Option<string>, correlationId: Option<string>, reason: Option<string>,
             attempts: Option<int>, stored: Raw)

  datatype DeadMessage = DeadMessage(body: LetterBody, messageId: Option<string>, correlationProp: Option<string>)

  datatype DlqRow = DlqRow(
    messageId: Option<string>,
    correlationId: string,
    eventId: Option<string>,
    reason: string,
    attempts: int,
    payload: Raw,
    replayed: bool)

  /** The letter the order consumer publishes for a delivery it gives up on. */
  function DeadMessageOf(d: Delivery, correlation: string, attempts: int, reason: string): DeadMessage {
    DeadMessage(
      Letter(EventIdOf(d.body), Some(correlation), Some(reason), Some(attempts), d.body),
      EventIdOf(d.body), Some(correlation))
  }

  function GetOr<T>(o: Option<T>, default: T): T {
    match o
    case Some(v) => v
    case None => default
  }

  /** The row the DLQ consumer inserts for a message it can read. */
  function RowOf(m: DeadMessage): DlqRow
    requires !m.body.NullLiteral?
  {
    match m.body
    case NotJson(text) => DlqRow(m.messageId, GetOr(m.correlationProp, "unknown"), None, "unknown", 0, text, false)
    case Letter(eventId, correlationId, reason, attempts, stored) =>
      var id := NonEmpty(eventId);
      DlqRow(
        if m.messageId.Some? then m.messageId else id,
        GetOr(NonEmpty(correlationId), GetOr(m.correlationProp, "unknown")),
        id, GetOr(reason, "unknown"), GetOr(attempts, 0), stored, false)
  }

  /** The stored message a replay republishes: only a JSON object qualifies. */
  function RedriveOf(row: DlqRow): Option<Delivery> {
    if row.payload.Parses? && row.payload.value.Object?
    then Some(Delivery(row.payload, Some(row.correlationId), Some(row.correlationId), Some(0), false))
    else None
  }

  /** A row whose stored payload is the message that died, filed under that message's own id. */
  predicate RowOk(r: DlqRow) {
    && r.messageId == r.eventId
    && (r.eventId.Some? ==> EventIdOf(r.payload) == r.eventId)
  }

  /** Round trip: what the order consumer writes into a letter is what the DLQ consumer stores. */
  lemma LetterRowOk(d: Delivery, correlation: string, attempts: int, reason: string)
    ensures var row := RowOf(DeadMessageOf(d, correlation, attempts, reason));
            && row == DlqRow(EventIdOf(d.body), correlation, EventIdOf(d.body), reason, attempts, d.body, false)
            && RowOk(row)
  {
  }

  /** A genuine row with an event id can always be redriven, as a continuation of that very id. */
  lemma GenuineRowsAreReplayable(r: DlqRow)
    requires RowOk(r) && r.eventId.Some?
    ensures RedriveOf(r).Some?
    ensures EventIdOf(RedriveOf(r).value.body) == r.eventId && IsContinuation(RedriveOf(r).value)
    ensures RedriveOf(r).value.body == r.payload && RedriveOf(r).value.correlationProp == Some(r.correlationId)
  {
  }

  // ---------- what a message says, read off its fields ----------

  /** `id`, `eventType` and `payload` are what a body says: a non-empty text for the id, any text for the type, an
      object or an array for the payload, and a stand-in where the last two are missing or of another kind. */
  predicate Tells(body: Raw, id: string, eventType: string, payload: Json) {
    && body.Parses? && body.value.Object?
    && var f := body.value.fields;
       && EventId in f && f[EventId] == Text(id) && id != ""
       && eventType == (if EventType in f && f[EventType].Text? then f[EventType].text else "unknown")
       && payload == if Payload in f && (f[Payload].Object? || f[Payload].Array?) then f[Payload] else Object(map[])
  }

  /** The handler is given what the body tells. */
  lemma HandledAsTold(d: Delivery, correlation: string)
    requires EventIdOf(d.body).Some?
    ensures var e := EventOf(d, correlation);
            Tells(d.body, e.eventId, e.eventType, e.payload) && e.correlationId == correlation
  {
  }

  /** A body is usable exactly if it is an object with a non-empty text as its event id. */
  lemma UsableIff(body: Raw)
    ensures EventIdOf(body).Some? <==>
              && body.Parses? && body.value.Object? && EventId in body.value.fields
              && body.value.fields[EventId].Text? && body.value.fields[EventId].text != ""
    ensures EventIdOf(body).Some? ==> body.value.fields[EventId] == Text(EventIdOf(body).value)
  {
  }

  /** The correlation id of a message: its property, else its header, else its body's field - the first that is given
      and not empty - else the generated one. */
  lemma CorrelationIsTheFirstGiven(d: Delivery, generated: string)
    ensures var inBody := d.body.Parses? && d.body.value.Object? && CorrelationId in d.body.value.fields
                          && d.body.value.fields[CorrelationId].Text? && d.body.value.fields[CorrelationId].text != "";
            CorrelationOf(d, generated) ==
              if d.correlationProp.Some? && d.correlationProp.value != "" then d.correlationProp.value
              else if d.correlationHeader.Some? && d.correlationHeader.value != "" then d.correlationHeader.value
              else if inBody then d.body.value.fields[CorrelationId].text
              else generated
    ensures CarriedCorrelation(d).Some? ==> CarriedCorrelation(d).value == CorrelationOf(d, generated) != ""
  {
  }

  /** The row of a letter some other program put on the dead queue: what is missing gets a stand-in. */
  lemma ForeignLettersAreStored(m: DeadMessage)
    requires !m.body.NullLiteral?
    ensures var r := RowOf(m);
            && !r.replayed
            && (m.body.NotJson? ==>
                  && r.eventId == None && r.messageId == m.messageId && r.payload == m.body.text
                  && r.reason == "unknown" && r.attempts == 0
                  && r.correlationId == (if m.correlationProp.Some? then m.correlationProp.value else "unknown"))
            && (m.body.Letter? ==>
                  && r.eventId == (if m.body.eventId == Some("") then None else m.body.eventId)
                  && r.messageId == (if m.messageId.Some? then m.messageId else r.eventId)
                  && r.payload == m.body.stored
                  && r.reason == (if m.body.reason.Some? then m.body.reason.value else "unknown")
                  && r.attempts == (if m.body.attempts.Some? then m.body.attempts.value else 0)
                  && r.correlationId ==
                       if m.body.correlationId.Some? && m.body.correlationId.value != "" then m.body.correlationId.value
                       else if m.correlationProp.Some? then m.correlationProp.value else "unknown")
  {
  }

  // ---------- what a message means survives every hop ----------

  /** One hop of a lineage: the broker hands the message back, the consumer retries it, or it dies, is stored
      and is replayed. `generated` is the id generated when the message carries no correlation id. */
  datatype Hop =
    | Redelivered
    | Retried(attempts: int, generated: string)
    | Replayed(attempts: int, reason: string, generated: string)

  function TakeHop(d: Delivery, hop: Hop): Delivery
    requires EventIdOf(d.body).Some?
  {
    match hop
    case Redelivered => d.(redelivered := true)
    case Retried(attempts, generated) => RetryDelivery(EventOf(d, CorrelationOf(d, generated)), attempts)
    case Replayed(attempts, reason, generated) =>
      RedriveOf(RowOf(DeadMessageOf(d, CorrelationOf(d, generated), attempts, reason))).value
  }

  /** What the handler is told by a delivery, with the correlation id only when the message carries one. */
  datatype Meaning = Meaning(eventId: string, eventType: string, payload: Json, correlation: Option<string>)

  function MeaningOf(d: Delivery): Meaning
    requires EventIdOf(d.body).Some?
  {
    Meaning(EventIdOf(d.body).value, EventTypeOf(d.body), PayloadOf(d.body), CarriedCorrelation(d))
  }

  /** `m` says what `origin` said; a correlation id, once carried, never changes. */
  predicate Descends(m: Meaning, origin: Meaning) {
    && m.eventId == origin.eventId && m.eventType == origin.eventType && m.payload == origin.payload
    && (origin.correlation.Some? ==> m.correlation == origin.correlation)
  }

  lemma RetryKeepsMeaning(d: Delivery, correlation: string, attempts: int)
    requires EventIdOf(d.body).Some? && correlation != ""
    requires CarriedCorrelation(d).Some? ==> CarriedCorrelation(d) == Some(correlation)
    ensures var r := RetryDelivery(EventOf(d, correlation), attempts);
            && EventIdOf(r.body) == EventIdOf(d.body)
            && Descends(MeaningOf(r), MeaningOf(d))
            && MeaningOf(r).correlation == Some(correlation)
            && r.correlationProp == r.correlationHeader == Some(correlation)
            && r.attemptHeader == Some(attempts) && !r.redelivered
            && Tells(r.body, EventIdOf(d.body).value, EventTypeOf(d.body), PayloadOf(d.body))
  {
    var event := EventOf(d, correlation);
    var fields := map[EventId := Text(event.eventId), EventType := Text(event.eventType),
                      Payload := event.payload, CorrelationId := Text(event.correlationId)];
    assert RetryDelivery(event, attempts).body == Parses(Object(fields));
    assert fields[EventId] == Text(event.eventId) && fields[Payload] == event.payload;
    assert event.payload.Object? || event.payload.Array?;
  }

  lemma HopKeepsMeaning(d: Delivery, hop: Hop)
    requires EventIdOf(d.body).Some?
    requires !hop.Redelivered? ==> hop.generated != ""
    ensures EventIdOf(TakeHop(d, hop).body).Some?
    ensures Descends(MeaningOf(TakeHop(d, hop)), MeaningOf(d))
  {
    if hop.Retried? {
      RetryKeepsMeaning(d, CorrelationOf(d, hop.generated), hop.attempts);
    }
  }

  ghost predicate FreshIds(hops: seq<Hop>) {
    forall i | 0 <= i < |hops| :: !hops[i].Redelivered? ==> hops[i].generated != ""
  }

  /** The message after a whole lineage of hops. */
  ghost function Lineage(d: Delivery, hops: seq<Hop>): (r: Delivery)
    requires EventIdOf(d.body).Some? && FreshIds(hops)
    ensures EventIdOf(r.body).Some?
    decreases |hops|
  {
    if hops == [] then d
    else
      HopKeepsMeaning(d, hops[0]);
      assert FreshIds(hops[1..]) by { assert forall i | 0 <= i < |hops[1..]| :: hops[1..][i] == hops[i + 1]; }
      Lineage(TakeHop(d, hops[0]), hops[1..])
  }

  /** Through any mix and any number of redeliveries, retries and redrives the handler is given the event of the
      first message: the same id, type and payload, and the same correlation id if the first message carried one. */
  lemma {:induction false} LineageKeepsEvent(d: Delivery, hops: seq<Hop>, generated: string, generated': string)
    requires EventIdOf(d.body).Some? && FreshIds(hops)
    ensures var last := Lineage(d, hops);
            && EventOf(last, "") == EventOf(d, "")
            && Tells(d.body, EventIdOf(last.body).value, EventTypeOf(last.body), PayloadOf(last.body))
            && (CarriedCorrelation(d).Some? ==>
                  EventOf(last, CorrelationOf(last, generated')) == EventOf(d, CorrelationOf(d, generated)))
    decreases |hops|
  {
    if hops != [] {
      HopKeepsMeaning(d, hops[0]);
      assert FreshIds(hops[1..]) by { assert forall i | 0 <= i < |hops[1..]| :: hops[1..][i] == hops[i + 1]; }
      LineageKeepsEvent(TakeHop(d, hops[0]), hops[1..], generated, generated');
    }
  }
}
