/** The wire contract between the API's outbox, the publisher and the sync consumer.

    JSON text is left out: an event value is the JSON document itself. Identifiers are their
    canonical text, and header bytes are their ASCII characters. */
module Wire {
  import opened Common
  import opened PyText

  const SYNC_TOPIC := "serviq.knowledge.sync.v1"
  const AGGREGATE_TYPE := "knowledge_source"
  const ATTEMPT_HEADER := "serviq-attempt"
  const NOT_BEFORE_HEADER := "serviq-not-before-ms"
  const MAX_RETRIES: nat := 3

  predicate IsHex(c: char) { '0' <= c <= '9' || 'a' <= c <= 'f' }

  predicate IsUuidText(s: string) {
    && |s| == 36
    && forall i :: 0 <= i < 36 ==> if i == 8 || i == 13 || i == 18 || i == 23 then s[i] == '-' else IsHex(s[i])
  }

  const NIL_UUID := "00000000-0000-0000-0000-000000000000"

  lemma NilIsUuid()
    ensures IsUuidText(NIL_UUID)
  {
  }

  /** A UUID, represented by `str(uuid)`. */
  type Uuid = s: string | IsUuidText(s) ghost witness (NilIsUuid(); NIL_UUID)

  datatype Json =
    | JNull
    | JBool(b: bool)
    | JInt(n: int)
    | JStr(s: string)
    | JArr(items: seq<Json>)
    | JObj(fields: map<string, Json>)

  /** The columns of an outbox row that the publisher reads. */
  datatype OutboxRow = OutboxRow(
    id: Uuid, tenant: Option<Uuid>, eventType: string, schemaVersion: int,
    aggregateType: string, aggregateId: string, payload: Json,
    correlationId: string, causationId: Option<string>)

  datatype BrokerRecord = BrokerRecord(topic: string, key: string, value: Json, headers: map<string, string>)

  datatype Command = Command(eventId: Uuid, tenant: Uuid, source: Uuid, version: nat, correlationId: string)

  /** One version of one source. */
  datatype Pair = Pair(source: Uuid, version: nat)

  // ---- the API side ----

  /** The payload of a sync event. */
  function SyncPayload(tenant: Uuid, source: Uuid, version: int): Json {
    JObj(map["tenantId" := JStr(tenant), "sourceId" := JStr(source), "syncVersion" := JInt(version)])
  }

  /** The event `start_source_sync` stages for an allocated version. */
  function SyncEvent(id: Uuid, tenant: Uuid, source: Uuid, version: nat, correlationId: string): OutboxRow {
    OutboxRow(id, Some(tenant), SYNC_TOPIC, 1, AGGREGATE_TYPE, source,
              SyncPayload(tenant, source, version), correlationId, None)
  }

  predicate PrintableAscii(t: string) {
    forall i :: 0 <= i < |t| ==> 33 <= t[i] as int <= 126
  }

  /** `_normalize_correlation_id`, with the freshly drawn identifier as a parameter: a header that
      needs no change is kept, and one that cannot be used is replaced. */
  function NormalizeCorrelationId(requestId: Option<string>, generated: Uuid): (r: string)
    ensures 1 <= |r| <= 128 && PrintableAscii(r)
    ensures requestId.Some? && 1 <= |requestId.value| <= 128 && PrintableAscii(requestId.value) ==> r == requestId.value
    ensures requestId.Some? && r != generated ==> r == Strip(IsSpace, requestId.value)
    ensures requestId.None? || Strip(IsSpace, requestId.value) == "" ==> r == generated
  {
    if requestId.None? then generated
    else
      var candidate := Strip(IsSpace, requestId.value);
      PrintableIsTrimmed(requestId.value);
      if 1 <= |candidate| <= 128 && PrintableAscii(candidate) then candidate else generated
  }

  /** Printable characters are not white space, so nothing is stripped from them. */
  lemma {:induction false} PrintableIsTrimmed(t: string)
    ensures PrintableAscii(t) ==> Strip(IsSpace, t) == t
  {
    if PrintableAscii(t) && t != [] {
      assert !IsSpace(t[0]) && !IsSpace(t[|t| - 1]);
      assert LStrip(IsSpace, t) == t;
    }
  }

  // ---- the publisher side ----

  function Envelope(row: OutboxRow): Json {
    JObj(map[
      "id" := JStr(row.id),
      "eventType" := JStr(row.eventType),
      "schemaVersion" := JInt(row.schemaVersion),
      "tenantId" := if row.tenant.Some? then JStr(row.tenant.value) else JNull,
      "aggregateType" := JStr(row.aggregateType),
      "aggregateId" := JStr(row.aggregateId),
      "payload" := row.payload,
      "correlationId" := JStr(row.correlationId),
      "causationId" := if row.causationId.Some? then JStr(row.causationId.value) else JNull])
  }

  /** `serialize_outbox_row`; None stands for OutboxSerializationError. */
  function Serialize(row: OutboxRow): Option<BrokerRecord> {
    if row.eventType == "" || row.schemaVersion < 1 || row.aggregateType == "" || row.aggregateId == ""
       || row.correlationId == "" || row.causationId == Some("") || !row.payload.JObj?
    then None
    else Some(BrokerRecord(row.eventType, row.aggregateId, Envelope(row), map[]))
  }

  // ---- the consumer side ----

  function UuidField(o: map<string, Json>, name: string): Option<Uuid> {
    if name in o && o[name].JStr? && IsUuidText(o[name].s) then Some(o[name].s) else None
  }

  function TextField(o: map<string, Json>, name: string): Option<string> {
    if name in o && o[name].JStr? then Some(o[name].s) else None
  }

  function IntField(o: map<string, Json>, name: string): Option<int> {
    if name in o && o[name].JInt? then Some(o[name].n) else None
  }

  /** The `_SyncPayload` model: exactly these fields, and a positive version. */
  function ParsePayload(j: Json): Option<(Uuid, Uuid, nat)> {
    if !j.JObj? || j.fields.Keys != {"tenantId", "sourceId", "syncVersion"} then None else
      match (UuidField(j.fields, "tenantId"), UuidField(j.fields, "sourceId"), IntField(j.fields, "syncVersion"))
      case (Some(tenant), Some(source), Some(version)) => if version >= 1 then Some((tenant, source, version)) else None
      case _ => None
  }

  const ENVELOPE_FIELDS: set<string> := {"id", "eventType", "schemaVersion", "tenantId", "aggregateType",
                                         "aggregateId", "payload", "correlationId", "causationId"}

  /** `_decode_command`. */
  function DecodeCommand(key: string, value: Json): Option<Command> {
    if !value.JObj? || value.fields.Keys != ENVELOPE_FIELDS then None else
      var o := value.fields;
      var id, tenant := UuidField(o, "id"), UuidField(o, "tenantId");
      var aggregateId, correlationId := TextField(o, "aggregateId"), TextField(o, "correlationId");
      var payload := ParsePayload(o["payload"]);
      if id.None? || tenant.None? || aggregateId.None? || correlationId.None? || payload.None?
         || !(o["causationId"].JNull? || o["causationId"].JStr?)
         || !(1 <= |correlationId.value| <= 200)
      then None
      else if TextField(o, "eventType") != Some(SYNC_TOPIC) || IntField(o, "schemaVersion") != Some(1)
         || TextField(o, "aggregateType") != Some(AGGREGATE_TYPE)
      then None
      else
        var (payloadTenant, source, version) := payload.value;
        if aggregateId.value != source || key != aggregateId.value || tenant.value != payloadTenant then None
        else Some(Command(id.value, payloadTenant, source, version, correlationId.value))
  }

  /** The envelope a command came in. */
  function EnvelopeOf(c: Command, causation: Option<string>): Json {
    Envelope(SyncEvent(c.eventId, c.tenant, c.source, c.version, c.correlationId).(causationId := causation))
  }

  /** Decoding accepts exactly the sync envelopes, and recovers the command they carry. */
  lemma DecodeIsExact(key: string, value: Json, c: Command)
    ensures DecodeCommand(key, value) == Some(c) <==>
      && key == c.source && c.version >= 1 && 1 <= |c.correlationId| <= 200
      && exists causation :: value == EnvelopeOf(c, causation)
  {
    if DecodeCommand(key, value) == Some(c) {
      var o := value.fields;
      var causation := if o["causationId"].JStr? then Some(o["causationId"].s) else None;
      assert o["payload"].fields == SyncPayload(c.tenant, c.source, c.version).fields;
      assert o == EnvelopeOf(c, causation).fields;
      assert value == EnvelopeOf(c, causation);
    }
    if key == c.source && c.version >= 1 && 1 <= |c.correlationId| <= 200
       && exists causation :: value == EnvelopeOf(c, causation)
    {
      var causation :| value == EnvelopeOf(c, causation);
      EnvelopeDecodes(c, causation);
    }
  }

  lemma EnvelopeDecodes(c: Command, causation: Option<string>)
    requires c.version >= 1 && 1 <= |c.correlationId| <= 200
    ensures DecodeCommand(c.source, EnvelopeOf(c, causation)) == Some(c)
  {
    var o := EnvelopeOf(c, causation).fields;
    assert o.Keys == ENVELOPE_FIELDS;
    assert o["payload"] == SyncPayload(c.tenant, c.source, c.version);
    assert ParsePayload(o["payload"]) == Some((c.tenant, c.source, c.version));
  }

  lemma SyncEventDecodes(id: Uuid, tenant: Uuid, source: Uuid, version: nat, correlationId: string)
    requires version >= 1 && 1 <= |correlationId| <= 200
    ensures
      var record := Serialize(SyncEvent(id, tenant, source, version, correlationId));
      && record.Some? && record.value.topic == SYNC_TOPIC
      && DecodeCommand(record.value.key, record.value.value)
         == Some(Command(id, tenant, source, version, correlationId))
  {
    EnvelopeDecodes(Command(id, tenant, source, version, correlationId), None);
  }

  /** Cross-service contract: whatever request identifier came in, the event staged for a
      positive version serialises, goes to the sync topic, and decodes to the same ids and
      version. */
  lemma SyncEventRoundTrip(
      id: Uuid, tenant: Uuid, source: Uuid, version: nat, requestId: Option<string>, generated: Uuid)
    requires version >= 1
    ensures
      var correlationId := NormalizeCorrelationId(requestId, generated);
      var record := Serialize(SyncEvent(id, tenant, source, version, correlationId));
      && record.Some? && record.value.topic == SYNC_TOPIC
      && DecodeCommand(record.value.key, record.value.value)
         == Some(Command(id, tenant, source, version, correlationId))
  {
    SyncEventDecodes(id, tenant, source, version, NormalizeCorrelationId(requestId, generated));
  }

  // ---- retry headers ----

  function Digit(n: nat): char
    requires n < 10
  {
    '0' + n as char
  }

  /** `str(n)`. */
  function Print(n: nat): (s: string)
    ensures |s| >= 1 && forall i :: 0 <= i < |s| ==> '0' <= s[i] <= '9'
  {
    if n < 10 then [Digit(n)] else Print(n / 10) + [Digit(n % 10)]
  }

  /** Digits with single underscores between them, as `int` reads them. */
  function ParseDigits(s: string): Option<nat> {
    if s == "" || !('0' <= s[|s| - 1] <= '9') then None else
      var d := (s[|s| - 1] - '0') as nat;
      if |s| == 1 then Some(d) else
        var rest := ParseDigits(if s[|s| - 2] == '_' then s[..|s| - 2] else s[..|s| - 1]);
        if rest.None? then None else Some(10 * rest.value + d)
  }

  /** White space that `int` skips around an ASCII number. */
  predicate IsAsciiSpace(c: char) { 9 <= c as int <= 13 || c == ' ' }

  function TrimLeft(s: string): string {
    if s != "" && IsAsciiSpace(s[0]) then TrimLeft(s[1..]) else s
  }

  function TrimRight(s: string): string {
    if s != "" && IsAsciiSpace(s[|s| - 1]) then TrimRight(s[..|s| - 1]) else s
  }

  /** `_parse_positive_ascii_int`: surrounding white space and a plus sign are accepted. */
  function ParsePositive(s: string): (n: Option<nat>)
    ensures n.Some? ==> n.value > 0
  {
    if exists i :: 0 <= i < |s| && s[i] as int >= 128 then None else
      var t := TrimRight(TrimLeft(s));
      var parsed := if t != "" && t[0] == '+' then ParseDigits(t[1..]) else ParseDigits(t);
      if parsed.Some? && parsed.value > 0 then parsed else None
  }

  lemma {:induction false} PrintParses(n: nat)
    ensures ParseDigits(Print(n)) == Some(n)
  {
    if n >= 10 {
      PrintParses(n / 10);
      var s := Print(n);
      assert s[..|s| - 1] == Print(n / 10);
      assert '0' <= s[|s| - 2] <= '9';
    }
  }

  /** On a string of digits there is nothing to trim and no sign to skip. */
  lemma DigitsAreRead(s: string)
    requires s != "" && forall i :: 0 <= i < |s| ==> '0' <= s[i] <= '9'
    ensures ParsePositive(s) == if ParseDigits(s).Some? && ParseDigits(s).value > 0 then ParseDigits(s) else None
  {
    assert !IsAsciiSpace(s[0]) && !IsAsciiSpace(s[|s| - 1]) && s[0] != '+';
  }

  lemma PrintParsesPositive(n: nat)
    ensures ParsePositive(Print(n)) == if n > 0 then Some(n) else None
  {
    DigitsAreRead(Print(n));
    PrintParses(n);
  }

  function RetryHeaders(attempt: nat, notBeforeMs: nat): map<string, string> {
    map[ATTEMPT_HEADER := Print(attempt), NOT_BEFORE_HEADER := Print(notBeforeMs)]
  }

  /** `_parse_retry_metadata`. */
  function ParseRetryMetadata(headers: map<string, string>): Option<(nat, nat)> {
    var attempt := if ATTEMPT_HEADER in headers then ParsePositive(headers[ATTEMPT_HEADER]) else None;
    var notBefore := if NOT_BEFORE_HEADER in headers then ParsePositive(headers[NOT_BEFORE_HEADER]) else None;
    if attempt.None? || notBefore.None? || attempt.value > MAX_RETRIES then None
    else Some((attempt.value, notBefore.value))
  }

  /** Retry headers print and parse back exactly, and are refused exactly outside attempts 1 to 3. */
  lemma RetryHeadersRoundTrip(attempt: nat, notBeforeMs: nat)
    ensures ParseRetryMetadata(RetryHeaders(attempt, notBeforeMs))
         == if 1 <= attempt <= MAX_RETRIES && notBeforeMs > 0 then Some((attempt, notBeforeMs)) else None
  {
    var headers := RetryHeaders(attempt, notBeforeMs);
    PrintParsesPositive(attempt);
    PrintParsesPositive(notBeforeMs);
    assert ATTEMPT_HEADER != NOT_BEFORE_HEADER by { assert |ATTEMPT_HEADER| != |NOT_BEFORE_HEADER|; }
    assert headers[ATTEMPT_HEADER] == Print(attempt);
    assert headers[NOT_BEFORE_HEADER] == Print(notBeforeMs);
  }
}
