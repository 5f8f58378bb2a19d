/** The mapping between headers and the sections of an AMQP 1.0 message (OASIS AMQP 1.0 Part 3,
    sections 3.2.4, 3.2.5 and 3.2.11 to 3.2.14), and the typed id a reply correlates to.

    Text is kept as the bytes of its UTF-8 form, as a Rust `String` keeps it. A header map is a map
    from names to bytes; the order it is iterated in is a parameter. */
module Message {
  import opened Common

  // -- Bytes and text --------------------------------------------------------------------------

  predicate IsAscii(b: Bytes) {
    forall i :: 0 <= i < |b| ==> b[i] < 0x80
  }

  predicate Continues(b: byte) {
    0x80 <= b < 0xC0
  }

  /** How many bytes the well-formed UTF-8 character at the front of `b` takes, 0 when none is. */
  function FrontLength(b: Bytes): (n: nat)
    requires b != []
    ensures n <= |b|
  {
    if b[0] < 0x80 then 1
    else if |b| >= 2 && 0xC2 <= b[0] < 0xE0 && Continues(b[1]) then 2
    else if |b| >= 3 && Continues(b[2]) &&
      ((b[0] == 0xE0 && 0xA0 <= b[1] < 0xC0) || (0xE1 <= b[0] < 0xED && Continues(b[1])) ||
       (b[0] == 0xED && 0x80 <= b[1] < 0xA0) || (0xEE <= b[0] < 0xF0 && Continues(b[1]))) then 3
    else if |b| >= 4 && Continues(b[2]) && Continues(b[3]) &&
      ((b[0] == 0xF0 && 0x90 <= b[1] < 0xC0) || (0xF1 <= b[0] < 0xF4 && Continues(b[1])) ||
       (b[0] == 0xF4 && 0x80 <= b[1] < 0x90)) then 4
    else 0
  }

  predicate IsUtf8(b: Bytes) {
    b == [] || (FrontLength(b) > 0 && IsUtf8(b[FrontLength(b)..]))
  }

  lemma {:induction false} AsciiIsUtf8(b: Bytes)
    requires IsAscii(b)
    ensures IsUtf8(b)
  {
    if b != [] {
      AsciiIsUtf8(b[1..]);
    }
  }

  function Digit(d: nat): byte
    requires d < 16
  {
    if d < 10 then 48 + d else 87 + d
  }

  function Decimal(n: nat): (b: Bytes)
    ensures b != []
  {
    if n < 10 then [Digit(n)] else Decimal(n / 10) + [Digit(n % 10)]
  }

  function Signed(i: int): Bytes {
    if i < 0 then [45] + Decimal(-i) else Decimal(i)
  }

  function ParseDecimal(b: Bytes): int {
    if b == [] then 0 else 10 * ParseDecimal(b[..|b| - 1]) + b[|b| - 1] - 48
  }

  /** The digits of a number read back as that number, so two numbers never share a header. */
  lemma {:induction false} DecimalReadsBack(n: nat)
    ensures ParseDecimal(Decimal(n)) == n
  {
    if n >= 10 {
      DecimalReadsBack(n / 10);
      assert Decimal(n)[..|Decimal(n)| - 1] == Decimal(n / 10);
    } else {
      assert ParseDecimal([]) == 0;
    }
  }

  function Hex(b: Bytes): (h: Bytes)
    ensures |h| == 2 * |b|
  {
    if b == [] then [] else [Digit(b[0] / 16), Digit(b[0] % 16)] + Hex(b[1..])
  }

  type Uuid = b: Bytes | |b| == 16 witness seq(16, i => 0)

  const HYPHEN: byte := 45

  function UuidText(u: Uuid): Bytes {
    Hex(u[..4]) + [HYPHEN] + Hex(u[4..6]) + [HYPHEN] + Hex(u[6..8]) + [HYPHEN] + Hex(u[8..10]) + [HYPHEN] + Hex(u[10..])
  }

  // -- Messages --------------------------------------------------------------------------------

  type Headers = map<string, Bytes>

  /** A message id in the type it travels as. A string id holds well-formed text. */
  datatype MessageId = UlongId(n: nat) | UuidId(uuid: Uuid) | BinaryId(bytes: Bytes) | StringId(text: Bytes)

  predicate ValidId(id: MessageId) {
    id.StringId? ==> IsUtf8(id.text)
  }

  datatype Properties = Properties(
    contentType: Option<Bytes>,
    correlationId: Option<MessageId>,
    replyTo: Option<Bytes>,
    messageId: Option<MessageId>,
    groupId: Option<Bytes>)

  /** A value of an application property. `OtherValue` stands for the forms whose text is library
      formatting, with the text it reads as, or none when it cannot be encoded. */
  datatype SimpleValue =
    | StringValue(text: Bytes)
    | BinaryValue(bytes: Bytes)
    | SymbolValue(symbol: Bytes)
    | NullValue
    | BoolValue(b: bool)
    | IntegerValue(i: int)
    | UuidValue(uuid: Uuid)
    | OtherValue(read: Option<Bytes>)

  type Application = map<string, SimpleValue>

  datatype Sections = Sections(properties: Option<Properties>, application: Option<Application>, body: Bytes)

  datatype Reason = SymbolTakesAscii | StringTakesUtf8

  datatype Error =
    | UnsupportedHeader(address: string, header: string, reason: Reason)
    | UnsupportedBody(address: string)

  const CONTENT_TYPE := "content-type"
  const CORRELATION_ID := "correlation-id"
  const REPLY_TO := "reply-to"
  const MESSAGE_ID := "message-id"
  const PARTITION_KEY := "partition-key"

  const NO_PROPERTIES := Properties(None, None, None, None, None)

  predicate WellKnown(name: string) {
    name == CONTENT_TYPE || name == CORRELATION_ID || name == REPLY_TO || name == MESSAGE_ID || name == PARTITION_KEY
  }

  function IdOf(value: Bytes): MessageId {
    if IsUtf8(value) then StringId(value) else BinaryId(value)
  }

  function IdBytes(id: MessageId): Bytes {
    match id
    case StringId(text) => text
    case BinaryId(bytes) => bytes
    case UuidId(uuid) => UuidText(uuid)
    case UlongId(n) => Decimal(n)
  }

  function ValueOf(value: Bytes): SimpleValue {
    if IsUtf8(value) then StringValue(value) else BinaryValue(value)
  }

  function ValueBytes(v: SimpleValue): Option<Bytes> {
    match v
    case StringValue(text) => Some(text)
    case BinaryValue(bytes) => Some(bytes)
    case SymbolValue(symbol) => Some(symbol)
    case NullValue => Some([])
    case BoolValue(b) => Some(if b then [116, 114, 117, 101] else [102, 97, 108, 115, 101])
    case IntegerValue(i) => Some(Signed(i))
    case UuidValue(uuid) => Some(UuidText(uuid))
    case OtherValue(read) => read
  }

  // -- Headers to sections ---------------------------------------------------------------------

  /** Why the property `name` cannot hold `value`, if it cannot. */
  function Refusal(name: string, value: Bytes): Option<Reason> {
    if name == CONTENT_TYPE && !IsAscii(value) then Some(SymbolTakesAscii)
    else if (name == REPLY_TO || name == PARTITION_KEY) && !IsUtf8(value) then Some(StringTakesUtf8)
    else None
  }

  predicate Accepts(headers: Headers) {
    forall name :: name in headers ==> Refusal(name, headers[name]).None?
  }

  function At(headers: Headers, name: string): Option<Bytes> {
    if name in headers then Some(headers[name]) else None
  }

  function IdAt(headers: Headers, name: string): Option<MessageId> {
    if name in headers then Some(IdOf(headers[name])) else None
  }

  /** What the sections of an accepted header map say, whatever order it was read in. */
  function SpreadProperties(headers: Headers): Properties {
    Properties(At(headers, CONTENT_TYPE), IdAt(headers, CORRELATION_ID), At(headers, REPLY_TO),
               IdAt(headers, MESSAGE_ID), At(headers, PARTITION_KEY))
  }

  function SpreadApplication(headers: Headers): Application {
    map name | name in headers && !WellKnown(name) :: ValueOf(headers[name])
  }

  function Spread(headers: Headers, body: Bytes, correlation: Option<MessageId>): Sections {
    var properties := SpreadProperties(headers);
    var typed := if correlation.Some? then properties.(correlationId := correlation) else properties;
    var application := SpreadApplication(headers);
    Sections(
      if correlation.Some? || properties != NO_PROPERTIES then Some(typed) else None,
      if application == map[] then None else Some(application),
      body)
  }

  /** The entries of `headers`, each once, in some order. */
  predicate Lists(entries: seq<(string, Bytes)>, headers: Headers) {
    && (forall i :: 0 <= i < |entries| ==> entries[i].0 in headers && headers[entries[i].0] == entries[i].1)
    && (forall i, j :: 0 <= i < j < |entries| ==> entries[i].0 != entries[j].0)
    && (forall name :: name in headers ==> exists i :: 0 <= i < |entries| && entries[i].0 == name)
  }

  function Listed(entries: seq<(string, Bytes)>): Headers {
    if entries == [] then map[]
    else Listed(entries[..|entries| - 1])[entries[|entries| - 1].0 := entries[|entries| - 1].1]
  }

  lemma {:induction false} ListedEntries(entries: seq<(string, Bytes)>)
    ensures forall name :: name in Listed(entries) <==> exists i :: 0 <= i < |entries| && entries[i].0 == name
    ensures (forall i, j :: 0 <= i < j < |entries| ==> entries[i].0 != entries[j].0) ==>
              forall i :: 0 <= i < |entries| ==> entries[i].0 in Listed(entries) && Listed(entries)[entries[i].0] == entries[i].1
  {
    if entries != [] {
      var front := entries[..|entries| - 1];
      ListedEntries(front);
      assert forall i :: 0 <= i < |front| ==> front[i] == entries[i];
    }
  }

  lemma ListsIsListed(entries: seq<(string, Bytes)>, headers: Headers)
    requires Lists(entries, headers)
    ensures Listed(entries) == headers
  {
    ListedEntries(entries);
  }

  /** The properties once the well-known header `name` is on them. */
  function Put(p: Properties, name: string, value: Bytes): Properties {
    if name == CONTENT_TYPE then p.(contentType := Some(value))
    else if name == CORRELATION_ID then p.(correlationId := Some(IdOf(value)))
    else if name == REPLY_TO then p.(replyTo := Some(value))
    else if name == MESSAGE_ID then p.(messageId := Some(IdOf(value)))
    else p.(groupId := Some(value))
  }

  lemma SpreadOneMore(headers: Headers, name: string, value: Bytes)
    ensures WellKnown(name) ==>
      && SpreadProperties(headers[name := value]) == Put(SpreadProperties(headers), name, value)
      && SpreadApplication(headers[name := value]) == SpreadApplication(headers)
    ensures !WellKnown(name) ==>
      && SpreadProperties(headers[name := value]) == SpreadProperties(headers)
      && SpreadApplication(headers[name := value]) == SpreadApplication(headers)[name := ValueOf(value)]
  {
  }

  /** `e` names the first entry of this order that its property cannot hold, and why. */
  predicate NamesFirstRefused(e: Error, address: string, entries: seq<(string, Bytes)>, i: nat)
    requires i < |entries|
  {
    && Refusal(entries[i].0, entries[i].1).Some?
    && e == UnsupportedHeader(address, entries[i].0, Refusal(entries[i].0, entries[i].1).value)
    && NoneRefused(entries, i)
  }

  predicate NoneRefused(entries: seq<(string, Bytes)>, i: nat)
    requires i <= |entries|
  {
    forall j :: 0 <= j < i ==> Refusal(entries[j].0, entries[j].1).None?
  }

  lemma NoneRefusedIsAccepted(entries: seq<(string, Bytes)>, headers: Headers)
    requires Lists(entries, headers) && NoneRefused(entries, |entries|)
    ensures Accepts(headers)
  {
  }

  lemma RefusedIsNotAccepted(address: string, entries: seq<(string, Bytes)>, headers: Headers, i: nat)
    requires Lists(entries, headers) && i < |entries| && NoneRefused(entries, i)
    requires Refusal(entries[i].0, entries[i].1).Some?
    ensures !Accepts(headers)
    ensures NamesFirstRefused(UnsupportedHeader(address, entries[i].0, Refusal(entries[i].0, entries[i].1).value), address, entries, i)
  {
    assert entries[i].0 in headers && headers[entries[i].0] == entries[i].1;
  }

  lemma ListedOneMore(entries: seq<(string, Bytes)>, i: nat)
    requires i < |entries|
    ensures Listed(entries[..i + 1]) == Listed(entries[..i])[entries[i].0 := entries[i].1]
  {
    assert entries[..i + 1][..i] == entries[..i];
  }

  /** The loop's three variables hold exactly what the headers read so far say. */
  predicate Holds(p: Properties, hasProperties: bool, application: Option<Application>, seen: Headers) {
    && p == SpreadProperties(seen)
    && (hasProperties <==> p != NO_PROPERTIES)
    && SpreadApplication(seen) == (if application.Some? then application.value else map[])
    && application != Some(map[])
  }

  lemma PropertyHolds(p: Properties, hasProperties: bool, application: Option<Application>, seen: Headers, name: string, value: Bytes)
    requires Holds(p, hasProperties, application, seen) && WellKnown(name)
    ensures Holds(Put(p, name, value), true, application, seen[name := value])
  {
    SpreadOneMore(seen, name, value);
  }

  lemma ApplicationHolds(p: Properties, hasProperties: bool, application: Option<Application>, seen: Headers, name: string, value: Bytes)
    requires Holds(p, hasProperties, application, seen) && !WellKnown(name)
    ensures var before := if application.Some? then application.value else map[];
      Holds(p, hasProperties, Some(before[name := ValueOf(value)]), seen[name := value])
  {
    SpreadOneMore(seen, name, value);
    var before := if application.Some? then application.value else map[];
    assert name in before[name := ValueOf(value)];
  }

  lemma SpreadHolds(p: Properties, hasProperties: bool, application: Option<Application>, headers: Headers, body: Bytes, correlation: Option<MessageId>)
    requires Holds(p, hasProperties, application, headers)
    ensures Spread(headers, body, correlation) ==
      Sections(if correlation.Some? then Some(p.(correlationId := correlation)) else if hasProperties then Some(p) else None,
               application, body)
  {
  }

  /** Whether every property can hold its header: a symbol takes ASCII, a string text; an id takes anything. */
  predicate Holdable(headers: Headers) {
    && (CONTENT_TYPE in headers ==> IsAscii(headers[CONTENT_TYPE]))
    && (REPLY_TO in headers ==> IsUtf8(headers[REPLY_TO]))
    && (PARTITION_KEY in headers ==> IsUtf8(headers[PARTITION_KEY]))
  }

  /** Why it cannot: the header, and what its property takes. */
  predicate Unholdable(e: Error, address: string, headers: Headers) {
    || (e == UnsupportedHeader(address, CONTENT_TYPE, SymbolTakesAscii) && CONTENT_TYPE in headers && !IsAscii(headers[CONTENT_TYPE]))
    || (e == UnsupportedHeader(address, REPLY_TO, StringTakesUtf8) && REPLY_TO in headers && !IsUtf8(headers[REPLY_TO]))
    || (e == UnsupportedHeader(address, PARTITION_KEY, StringTakesUtf8) && PARTITION_KEY in headers && !IsUtf8(headers[PARTITION_KEY]))
  }

  /** The id travels as text where its header's bytes are text, and as binary where they are not. */
  predicate CarriesId(id: Option<MessageId>, headers: Headers, name: string) {
    id == if name !in headers then None else Some(if IsUtf8(headers[name]) then StringId(headers[name]) else BinaryId(headers[name]))
  }

  /** An application property travels as a string where its bytes are text, and as binary where not. */
  predicate CarriesValue(v: SimpleValue, value: Bytes) {
    v == if IsUtf8(value) then StringValue(value) else BinaryValue(value)
  }

  predicate CarriesProperties(p: Properties, headers: Headers, correlation: Option<MessageId>) {
    && p.contentType == (if CONTENT_TYPE in headers then Some(headers[CONTENT_TYPE]) else None)
    && p.replyTo == (if REPLY_TO in headers then Some(headers[REPLY_TO]) else None)
    && p.groupId == (if PARTITION_KEY in headers then Some(headers[PARTITION_KEY]) else None)
    && CarriesId(p.messageId, headers, MESSAGE_ID)
    && (if correlation.Some? then p.correlationId == correlation else CarriesId(p.correlationId, headers, CORRELATION_ID))
  }

  predicate CarriesApplication(a: Application, headers: Headers) {
    && (forall name :: name in headers && !WellKnown(name) ==> name in a)
    && (forall name :: name in a ==> name in headers && !WellKnown(name) && CarriesValue(a[name], headers[name]))
  }

  /** What a built message carries of its headers: the five well-known ones in the properties, and the
      rest, under their own names, in the application properties. A section with nothing in it is absent. */
  predicate Carries(m: Sections, headers: Headers, body: Bytes, correlation: Option<MessageId>) {
    && m.body == body
    && (m.properties.Some? <==> correlation.Some? || exists name :: name in headers && WellKnown(name))
    && (m.properties.Some? ==> CarriesProperties(m.properties.value, headers, correlation))
    && (m.application.Some? <==> exists name :: name in headers && !WellKnown(name))
    && (m.application.Some? ==> CarriesApplication(m.application.value, headers))
  }

  lemma SpreadCarriesProperties(headers: Headers, body: Bytes, correlation: Option<MessageId>)
    ensures var m := Spread(headers, body, correlation);
      && (m.properties.Some? <==> correlation.Some? || exists name :: name in headers && WellKnown(name))
      && (m.properties.Some? ==> CarriesProperties(m.properties.value, headers, correlation))
  {
  }

  lemma SpreadCarriesApplication(headers: Headers, body: Bytes, correlation: Option<MessageId>)
    ensures var m := Spread(headers, body, correlation);
      && (m.application.Some? <==> exists name :: name in headers && !WellKnown(name))
      && (m.application.Some? ==> CarriesApplication(m.application.value, headers))
  {
    var a := SpreadApplication(headers);
    if name :| name in headers && !WellKnown(name) {
      assert name in a;
    }
  }

  lemma AcceptedIsHoldable(headers: Headers)
    ensures Accepts(headers) <==> Holdable(headers)
  {
  }

  lemma RefusedIsUnholdable(e: Error, address: string, entries: seq<(string, Bytes)>, headers: Headers, i: nat)
    requires Lists(entries, headers) && i < |entries| && NamesFirstRefused(e, address, entries, i)
    ensures Unholdable(e, address, headers)
  {
  }

  /** The names the well-known headers have. */
  lemma WellKnownNames(name: string)
    ensures WellKnown(name) <==>
      name == "content-type" || name == "correlation-id" || name == "reply-to" || name == "message-id" || name == "partition-key"
    ensures CONTENT_TYPE == "content-type" && CORRELATION_ID == "correlation-id" && REPLY_TO == "reply-to"
    ensures MESSAGE_ID == "message-id" && PARTITION_KEY == "partition-key"
  {
  }

  /** Spreads the headers over the sections, entry by entry. It succeeds exactly when every property
      can hold its header, and then the result does not depend on the order; otherwise it reports
      the first refused entry of that order. */
  method BuildMessage(address: string, entries: seq<(string, Bytes)>, ghost headers: Headers, body: Bytes, correlation: Option<MessageId>)
    returns (r: Result<Sections, Error>)
    requires Lists(entries, headers)
    ensures r.Ok? <==> Holdable(headers)
    ensures r.Ok? ==> Carries(r.value, headers, body, correlation) && r.value == Spread(headers, body, correlation)
    ensures r.Err? ==> Unholdable(r.error, address, headers)
    ensures r.Err? ==> exists i: nat | i < |entries| :: NamesFirstRefused(r.error, address, entries, i)
  {
    var properties := NO_PROPERTIES;
    var hasProperties := false;
    var application: Option<Application> := None;
    AcceptedIsHoldable(headers);
    for i := 0 to |entries|
      invariant NoneRefused(entries, i)
      invariant Holds(properties, hasProperties, application, Listed(entries[..i]))
    {
      var (name, value) := entries[i];
      var refusal := Refusal(name, value);
      if refusal.Some? {
        RefusedIsNotAccepted(address, entries, headers, i);
        RefusedIsUnholdable(UnsupportedHeader(address, name, refusal.value), address, entries, headers, i);
        return Err(UnsupportedHeader(address, name, refusal.value));
      }
      ListedOneMore(entries, i);
      if WellKnown(name) {
        PropertyHolds(properties, hasProperties, application, Listed(entries[..i]), name, value);
        properties := Put(properties, name, value);
        hasProperties := true;
      } else {
        ApplicationHolds(properties, hasProperties, application, Listed(entries[..i]), name, value);
        var before := if application.Some? then application.value else map[];
        application := Some(before[name := ValueOf(value)]);
      }
    }
    assert entries[..|entries|] == entries;
    NoneRefusedIsAccepted(entries, headers);
    ListsIsListed(entries, headers);
    SpreadHolds(properties, hasProperties, application, headers, body, correlation);
    SpreadCarriesProperties(headers, body, correlation);
    SpreadCarriesApplication(headers, body, correlation);
    if correlation.Some? {
      properties := properties.(correlationId := correlation);
      hasProperties := true;
    }
    return Ok(Sections(if hasProperties then Some(properties) else None, application, body));
  }

  // -- Sections to headers ---------------------------------------------------------------------

  /** The headers a properties section reads as. */
  function PropertyHeaders(p: Properties): Headers {
    var h: Headers := map[];
    var h := if p.contentType.Some? then h[CONTENT_TYPE := p.contentType.value] else h;
    var h := if p.correlationId.Some? then h[CORRELATION_ID := IdBytes(p.correlationId.value)] else h;
    var h := if p.replyTo.Some? then h[REPLY_TO := p.replyTo.value] else h;
    var h := if p.messageId.Some? then h[MESSAGE_ID := IdBytes(p.messageId.value)] else h;
    if p.groupId.Some? then h[PARTITION_KEY := p.groupId.value] else h
  }

  /** The headers of the application properties outside `left`. */
  function ReadOutside(application: Application, left: set<string>): Headers {
    map name | name in application && name !in left && ValueBytes(application[name]).Some? :: ValueBytes(application[name]).value
  }

  /** The headers an application-properties section reads as. */
  function ApplicationHeaders(application: Application): Headers {
    ReadOutside(application, {})
  }

  /** The headers of a delivered message: an application property wins over a well-known header of
      the same name, because it is read after it. */
  function HeadersOf(m: Sections): Headers {
    (if m.properties.Some? then PropertyHeaders(m.properties.value) else map[]) +
    (if m.application.Some? then ApplicationHeaders(m.application.value) else map[])
  }

  lemma ReadOneMore(application: Application, left: set<string>, name: string)
    requires name in left && left <= application.Keys
    ensures ReadOutside(application, left - {name}) ==
      if ValueBytes(application[name]).Some?
      then ReadOutside(application, left)[name := ValueBytes(application[name]).value]
      else ReadOutside(application, left)
  {
  }

  /** Puts the application properties over the headers read so far, whatever order they come in. */
  method AddApplicationHeaders(base: Headers, application: Application) returns (headers: Headers)
    ensures headers == base + ApplicationHeaders(application)
  {
    headers := base;
    var left := application.Keys;
    while left != {}
      invariant left <= application.Keys
      invariant headers == base + ReadOutside(application, left)
      decreases left
    {
      var name :| name in left;
      ReadOneMore(application, left, name);
      left := left - {name};
      var value := ValueBytes(application[name]);
      if value.Some? {
        headers := headers[name := value.value];
      }
    }
  }

  /** The bytes of the property that stands for the header `name`. */
  function PropertyBytes(p: Properties, name: string): Option<Bytes> {
    if name == CONTENT_TYPE then p.contentType
    else if name == REPLY_TO then p.replyTo
    else if name == PARTITION_KEY then p.groupId
    else
      var id := if name == CORRELATION_ID then p.correlationId else if name == MESSAGE_ID then p.messageId else None;
      if id.Some? then Some(IdBytes(id.value)) else None
  }

  /** Where the header `name` of a delivered message comes from: an application property of that name,
      where its value has bytes, and else the property that stands for it. */
  function HeaderOf(m: Sections, name: string): Option<Bytes> {
    if m.application.Some? && name in m.application.value && ValueBytes(m.application.value[name]).Some?
    then ValueBytes(m.application.value[name])
    else if m.properties.Some? then PropertyBytes(m.properties.value, name)
    else None
  }

  lemma PropertyReads(p: Properties, name: string)
    ensures At(PropertyHeaders(p), name) == PropertyBytes(p, name)
  {
  }

  lemma HeaderReads(m: Sections, name: string)
    ensures At(HeadersOf(m), name) == HeaderOf(m, name)
  {
    if m.properties.Some? {
      PropertyReads(m.properties.value, name);
    }
  }

  /** Reads the headers of a delivered message. */
  method HeadersFromAmqp(m: Sections) returns (headers: Headers)
    ensures headers == HeadersOf(m)
    ensures forall name :: (if name in headers then Some(headers[name]) else None) == HeaderOf(m, name)
  {
    headers := map[];
    if m.properties.Some? {
      var p := m.properties.value;
      if p.contentType.Some? { headers := headers[CONTENT_TYPE := p.contentType.value]; }
      if p.correlationId.Some? { headers := headers[CORRELATION_ID := IdBytes(p.correlationId.value)]; }
      if p.replyTo.Some? { headers := headers[REPLY_TO := p.replyTo.value]; }
      if p.messageId.Some? { headers := headers[MESSAGE_ID := IdBytes(p.messageId.value)]; }
      if p.groupId.Some? { headers := headers[PARTITION_KEY := p.groupId.value]; }
    }
    if m.application.Some? {
      headers := AddApplicationHeaders(headers, m.application.value);
    }
    forall name ensures At(headers, name) == HeaderOf(m, name) {
      HeaderReads(m, name);
    }
  }

  // -- Round trips -----------------------------------------------------------------------------

  lemma NoWellKnownInApplication(headers: Headers, body: Bytes, correlation: Option<MessageId>, name: string)
    requires WellKnown(name)
    ensures var m := Spread(headers, body, correlation);
      m.application.Some? ==> name !in m.application.value
  {
  }

  lemma PropertiesReadBack(headers: Headers, correlation: Option<MessageId>, name: string)
    requires var p := SpreadProperties(headers);
      var read := PropertyHeaders(if correlation.Some? then p.(correlationId := correlation) else p);
      name in read || (WellKnown(name) && (name in headers || (name == CORRELATION_ID && correlation.Some?)))
    ensures var p := SpreadProperties(headers);
      var read := PropertyHeaders(if correlation.Some? then p.(correlationId := correlation) else p);
      && WellKnown(name) && name in read
      && (if name == CORRELATION_ID && correlation.Some? then read[name] == IdBytes(correlation.value)
          else name in headers && read[name] == headers[name])
  {
  }

  lemma ApplicationReadsBack(headers: Headers)
    ensures ApplicationHeaders(SpreadApplication(headers)) == map name | name in headers && !WellKnown(name) :: headers[name]
  {
  }

  /** What the sections of a header map read as: the properties, absent or not, and the rest. */
  lemma SpreadReads(headers: Headers, body: Bytes, correlation: Option<MessageId>)
    ensures var p := SpreadProperties(headers);
      HeadersOf(Spread(headers, body, correlation)) ==
        PropertyHeaders(if correlation.Some? then p.(correlationId := correlation) else p) +
        (map name | name in headers && !WellKnown(name) :: headers[name])
  {
    ApplicationReadsBack(headers);
    assert PropertyHeaders(NO_PROPERTIES) == map[];
  }

  /** Every header map comes back from the sections as it went in, with only the correlation
      replaced where a typed one was set. */
  lemma {:induction false} HeaderRoundTrip(headers: Headers, body: Bytes, correlation: Option<MessageId>)
    ensures HeadersOf(Spread(headers, body, correlation)) ==
      if correlation.Some? then headers[CORRELATION_ID := IdBytes(correlation.value)] else headers
  {
    var m := Spread(headers, body, correlation);
    var expected := if correlation.Some? then headers[CORRELATION_ID := IdBytes(correlation.value)] else headers;
    ApplicationReadsBack(headers);
    var p := SpreadProperties(headers);
    var typed := if correlation.Some? then p.(correlationId := correlation) else p;
    var read := PropertyHeaders(typed);
    var rest := map name | name in headers && !WellKnown(name) :: headers[name];
    SpreadReads(headers, body, correlation);
    forall name
      ensures name in expected <==> name in read + rest
      ensures name in expected ==> expected[name] == (read + rest)[name]
    {
      if name in read || (WellKnown(name) && (name in headers || (name == CORRELATION_ID && correlation.Some?))) {
        PropertiesReadBack(headers, correlation, name);
      }
    }
  }

  // -- The id a reply correlates to ------------------------------------------------------------

  /** The form of the id a reply correlates to: a text or binary id names the header that holds its
      bytes, a number or a UUID is kept as the value. */
  datatype ReplyId = NoReplyId | StringAt(header: string) | BinaryAt(header: string) | UuidReply(uuid: Uuid) | UlongReply(n: nat)

  function ReplyIdFor(header: string, id: MessageId): ReplyId {
    match id
    case StringId(_) => StringAt(header)
    case BinaryId(_) => BinaryAt(header)
    case UuidId(uuid) => UuidReply(uuid)
    case UlongId(n) => UlongReply(n)
  }

  function ReplyIdOf(properties: Option<Properties>): ReplyId {
    match properties
    case None => NoReplyId
    case Some(p) =>
      if p.correlationId.Some? then ReplyIdFor(CORRELATION_ID, p.correlationId.value)
      else if p.messageId.Some? then ReplyIdFor(MESSAGE_ID, p.messageId.value)
      else NoReplyId
  }

  /** The id a handler's context reports for a delivery. */
  function ReplyCorrelation(headers: Headers, replyId: ReplyId): Option<MessageId> {
    match replyId
    case NoReplyId => None
    case UlongReply(n) => Some(UlongId(n))
    case UuidReply(uuid) => Some(UuidId(uuid))
    case BinaryAt(name) => if name in headers then Some(BinaryId(headers[name])) else None
    case StringAt(name) => if name in headers && IsUtf8(headers[name]) then Some(StringId(headers[name])) else None
  }

  function ContextOf(m: Sections): Option<MessageId> {
    ReplyCorrelation(HeadersOf(m), ReplyIdOf(m.properties))
  }

  /** The id a delivery's properties ask a reply to carry: its correlation id, else its message id. */
  function AskedId(m: Sections): Option<MessageId> {
    if m.properties.None? then None
    else if m.properties.value.correlationId.Some? then m.properties.value.correlationId
    else m.properties.value.messageId
  }

  function AskedHeader(m: Sections): string {
    if m.properties.Some? && m.properties.value.correlationId.Some? then CORRELATION_ID else MESSAGE_ID
  }

  /** For any delivered message, from any peer, the context reports exactly the id the properties
      ask for, in its own type, unless the id is text or binary and an application property of the
      same name reads as other bytes; then it never does. */
  lemma ContextKeepsTheId(m: Sections)
    requires AskedId(m).Some? ==> ValidId(AskedId(m).value)
    ensures ContextOf(m) == AskedId(m) <==>
      var id, name := AskedId(m), AskedHeader(m);
      || id.None? || id.value.UlongId? || id.value.UuidId?
      || m.application.None?
      || name !in ApplicationHeaders(m.application.value)
      || ApplicationHeaders(m.application.value)[name] == IdBytes(id.value)
  {
    if AskedId(m).Some? {
      var p := m.properties.value;
      assert AskedHeader(m) in PropertyHeaders(p) && PropertyHeaders(p)[AskedHeader(m)] == IdBytes(AskedId(m).value);
    }
  }

  /** A typed id set on a publish comes back from the delivery's context as the same value in the
      same type; without one the context reports the form the correlation header took, or else the
      message-id header's. */
  lemma {:induction false} TypedCorrelationRoundTrip(headers: Headers, body: Bytes, correlation: Option<MessageId>)
    requires correlation.Some? ==> ValidId(correlation.value)
    ensures ContextOf(Spread(headers, body, correlation)) ==
      if correlation.Some? then correlation
      else
        var name := if CORRELATION_ID in headers then CORRELATION_ID else MESSAGE_ID;
        if name !in headers then None
        else Some(if IsUtf8(headers[name]) then StringId(headers[name]) else BinaryId(headers[name]))
  {
    var m := Spread(headers, body, correlation);
    NoWellKnownInApplication(headers, body, correlation, CORRELATION_ID);
    NoWellKnownInApplication(headers, body, correlation, MESSAGE_ID);
    ContextKeepsTheId(m);
  }

  /** A foreign message whose application properties reuse the name of the id's header: the context
      reports the property's bytes and loses the id. */
  lemma ReusedNameHidesTheId()
    ensures exists m: Sections :: AskedId(m) == Some(StringId([1])) && ContextOf(m) == Some(StringId([2]))
  {
    var m := Sections(Some(NO_PROPERTIES.(correlationId := Some(StringId([1])))),
                      Some(map[CORRELATION_ID := StringValue([2])]), []);
    assert IsUtf8([2]) by { AsciiIsUtf8([2]); }
    assert CORRELATION_ID in ApplicationHeaders(m.application.value);
    assert ContextOf(m) == Some(StringId([2]));
    assert AskedId(m) == Some(StringId([1]));
  }

  // -- Requests and replies --------------------------------------------------------------------

  /** A delivery as a subscription reads it. */
  datatype Read = Read(payload: Bytes, headers: Headers, replyId: ReplyId)

  function ReadOf(m: Sections): Read {
    Read(m.body, HeadersOf(m), ReplyIdOf(m.properties))
  }

  /** The in-process request: frame the message, then overwrite the framed headers. */
  function FrameThenAddress(headers: Headers, body: Bytes, replyTo: Bytes, correlation: Bytes): Read {
    var framed := ReadOf(Spread(headers, body, None));
    framed.(headers := framed.headers[REPLY_TO := replyTo][CORRELATION_ID := correlation],
            replyId := StringAt(CORRELATION_ID))
  }

  /** The live request: build the message, then overwrite its properties. */
  function AddressThenFrame(headers: Headers, body: Bytes, replyTo: Bytes, correlation: Bytes): Read {
    var m := Spread(headers, body, None);
    var p := if m.properties.Some? then m.properties.value else NO_PROPERTIES;
    ReadOf(m.(properties := Some(p.(replyTo := Some(replyTo), correlationId := Some(StringId(correlation))))))
  }

  lemma OverwrittenProperties(p: Properties, replyTo: Bytes, correlation: Bytes)
    ensures PropertyHeaders(p.(replyTo := Some(replyTo), correlationId := Some(StringId(correlation)))) ==
      PropertyHeaders(p)[REPLY_TO := replyTo][CORRELATION_ID := correlation]
  {
  }

  /** What a request reads as: the reply address and the correlation it was given, its body, and every
      other header as it was; and a reply correlates to it by that text. */
  lemma RequestCarries(headers: Headers, body: Bytes, replyTo: Bytes, correlation: Bytes)
    ensures var read := FrameThenAddress(headers, body, replyTo, correlation);
      && read.payload == body && read.replyId == StringAt(CORRELATION_ID)
      && read.headers == headers[REPLY_TO := replyTo][CORRELATION_ID := correlation]
  {
    HeaderRoundTrip(headers, body, None);
  }

  /** A request reads the same on both transports. */
  lemma {:induction false} BothRequestsReadTheSame(headers: Headers, body: Bytes, replyTo: Bytes, correlation: Bytes)
    ensures FrameThenAddress(headers, body, replyTo, correlation) == AddressThenFrame(headers, body, replyTo, correlation)
  {
    var m := Spread(headers, body, None);
    var p := if m.properties.Some? then m.properties.value else NO_PROPERTIES;
    OverwrittenProperties(p, replyTo, correlation);
    NoWellKnownInApplication(headers, body, None, REPLY_TO);
    NoWellKnownInApplication(headers, body, None, CORRELATION_ID);
    var app := if m.application.Some? then ApplicationHeaders(m.application.value) else map[];
    assert PropertyHeaders(p)[REPLY_TO := replyTo][CORRELATION_ID := correlation] + app ==
           (PropertyHeaders(p) + app)[REPLY_TO := replyTo][CORRELATION_ID := correlation];
    assert PropertyHeaders(NO_PROPERTIES) == map[];
  }

  /** A responder that puts its context's correlation on the reply answers the very request: the
      requester, which compares the reply's correlation header, recognises it. */
  lemma CorrelatedReplyIsRecognised(headers: Headers, body: Bytes, replyTo: Bytes, correlation: Bytes, replyHeaders: Headers, replyBody: Bytes)
    requires IsUtf8(correlation)
    ensures var request := FrameThenAddress(headers, body, replyTo, correlation);
      var reply := Spread(replyHeaders, replyBody, ReplyCorrelation(request.headers, request.replyId));
      CORRELATION_ID in HeadersOf(reply) && HeadersOf(reply)[CORRELATION_ID] == correlation
  {
    var request := FrameThenAddress(headers, body, replyTo, correlation);
    HeaderRoundTrip(replyHeaders, replyBody, ReplyCorrelation(request.headers, request.replyId));
  }

  // -- The payload -----------------------------------------------------------------------------

  datatype Body = DataSections(sections: seq<Bytes>) | BinaryBody(bytes: Bytes) | StringBody(text: Bytes) | ForeignValue | EmptyBody | SequenceBody

  function Joined(sections: seq<Bytes>): Bytes {
    if sections == [] then [] else sections[0] + Joined(sections[1..])
  }

  lemma {:induction false} JoinedAppend(sections: seq<Bytes>, last: Bytes)
    ensures Joined(sections + [last]) == Joined(sections) + last
  {
    if sections != [] {
      assert (sections + [last])[1..] == sections[1..] + [last];
      JoinedAppend(sections[1..], last);
    } else {
      assert Joined([last]) == last + Joined([]);
    }
  }

  /** Where section `k` starts in the joined payload. */
  function StartOf(sections: seq<Bytes>, k: nat): nat
    requires k <= |sections|
  {
    if k == 0 then 0 else |sections[0]| + StartOf(sections[1..], k - 1)
  }

  /** Every byte of every section is in the payload, in its place, and nothing else is. */
  lemma {:induction false} JoinedAt(sections: seq<Bytes>, k: nat)
    requires k <= |sections|
    ensures StartOf(sections, k) <= |Joined(sections)| == StartOf(sections, |sections|)
    ensures k < |sections| ==>
      && StartOf(sections, k) + |sections[k]| <= |Joined(sections)|
      && Joined(sections)[StartOf(sections, k)..StartOf(sections, k) + |sections[k]|] == sections[k]
  {
    if sections != [] {
      var rest := Joined(sections[1..]);
      assert Joined(sections) == sections[0] + rest;
      if k == 0 {
        JoinedAt(sections[1..], 0);
      } else {
        JoinedAt(sections[1..], k - 1);
        var at := StartOf(sections[1..], k - 1);
        if k < |sections| {
          assert (sections[0] + rest)[|sections[0]| + at..|sections[0]| + at + |sections[k]|] == rest[at..at + |sections[k]|];
        }
      }
    }
  }

  /** The payload of a delivered body: its data sections joined in order, a text or binary value's
      bytes, nothing for an empty body; any other body is refused, naming the address. */
  method PayloadFromBody(body: Body, address: string) returns (r: Result<Bytes, Error>)
    ensures r == match body
      case DataSections(sections) => Ok(Joined(sections))
      case BinaryBody(bytes) => Ok(bytes)
      case StringBody(text) => Ok(text)
      case EmptyBody => Ok([])
      case ForeignValue => Err(UnsupportedBody(address))
      case SequenceBody => Err(UnsupportedBody(address))
  {
    match body
    case DataSections(sections) =>
      if sections == [] {
        return Ok([]);
      }
      var all := sections[0];
      assert sections[..1] == [sections[0]] && Joined(sections[..1]) == sections[0] + Joined([]);
      for i := 1 to |sections|
        invariant all == Joined(sections[..i])
      {
        JoinedAppend(sections[..i], sections[i]);
        assert sections[..i + 1] == sections[..i] + [sections[i]];
        all := all + sections[i];
      }
      assert sections[..|sections|] == sections;
      return Ok(all);
    case BinaryBody(bytes) => return Ok(bytes);
    case StringBody(text) => return Ok(text);
    case EmptyBody => return Ok([]);
    case ForeignValue => return Err(UnsupportedBody(address));
    case SequenceBody => return Err(UnsupportedBody(address));
  }
}
