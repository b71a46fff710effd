/**
  The two event contracts, the envelope every event travels in, and the way an envelope becomes
  an outbox message, a Kafka record, and a handler's input again.

  A JSON document is its decoded value, and a SHA-256 digest of canonical JSON is that value too:
  both encodings are injective. Times are whole nanoseconds, and zero is Go's zero time.
 */
module Events {
  import opened Wrappers
  import opened Texts
  import opened Money
  import opened OrderDomain

  datatype OrderCreated = OrderCreated(
    orderId: string, userId: string, restaurantId: string, status: Status, total: int64, items: seq<OrderItem>)

  datatype StatusChanged = StatusChanged(
    callbackId: string, orderId: string, restaurantId: string, externalStoreId: string, status: Status, occurredAt: int)

  const ORDER_CREATED := "order.created.v1"
  const ORDER_ACCEPTED := "partner.order_accepted.v1"
  const ORDER_REJECTED := "partner.order_rejected.v1"

  datatype Envelope<B> = Envelope(
    eventId: string, eventType: string, eventVersion: int, occurredAt: int, producer: string,
    aggregateType: string, aggregateId: string, partitionKey: string,
    correlationId: string, causationId: string, payload: B)

  // NewEnvelope; `now` stands in when the caller left the time zero. JSON bytes are never empty.
  function NewEnvelope<B>(e: Envelope<B>, now: int): Option<Envelope<B>> {
    if e.eventId == "" || e.eventType == "" || e.eventVersion <= 0 || e.producer == "" ||
       e.aggregateType == "" || e.aggregateId == "" || e.partitionKey == ""
    then None
    else Some(if e.occurredAt == 0 then e.(occurredAt := now) else e)
  }

  datatype Message<B> = Message(eventId: string, topic: string, key: string, value: B, headers: map<string, string>)

  // messageFromRow: what an outbox row is published as.
  function RowMessage<B>(topic: string, e: Envelope<B>): Message<B> {
    Message(e.eventId, topic, e.partitionKey, e.payload,
      map["aggregate_id" := e.aggregateId, "aggregate_type" := e.aggregateType,
          "causation_id" := e.causationId, "correlation_id" := e.correlationId,
          "event_id" := e.eventId, "event_type" := e.eventType,
          "event_version" := Decimal(e.eventVersion),
          "occurred_at" := Decimal(e.occurredAt), "producer" := e.producer])
  }

  datatype Header = Header(key: string, value: string)

  datatype KafkaMessage<B> = KafkaMessage(topic: string, key: string, value: B, headers: seq<Header>)

  datatype Record<B> = Record(topic: string, key: string, value: B, headers: map<string, string>)

  predicate SortedHeaders(headers: seq<Header>) {
    forall i, j :: 0 <= i < j < |headers| ==>
      Leq(headers[i].key, headers[j].key) && headers[i].key != headers[j].key
  }

  // A header list that says what a map says, once per key and in key order.
  ghost predicate Lists(headers: seq<Header>, m: map<string, string>) {
    SortedHeaders(headers) &&
    (forall i :: 0 <= i < |headers| ==> headers[i].key in m && headers[i].value == m[headers[i].key]) &&
    (forall k :: k in m ==> exists i :: 0 <= i < |headers| && headers[i].key == k)
  }

  // Go ranges over a map in no particular order; sorting the collected keys makes the list unique.
  method SortedKeys(m: map<string, string>) returns (keys: seq<string>)
    ensures Sorted(keys)
    ensures forall i, j :: 0 <= i < j < |keys| ==> keys[i] != keys[j]
    ensures forall key :: key in m <==> key in keys
  {
    keys := [];
    var rest := m.Keys;
    while rest != {}
      invariant forall i, j :: 0 <= i < j < |keys| ==> keys[i] != keys[j]
      invariant forall key :: key in m <==> key in keys || key in rest
      invariant forall key :: key in keys ==> key !in rest
    {
      var key :| key in rest;
      keys := keys + [key];
      rest := rest - {key};
    }
    SortKeepsDistinct(keys);
    forall key ensures key in keys <==> key in Sort(keys) {
      assert key in keys <==> key in multiset(keys);
      assert key in Sort(keys) <==> key in multiset(Sort(keys));
    }
    keys := Sort(keys);
  }

  method BuildKafkaMessage<B>(message: Message<B>) returns (k: KafkaMessage<B>)
    ensures k.topic == message.topic && k.key == message.key && k.value == message.value
    ensures Lists(k.headers, message.headers["event_id" := message.eventId])
  {
    var headers := message.headers["event_id" := message.eventId];
    var keys := SortedKeys(headers);
    var listed: seq<Header> := [];
    for i := 0 to |keys|
      invariant |listed| == i
      invariant forall j :: 0 <= j < i ==> listed[j] == Header(keys[j], headers[keys[j]])
    {
      listed := listed + [Header(keys[i], headers[keys[i]])];
    }
    forall key | key in headers ensures exists i :: 0 <= i < |listed| && listed[i].key == key {
      var i :| 0 <= i < |keys| && keys[i] == key;
      assert listed[i].key == key;
    }
    k := KafkaMessage(message.topic, message.key, message.value, listed);
  }

  lemma {:induction false} SortKeepsDistinct(s: seq<string>)
    requires forall i, j :: 0 <= i < j < |s| ==> s[i] != s[j]
    ensures forall i, j :: 0 <= i < j < |s| ==> Sort(s)[i] != Sort(s)[j]
  {
    forall i, j | 0 <= i < j < |s| ensures Sort(s)[i] != Sort(s)[j] {
      var t := Sort(s);
      if t[i] == t[j] {
        TwiceInMultiset(t, i, j);
        OnceInMultiset(s, t[i]);
      }
    }
  }

  lemma TwiceInMultiset(s: seq<string>, i: nat, j: nat)
    requires i < j < |s| && s[i] == s[j]
    ensures multiset(s)[s[i]] >= 2
  {
    assert s == s[..i] + [s[i]] + s[i + 1..j] + [s[j]] + s[j + 1..];
  }

  lemma OnceInMultiset(s: seq<string>, x: string)
    requires forall i, j :: 0 <= i < j < |s| ==> s[i] != s[j]
    ensures multiset(s)[x] <= 1
  {
    if x in s {
      var i :| 0 <= i < |s| && s[i] == x;
      assert s == s[..i] + [s[i]] + s[i + 1..];
      assert x !in multiset(s[..i]) && x !in multiset(s[i + 1..]);
    } else {
      assert x !in multiset(s);
    }
  }

  // Fetch: the record a consumer hands to its handler.
  method Fetch<B>(k: KafkaMessage<B>) returns (r: Record<B>)
    ensures r.topic == k.topic && r.key == k.key && r.value == k.value
    ensures forall m :: Lists(k.headers, m) ==> r.headers == m
  {
    var headers: map<string, string> := map[];
    for i := 0 to |k.headers|
      invariant forall key :: key in headers <==> exists j :: 0 <= j < i && k.headers[j].key == key
      invariant forall m :: Lists(k.headers, m) ==> forall key :: key in headers ==> key in m && headers[key] == m[key]
    {
      var before := headers;
      headers := headers[k.headers[i].key := k.headers[i].value];
      forall key ensures key in headers <==> exists j :: 0 <= j < i + 1 && k.headers[j].key == key {
        if key in headers {
          if key in before {
            var j :| 0 <= j < i && k.headers[j].key == key;
          } else {
            assert k.headers[i].key == key;
          }
        }
      }
    }
    r := Record(k.topic, k.key, k.value, headers);
  }

  // The record every delivery of a message yields.
  function Received<B>(message: Message<B>): Record<B> {
    Record(message.topic, message.key, message.value, message.headers["event_id" := message.eventId])
  }

  /** Publishing and fetching carry a message through Kafka unchanged. */
  method Transport<B>(message: Message<B>) returns (r: Record<B>)
    ensures r == Received(message)
  {
    var k := BuildKafkaMessage(message);
    r := Fetch(k);
  }

  function HeaderOf<B>(r: Record<B>, key: string): string {
    if key in r.headers then r.headers[key] else ""
  }

  // What partner-service's consumer needs from an order event.
  datatype OrderReceipt = OrderReceipt(eventId: string, correlationId: string, payload: OrderCreated)

  predicate ItemAccepted(item: OrderItem) {
    item.menuItemId != "" && item.name != "" && item.unitPrice > 0 && item.quantity > 0 &&
    item.lineTotal == LineTotal(item.unitPrice, item.quantity)
  }

  predicate PayloadAccepted(p: OrderCreated, key: string) {
    p.orderId != "" && p.orderId == key && p.userId != "" && p.restaurantId != "" &&
    p.status == Pending && p.total > 0 && p.items != [] &&
    (forall i :: 0 <= i < |p.items| ==> ItemAccepted(p.items[i])) &&
    p.total == Wrap(Sum(LineTotals(p.items)))
  }

  method ValidatePayload(p: OrderCreated, key: string) returns (ok: bool)
    ensures ok <==> PayloadAccepted(p, key)
  {
    if p.orderId == "" || p.orderId != key || p.userId == "" || p.restaurantId == "" ||
       p.status != Pending || p.total <= 0 || |p.items| == 0 {
      return false;
    }
    ghost var lines := LineTotals(p.items);
    var total: int64 := 0;
    for i := 0 to |p.items|
      invariant total == Wrap(Sum(lines[..i]))
      invariant forall j :: 0 <= j < i ==> ItemAccepted(p.items[j])
    {
      var item := p.items[i];
      if item.menuItemId == "" || item.name == "" || item.unitPrice <= 0 || item.quantity <= 0 ||
         item.lineTotal != LineTotal(item.unitPrice, item.quantity) {
        return false;
      }
      WrapStep(lines, i);
      total := Wrap(total + item.lineTotal);
    }
    assert lines[..|p.items|] == lines;
    return total == p.total;
  }

  // The order consumer and HandleOrderCreated, up to the store call.
  function ReadOrderCreated(r: Record<OrderCreated>): Option<OrderReceipt> {
    var eventType := HeaderOf(r, "event_type");
    if HeaderOf(r, "event_id") == "" || eventType == "" || HeaderOf(r, "event_version") == "" || r.key == "" then None
    else if Atoi(HeaderOf(r, "event_version")) != Some(1) || eventType != ORDER_CREATED then None
    else if !PayloadAccepted(r.value, r.key) then None
    else Some(OrderReceipt(HeaderOf(r, "event_id"), HeaderOf(r, "correlation_id"), r.value))
  }

  // What the order service applies for a partner event; the payload is its own fingerprint.
  datatype PartnerEvent = PartnerEvent(
    eventId: string, eventType: string, orderId: string, newStatus: Status, fingerprint: StatusChanged)

  function DecisionType(status: Status): Option<string> {
    match status
    case Accepted => Some(ORDER_ACCEPTED)
    case Rejected => Some(ORDER_REJECTED)
    case _ => None
  }

  // Handle and validatePartnerStatusPayload, up to the service call.
  function ReadStatusChanged(r: Record<StatusChanged>): Option<PartnerEvent> {
    var eventId := HeaderOf(r, "event_id");
    var eventType := HeaderOf(r, "event_type");
    var p := r.value;
    if Atoi(HeaderOf(r, "event_version")) != Some(1) || eventId == "" ||
       HeaderOf(r, "producer") != "partner-service" || HeaderOf(r, "aggregate_type") != "order" || r.key == ""
    then None
    else if p.callbackId == "" || p.orderId == "" || p.restaurantId == "" || p.externalStoreId == "" ||
            p.occurredAt == 0 || p.orderId != r.key || p.orderId != HeaderOf(r, "aggregate_id")
    then None
    else if eventType == ORDER_ACCEPTED && p.status == Accepted then
      Some(PartnerEvent(eventId, eventType, p.orderId, Accepted, p))
    else if eventType == ORDER_REJECTED && p.status == Rejected then
      Some(PartnerEvent(eventId, eventType, p.orderId, Rejected, p))
    else None
  }

  // The order.created.v1 event the order service writes for a new order.
  function OrderEvent(order: Order, eventId: string, requestId: string, key: string, now: int): Option<Envelope<OrderCreated>> {
    NewEnvelope(
      Envelope(eventId, ORDER_CREATED, 1, now, "order-service", "order", order.id, order.id, requestId, key,
               OrderCreated(order.id, order.userId, order.restaurantId, order.status, order.total, order.items)), now)
  }

  // A restaurant's status callback as it reaches partner-service.
  datatype Callback = Callback(
    callbackId: string, orderId: string, restaurantId: string, externalStoreId: string, status: Status, occurredAt: int)

  function CallbackPayload(c: Callback): StatusChanged {
    StatusChanged(c.callbackId, c.orderId, c.restaurantId, c.externalStoreId, c.status, c.occurredAt)
  }

  // validateAndEventType; the bearer token is never empty here.
  function CallbackType(c: Callback): Option<string> {
    if c.callbackId == "" || c.orderId == "" || c.restaurantId == "" || c.externalStoreId == "" || c.occurredAt == 0
    then None
    else DecisionType(c.status)
  }

  // The partner event a valid callback asks for.
  function CallbackEvent(c: Callback, eventId: string, requestId: string, now: int): Option<Envelope<StatusChanged>> {
    match CallbackType(c)
    case None => None
    case Some(eventType) =>
      if eventId == "" then None
      else NewEnvelope(
        Envelope(eventId, eventType, 1, now, "partner-service", "order", c.orderId, c.orderId, requestId, c.callbackId,
                 CallbackPayload(c)), now)
  }

  // ----- envelopes, messages and handlers, field by field -----

  lemma NewEnvelopeFields<B>(e: Envelope<B>, now: int)
    ensures NewEnvelope(e, now).Some? <==>
      e.eventId != "" && e.eventType != "" && e.eventVersion > 0 && e.producer != "" &&
      e.aggregateType != "" && e.aggregateId != "" && e.partitionKey != ""
    ensures NewEnvelope(e, now).Some? ==>
      NewEnvelope(e, now).value == e.(occurredAt := NewEnvelope(e, now).value.occurredAt) &&
      NewEnvelope(e, now).value.occurredAt == if e.occurredAt == 0 then now else e.occurredAt
  {
  }

  /** An order's event: keyed by the order, caused by the idempotency key, correlated by the request, and a copy of the order. */
  lemma OrderEventFields(order: Order, eventId: string, requestId: string, key: string, now: int)
    ensures OrderEvent(order, eventId, requestId, key, now).Some? <==> eventId != "" && order.id != ""
    ensures OrderEvent(order, eventId, requestId, key, now).Some? ==>
      var e := OrderEvent(order, eventId, requestId, key, now).value;
      e.eventId == eventId && e.eventType == ORDER_CREATED && e.eventVersion == 1 && e.occurredAt == now &&
      e.producer == "order-service" && e.aggregateType == "order" && e.aggregateId == e.partitionKey == order.id &&
      e.correlationId == requestId && e.causationId == key &&
      e.payload.orderId == order.id && e.payload.userId == order.userId && e.payload.restaurantId == order.restaurantId &&
      e.payload.status == order.status && e.payload.total == order.total && e.payload.items == order.items
  {
  }

  /** What a record carries of its envelope: key, value, and each of the nine headers. */
  lemma RecordCarries<B>(topic: string, e: Envelope<B>)
    ensures var r := Received(RowMessage(topic, e));
      r.topic == topic && r.key == e.partitionKey && r.value == e.payload &&
      HeaderOf(r, "event_id") == e.eventId && HeaderOf(r, "event_type") == e.eventType &&
      Atoi(HeaderOf(r, "event_version")) == Some(e.eventVersion) && Atoi(HeaderOf(r, "occurred_at")) == Some(e.occurredAt) &&
      HeaderOf(r, "producer") == e.producer && HeaderOf(r, "aggregate_type") == e.aggregateType &&
      HeaderOf(r, "aggregate_id") == e.aggregateId && HeaderOf(r, "correlation_id") == e.correlationId &&
      HeaderOf(r, "causation_id") == e.causationId
  {
    DecimalRoundTrip(e.eventVersion);
    DecimalRoundTrip(e.occurredAt);
  }

  // So no two envelopes are published alike.
  lemma RecordsIdentify<B>(topic: string, e: Envelope<B>, f: Envelope<B>)
    requires Received(RowMessage(topic, e)) == Received(RowMessage(topic, f))
    ensures e == f
  {
    RecordCarries(topic, e);
    RecordCarries(topic, f);
  }

  /** The order handler reads exactly the complete version-one order events whose payload adds up, and takes their ids and payload. */
  lemma ReadOrderFields(r: Record<OrderCreated>)
    ensures var p := r.value;
      ReadOrderCreated(r).Some? <==>
        HeaderOf(r, "event_id") != "" && HeaderOf(r, "event_type") == ORDER_CREATED &&
        HeaderOf(r, "event_version") != "" && Atoi(HeaderOf(r, "event_version")) == Some(1) &&
        p.orderId != "" && p.orderId == r.key && p.userId != "" && p.restaurantId != "" && p.status == Pending &&
        p.items != [] && p.total > 0 && p.total == Wrap(Sum(LineTotals(p.items))) &&
        forall i :: 0 <= i < |p.items| ==>
          p.items[i].menuItemId != "" && p.items[i].name != "" && p.items[i].unitPrice > 0 && p.items[i].quantity > 0 &&
          p.items[i].lineTotal == Wrap(p.items[i].unitPrice * p.items[i].quantity)
    ensures ReadOrderCreated(r).Some? ==>
      var receipt := ReadOrderCreated(r).value;
      receipt.eventId == HeaderOf(r, "event_id") && receipt.correlationId == HeaderOf(r, "correlation_id") &&
      receipt.payload == r.value
  {
    assert forall i :: 0 <= i < |r.value.items| ==> (ItemAccepted(r.value.items[i]) <==>
      r.value.items[i].menuItemId != "" && r.value.items[i].name != "" && r.value.items[i].unitPrice > 0 &&
      r.value.items[i].quantity > 0 && r.value.items[i].lineTotal == Wrap(r.value.items[i].unitPrice * r.value.items[i].quantity));
  }

  /** The status handler reads exactly partner-service's complete version-one decisions about the record's own order. */
  lemma ReadStatusFields(r: Record<StatusChanged>)
    ensures var p := r.value;
      ReadStatusChanged(r).Some? <==>
        Atoi(HeaderOf(r, "event_version")) == Some(1) && HeaderOf(r, "event_id") != "" &&
        HeaderOf(r, "producer") == "partner-service" && HeaderOf(r, "aggregate_type") == "order" &&
        p.callbackId != "" && p.orderId != "" && p.restaurantId != "" && p.externalStoreId != "" && p.occurredAt != 0 &&
        p.orderId == r.key && p.orderId == HeaderOf(r, "aggregate_id") &&
        ((HeaderOf(r, "event_type") == ORDER_ACCEPTED && p.status == Accepted) ||
         (HeaderOf(r, "event_type") == ORDER_REJECTED && p.status == Rejected))
    ensures ReadStatusChanged(r).Some? ==>
      var e := ReadStatusChanged(r).value;
      e.eventId == HeaderOf(r, "event_id") && e.eventType == HeaderOf(r, "event_type") && e.orderId == r.value.orderId &&
      e.newStatus == r.value.status && e.fingerprint == r.value
  {
  }

  /** A partner event, published and read back, asks the order service for exactly the callback's decision. */
  lemma CallbackEventReads(topic: string, c: Callback, eventId: string, requestId: string, now: int)
    requires CallbackEvent(c, eventId, requestId, now).Some?
    ensures var e := CallbackEvent(c, eventId, requestId, now).value;
      ReadStatusChanged(Received(RowMessage(topic, e))) ==
      Some(PartnerEvent(eventId, e.eventType, c.orderId, c.status, CallbackPayload(c)))
  {
    DecimalRoundTrip(1);
  }

  /**
    Money agreement: partner-service recomputes exactly the total NewOrder stored, so it accepts a
    new order's event if and only if the price, wrapped to int64, is positive.
   */
  lemma OrderEventReads(topic: string, input: NewOrderInput, eventId: string, requestId: string, key: string, now: int)
    requires OrderFor(input).Success? && eventId != ""
    ensures var order := OrderFor(input).value;
      OrderEvent(order, eventId, requestId, key, now).Some? &&
      var e := OrderEvent(order, eventId, requestId, key, now).value;
      ReadOrderCreated(Received(RowMessage(topic, e))) ==
      if Wrap(Sum(ExactLines(input.items))) > 0 then Some(OrderReceipt(eventId, requestId, e.payload)) else None
  {
    DecimalRoundTrip(1);
    LineTotalsWrap(input.items);
  }

  // A price that fits in int64 is always accepted.
  lemma FittingPriceIsPositive(input: NewOrderInput)
    requires OrderFor(input).Success? && InInt64(Sum(ExactLines(input.items)))
    ensures OrderFor(input).value.total == Sum(ExactLines(input.items)) > 0
  {
    forall i | 0 <= i < |input.items| ensures ExactLines(input.items)[i] > 0 {
      PositiveProduct(input.items[i].unitPrice, input.items[i].quantity);
    }
    SumPositive(ExactLines(input.items));
  }

  lemma PositiveProduct(x: int, y: int)
    requires x > 0 && y > 0
    ensures x * y > 0
  {
  }
}
