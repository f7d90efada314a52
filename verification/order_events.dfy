/** The order-events writer: each published order event becomes one row of the events table. */
module OrderEvents {
  import opened Wrappers
  import opened Text
  import opened EventsTable

  /** The inner event as the writer reads it (billing and shipping are not used). */
  datatype IncomingOrderEvent = IncomingOrderEvent(
    email: string,
    orderId: string,
    requestId: string,
    productCodes: seq<string>)

  /** The parsed envelope; `data` is `None` when its JSON text does not parse. */
  datatype IncomingEnvelope = IncomingEnvelope(eventType: string, data: Option<IncomingOrderEvent>)

  /** An SNS message; `message` is `None` when its JSON text does not parse. */
  datatype SnsMessage = SnsMessage(messageId: string, message: Option<IncomingEnvelope>)

  datatype OrderEventInfo = OrderEventInfo(orderId: string, productCodes: seq<string>, messageId: string)

  datatype OrderEventItem = OrderEventItem(
    pk: string,
    sk: string,
    ttl: nat,
    email: string,
    createdAt: nat,
    requestId: string,
    eventType: string,
    info: OrderEventInfo)

  predicate Parses(m: SnsMessage) {
    m.message.Some? && m.message.value.data.Some?
  }

  /** `createEvent` of a message whose envelope and data parse, at time `now` (ms). */
  function CreateEvent(m: SnsMessage, now: nat): OrderEventItem
    requires Parses(m)
  {
    var envelope := m.message.value;
    var event := envelope.data.value;
    OrderEventItem(
      "#order_" + event.orderId,
      EventSk(envelope.eventType, now),
      ExpiresAt(now, FiveMinutes),
      event.email,
      now,
      event.requestId,
      envelope.eventType,
      OrderEventInfo(event.orderId, event.productCodes, m.messageId))
  }

  /** The row's keys, expiry and copied fields. */
  lemma OrderEventRow(m: SnsMessage, now: nat)
    requires Parses(m) && '#' !in m.message.value.eventType
    ensures var item := CreateEvent(m, now);
      var event := m.message.value.data.value;
      && item.pk == "#order_" + event.orderId
      && Split(item.sk, '#') == [m.message.value.eventType, NatToString(now)]
      && item.ttl == now / 1000 + 300
      && item.info == OrderEventInfo(event.orderId, event.productCodes, m.messageId)
      && (item.email, item.requestId, item.eventType, item.createdAt)
         == (event.email, event.requestId, m.message.value.eventType, now)
  {
    EventSkParts(m.message.value.eventType, now);
  }

  /**
   * The rows `handler` writes: `createEvent` runs inside `map`, so the first message that does
   * not parse throws and no later message is handled.
   */
  function Written(records: seq<SnsMessage>, clock: seq<nat>): seq<OrderEventItem>
    requires |clock| == |records|
    decreases |records|
  {
    if records == [] || !Parses(records[0]) then []
    else [CreateEvent(records[0], clock[0])] + Written(records[1..], clock[1..])
  }

  predicate AllParse(records: seq<SnsMessage>) {
    forall i | 0 <= i < |records| :: Parses(records[i])
  }

  /** When every message parses, exactly one row is written per message, in order. */
  lemma {:induction false} OneRowPerMessage(records: seq<SnsMessage>, clock: seq<nat>)
    requires |clock| == |records| && AllParse(records)
    ensures |Written(records, clock)| == |records|
    ensures forall i | 0 <= i < |records| :: Written(records, clock)[i] == CreateEvent(records[i], clock[i])
    decreases |records|
  {
    if records != [] {
      assert AllParse(records[1..]) by {
        forall i | 0 <= i < |records[1..]| ensures Parses(records[1..][i]) {
          assert records[1..][i] == records[i + 1];
        }
      }
      OneRowPerMessage(records[1..], clock[1..]);
    }
  }

  /** Rows are written only for the messages before the first one that does not parse. */
  lemma {:induction false} StopsAtUnparseable(records: seq<SnsMessage>, clock: seq<nat>, k: nat)
    requires |clock| == |records| && k < |records| && !Parses(records[k])
    ensures |Written(records, clock)| <= k
    decreases |records|
  {
    if records != [] && Parses(records[0]) {
      assert records[1..][k - 1] == records[k];
      StopsAtUnparseable(records[1..], clock[1..], k - 1);
    }
  }

  /** `handler`; `clock[i]` is the time message i is handled. */
  method Handler(log: PutLog<OrderEventItem>, records: seq<SnsMessage>, clock: seq<nat>)
    returns (succeeded: bool)
    requires |clock| == |records|
    modifies log
    ensures log.items == old(log.items) + Written(records, clock)
    ensures succeeded == AllParse(records)
  {
    var i := 0;
    while i < |records| && Parses(records[i])
      invariant 0 <= i <= |records|
      invariant forall j | 0 <= j < i :: Parses(records[j])
      invariant old(log.items) + Written(records, clock) == log.items + Written(records[i..], clock[i..])
    {
      assert records[i..][1..] == records[i + 1..];
      assert clock[i..][1..] == clock[i + 1..];
      log.Put(CreateEvent(records[i], clock[i]));
      i := i + 1;
    }
    succeeded := i == |records|;
    if !succeeded {
      assert !AllParse(records);
    }
  }
}
