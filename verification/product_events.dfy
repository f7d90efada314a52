/** The product-events writer: each product event becomes one row of the events table. */
module ProductEvents {
  import opened Text
  import opened EventsTable

  /** The event the function is invoked with; prices are integers (cents). */
  datatype ProductEvent = ProductEvent(
    requestId: string,
    eventType: string,
    productId: string,
    productCode: string,
    productPrice: int,
    email: string)

  datatype ProductEventInfo = ProductEventInfo(productId: string, productPrice: int)

  datatype ProductEventItem = ProductEventItem(
    pk: string,
    sk: string,
    email: string,
    createdAt: nat,
    requestId: string,
    eventType: string,
    info: ProductEventInfo,
    ttl: nat)

  /** The JSON text handed to the callback. */
  datatype CallbackReply = CallbackReply(productEventCreated: bool, message: string)

  /** `createEvent` at time `now` (ms). */
  function CreateEvent(event: ProductEvent, now: nat): ProductEventItem {
    ProductEventItem(
      "#product_" + event.productCode,
      EventSk(event.eventType, now),
      event.email,
      now,
      event.requestId,
      event.eventType,
      ProductEventInfo(event.productId, event.productPrice),
      ExpiresAt(now, FiveMinutes))
  }

  /** `handler`: the row is put, and only then is the callback answered. */
  method Handler(log: PutLog<ProductEventItem>, event: ProductEvent, now: nat) returns (reply: CallbackReply)
    modifies log
    ensures log.items == old(log.items) + [CreateEvent(event, now)]
    ensures reply == CallbackReply(true, "OK")
  {
    log.Put(CreateEvent(event, now));
    reply := CallbackReply(true, "OK");
  }

  /** The row's keys, expiry and copied fields. */
  lemma ProductEventRow(event: ProductEvent, now: nat)
    requires '#' !in event.eventType
    ensures var item := CreateEvent(event, now);
      && item.pk == "#product_" + event.productCode
      && Split(item.sk, '#') == [event.eventType, NatToString(now)]
      && item.ttl == now / 1000 + 300
      && item.createdAt == now
      && item.info == ProductEventInfo(event.productId, event.productPrice)
      && (item.email, item.requestId, item.eventType) == (event.email, event.requestId, event.eventType)
  {
    EventSkParts(event.eventType, now);
  }
}
