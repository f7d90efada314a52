/** The order-events query API: a customer's order events, optionally of one type. */
module OrderEventsFetch {
  import opened Wrappers
  import opened Http
  import opened OrderEvents

  /** The two queries of the events repository. */
  datatype EventQuery = ByEmail(email: string) | ByEmailAndType(email: string, eventType: string)

  /** One event as the API answers it. */
  datatype OrderEventSummary = OrderEventSummary(
    email: string,
    createdAt: nat,
    eventType: string,
    requestId: string,
    orderId: string,
    productCodes: seq<string>)

  function Summary(item: OrderEventItem): OrderEventSummary {
    OrderEventSummary(item.email, item.createdAt, item.eventType, item.requestId,
                      item.info.orderId, item.info.productCodes)
  }

  /** `convertOrderEvents`. */
  function ConvertOrderEvents(events: seq<OrderEventItem>): (out: seq<OrderEventSummary>)
    ensures |out| == |events|
    ensures forall i | 0 <= i < |out| ::
      && out[i].email == events[i].email && out[i].createdAt == events[i].createdAt
      && out[i].eventType == events[i].eventType && out[i].requestId == events[i].requestId
      && out[i].orderId == events[i].info.orderId && out[i].productCodes == events[i].info.productCodes
    decreases |events|
  {
    if events == [] then [] else [Summary(events[0])] + ConvertOrderEvents(events[1..])
  }

  /** The error of a handler that throws or rejects (API Gateway answers 502). */
  const HandlerCrashed: string := "the request has no email query parameter"

  /** The query `handler` issues; it needs `email`, and branches on a truthy `eventType`. */
  function QueryOf(query: Query): (q: Option<EventQuery>)
    ensures q.None? <==> query.None? || Param(query.value, "email").None?
    ensures q.Some? ==> q.value.email == query.value["email"]
    ensures q.Some? ==> (q.value.ByEmail? <==> !Truthy(Param(query.value, "eventType")))
    ensures q.Some? && q.value.ByEmailAndType? ==> q.value.eventType == query.value["eventType"]
  {
    if query.None? || Param(query.value, "email").None? then None
    else
      var eventType := Param(query.value, "eventType");
      if Truthy(eventType) then Some(ByEmailAndType(query.value["email"], eventType.value))
      else Some(ByEmail(query.value["email"]))
  }

  /**
   * `handler`; `answer` stands for the events table's reply to a query (its query methods are
   * not part of this model).
   */
  function Handler(query: Query, answer: EventQuery -> seq<OrderEventItem>): (r: Result<Response<seq<OrderEventSummary>>, string>)
    ensures QueryOf(query).None? <==> r.Failure?
    ensures r.Success? ==> r.value.statusCode == 200
    ensures r.Success? ==> r.value.body == ConvertOrderEvents(answer(QueryOf(query).value))
  {
    match QueryOf(query)
    case None => Failure(HandlerCrashed)
    case Some(q) => Success(Response(200, ConvertOrderEvents(answer(q))))
  }

  /** A row written for an order event reads back with the values the event carried. */
  lemma WrittenRowReadsBack(m: SnsMessage, now: nat)
    requires Parses(m)
    ensures var event := m.message.value.data.value;
      ConvertOrderEvents([CreateEvent(m, now)])
      == [OrderEventSummary(event.email, now, m.message.value.eventType, event.requestId,
                            event.orderId, event.productCodes)]
  {
  }
}
