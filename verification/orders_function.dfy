/** The orders API: list, fetch, place and cancel orders, publishing order events. */
module OrdersApi {
  import opened Wrappers
  import opened Http
  import opened EventsTable
  import opened ProductsLayer
  import opened OrdersLayer

  /** The parsed POST body. */
  datatype OrderRequest = OrderRequest(
    email: string,
    productIds: seq<string>,
    payment: PaymentType,
    shipping: Shipping)

  /** The sum of the prices, as a reference definition (from the front). */
  function SumPrices(products: seq<Product>): int {
    if products == [] then 0 else products[0].price + SumPrices(products[1..])
  }

  lemma {:induction false} SumPricesSnoc(products: seq<Product>, p: Product)
    ensures SumPrices(products + [p]) == SumPrices(products) + p.price
    decreases |products|
  {
    if products != [] {
      assert (products + [p])[1..] == products[1..] + [p];
      SumPricesSnoc(products[1..], p);
    }
  }

  /** The `reduce` of `buildOrder`: running total and the {code, price} list, left to right. */
  function Reduce(products: seq<Product>): (int, seq<OrderProduct>)
    decreases |products|
  {
    if products == [] then (0, [])
    else
      var n := |products| - 1;
      var acc := Reduce(products[..n]);
      (acc.0 + products[n].price, acc.1 + [OrderProduct(products[n].code, products[n].price)])
  }

  predicate CopiesProducts(lines: seq<OrderProduct>, products: seq<Product>) {
    |lines| == |products| &&
    forall i | 0 <= i < |lines| :: lines[i] == OrderProduct(products[i].code, products[i].price)
  }

  /** The fold computes the sum of the prices and copies code and price of each product, in order. */
  lemma {:induction false} ReduceSumsAndCopies(products: seq<Product>)
    ensures Reduce(products).0 == SumPrices(products)
    ensures CopiesProducts(Reduce(products).1, products)
    decreases |products|
  {
    if products != [] {
      var n := |products| - 1;
      ReduceSumsAndCopies(products[..n]);
      SumPricesSnoc(products[..n], products[n]);
      assert products[..n] + [products[n]] == products;
    }
  }

  /** `buildOrder`, with the fresh id and the clock as parameters. */
  function BuildOrder(request: OrderRequest, products: seq<Product>, orderId: string, now: nat): (order: Order)
    ensures order.pk == request.email && order.sk == orderId && order.createdAt == now
    ensures order.billing == Billing(request.payment, SumPrices(products))
    ensures order.shipping == request.shipping
    ensures order.products.Some? && CopiesProducts(order.products.value, products)
  {
    ReduceSumsAndCopies(products);
    var acc := Reduce(products);
    Order(request.email, orderId, now, request.shipping, Billing(request.payment, acc.0), Some(acc.1))
  }

  /** The order as the API answers it; `products` is left out when there are none. */
  datatype OrderResponse = OrderResponse(
    email: string,
    id: string,
    createdAt: nat,
    products: Option<seq<OrderProduct>>,
    billing: Billing,
    shipping: Shipping)

  function BuildOrderResponse(order: Order): (r: OrderResponse)
    ensures r.email == order.pk && r.id == order.sk && r.createdAt == order.createdAt
    ensures r.billing == order.billing && r.shipping == order.shipping
    ensures r.products.None? <==> order.products.None? || order.products.value == []
    ensures r.products.Some? ==> r.products == order.products
  {
    var lines := if order.products.Some? then order.products.value else [];
    OrderResponse(order.pk, order.sk, order.createdAt, if |lines| > 0 then Some(lines) else None,
                  order.billing, order.shipping)
  }

  /** `orders.map(buildOrderResponse)`. */
  function BuildOrderResponses(orders: seq<Order>): (rs: seq<OrderResponse>)
    ensures |rs| == |orders|
    ensures forall i | 0 <= i < |rs| :: rs[i] == BuildOrderResponse(orders[i])
    decreases |orders|
  {
    if orders == [] then [] else [BuildOrderResponse(orders[0])] + BuildOrderResponses(orders[1..])
  }

  /** Listings never carry products, because the store's projection leaves them out. */
  lemma ListingHasNoProducts(order: Order)
    ensures BuildOrderResponse(Projected(order)).products.None?
    ensures BuildOrderResponse(Projected(order)).id == order.sk
  {
  }

  /** A placed order is answered with its total and one line per ordered product. */
  lemma PlacedOrderResponse(request: OrderRequest, products: seq<Product>, orderId: string, now: nat)
    requires products != []
    ensures var r := BuildOrderResponse(BuildOrder(request, products, orderId, now));
      && r.products.Some? && CopiesProducts(r.products.value, products)
      && r.billing.totalPrice == SumPrices(products)
      && r.email == request.email && r.id == orderId
  {
  }

  datatype OrderEventType = Created | Deleted

  datatype OrderEvent = OrderEvent(
    email: string,
    orderId: string,
    billing: Billing,
    shipping: Shipping,
    requestId: string,
    productCodes: seq<string>)

  datatype Envelope = Envelope(eventType: OrderEventType, data: OrderEvent)

  /** One SNS publish: the envelope and the `eventType` message attribute. */
  datatype Publication = Publication(message: Envelope, eventTypeAttribute: OrderEventType)

  function Codes(lines: seq<OrderProduct>): (codes: seq<string>)
    ensures |codes| == |lines|
    ensures forall i | 0 <= i < |codes| :: codes[i] == lines[i].code
    decreases |lines|
  {
    if lines == [] then [] else [lines[0].code] + Codes(lines[1..])
  }

  /** `order.products?.map(p => p.code) || []`. */
  function ProductCodes(order: Order): (codes: seq<string>)
    ensures order.products.None? ==> codes == []
    ensures order.products.Some? ==>
      |codes| == |order.products.value| &&
      forall i | 0 <= i < |codes| :: codes[i] == order.products.value[i].code
  {
    if order.products.Some? then Codes(order.products.value) else []
  }

  /** `sendOrderEvent`: the publication of `order` as an event of `eventType`. */
  function OrderEventPublication(order: Order, eventType: OrderEventType, requestId: string): (p: Publication)
    ensures p.eventTypeAttribute == p.message.eventType == eventType
    ensures p.message.data.email == order.pk && p.message.data.orderId == order.sk
    ensures p.message.data.billing == order.billing && p.message.data.shipping == order.shipping
    ensures p.message.data.requestId == requestId
    ensures p.message.data.productCodes == ProductCodes(order)
  {
    var event := OrderEvent(order.pk, order.sk, order.billing, order.shipping, requestId, ProductCodes(order));
    Publication(Envelope(eventType, event), eventType)
  }

  /** The event of a placed order lists the codes of the ordered products, in order. */
  lemma PlacedOrderEventCodes(request: OrderRequest, products: seq<Product>, orderId: string, now: nat, requestId: string)
    ensures var p := OrderEventPublication(BuildOrder(request, products, orderId, now), Created, requestId);
      && |p.message.data.productCodes| == |products|
      && forall i | 0 <= i < |products| :: p.message.data.productCodes[i] == products[i].code
  {
  }

  datatype GetRoute = OneOrder(email: string, orderId: string) | OrdersOfEmail(email: string) | AllOrders

  /** The GET branches: both parameters truthy, only `email` truthy, or anything else. */
  function RouteGet(query: Query): (route: GetRoute)
    ensures route.OneOrder? <==>
      query.Some? && Truthy(Param(query.value, "email")) && Truthy(Param(query.value, "orderId"))
    ensures route.OrdersOfEmail? <==>
      query.Some? && Truthy(Param(query.value, "email")) && !Truthy(Param(query.value, "orderId"))
    ensures route.OneOrder? ==> route == OneOrder(query.value["email"], query.value["orderId"])
    ensures route.OrdersOfEmail? ==> route == OrdersOfEmail(query.value["email"])
  {
    if query.Some? && Truthy(Param(query.value, "email")) && Truthy(Param(query.value, "orderId")) then
      OneOrder(query.value["email"], query.value["orderId"])
    else if query.Some? && Truthy(Param(query.value, "email")) then
      OrdersOfEmail(query.value["email"])
    else
      AllOrders
  }

  /** An order id without an email lists every order. */
  lemma OrderIdAloneListsAll(query: Query)
    requires query.Some? && !Truthy(Param(query.value, "email"))
    ensures RouteGet(query) == AllOrders
  {
  }

  datatype OrdersBody = OrderData(order: OrderResponse) | OrderList(orders: seq<OrderResponse>) | Message(message: string)

  const SomeProductNotFound: string := "Some product was not found"

  /** The error of a handler that throws outside any `try` (API Gateway answers 502). */
  const HandlerCrashed: string := "TypeError: the request has no parsable body or query"

  /**
   * `handler`. `body` is the parsed POST body (absent when there is none); the request id,
   * the fresh order id and the clock are parameters. A `Failure` is an unhandled rejection.
   */
  method Handler(orders: OrderRepository, products: ProductRepository, topic: PutLog<Publication>,
                 httpMethod: string, query: Query, body: Option<OrderRequest>,
                 requestId: string, newId: string, now: nat)
    returns (r: Result<Response<OrdersBody>, string>)
    requires orders.Valid() && products.Valid()
    requires orders != products as object && topic != orders as object && topic != products as object
    modifies orders, topic
    ensures orders.Valid()
    ensures unchanged(products)
    // GET reads only.
    ensures httpMethod == "GET" ==> unchanged(orders) && unchanged(topic) && r.Success? && r.value.statusCode in {200, 404}
    ensures httpMethod == "GET" && RouteGet(query).OneOrder? ==>
      var key := (RouteGet(query).email, RouteGet(query).orderId);
      if key in orders.table then r == Success(Response(200, OrderData(BuildOrderResponse(orders.table[key]))))
      else r == Success(Response(404, Message(OrderNotFound)))
    ensures httpMethod == "GET" && RouteGet(query).OrdersOfEmail? ==>
      var email := RouteGet(query).email;
      && r.value.statusCode == 200 && r.value.body.OrderList?
      && |r.value.body.orders| == |KeysOfEmail(orders.table, email)|
      && (forall i | 0 <= i < |r.value.body.orders| ::
            var o := r.value.body.orders[i];
            o.email == email && (email, o.id) in orders.table
            && o == BuildOrderResponse(Projected(orders.table[(email, o.id)])))
      && (forall k | k in orders.table && k.0 == email ::
            BuildOrderResponse(Projected(orders.table[k])) in r.value.body.orders)
    ensures httpMethod == "GET" && RouteGet(query).AllOrders? ==>
      && r.value.statusCode == 200 && r.value.body.OrderList?
      && |r.value.body.orders| == |orders.table|
      && (forall i | 0 <= i < |r.value.body.orders| ::
            var o := r.value.body.orders[i];
            (o.email, o.id) in orders.table && o == BuildOrderResponse(Projected(orders.table[(o.email, o.id)])))
      && (forall k | k in orders.table :: BuildOrderResponse(Projected(orders.table[k])) in r.value.body.orders)
    // POST places the order only when every requested product exists.
    ensures httpMethod == "POST" && body.None? ==> r.Failure? && unchanged(orders) && unchanged(topic)
    ensures httpMethod == "POST" && body.Some? ==>
      match BatchGet(products.table, body.value.productIds)
      case Failure(e) => r == Failure(e) && unchanged(orders) && unchanged(topic)
      case Success(found) =>
        if |found| != |body.value.productIds| then
          r == Success(Response(404, Message(SomeProductNotFound))) && unchanged(orders) && unchanged(topic)
        else
          var order := BuildOrder(body.value, found, newId, now);
          && orders.table == old(orders.table)[KeyOf(order) := order]
          && topic.items == old(topic.items) + [OrderEventPublication(order, Created, requestId)]
          && r == Success(Response(201, OrderData(BuildOrderResponse(order))))
    // DELETE publishes an event only for an order that existed.
    ensures httpMethod == "DELETE" && query.None? ==> r.Failure? && unchanged(orders) && unchanged(topic)
    ensures httpMethod == "DELETE" && query.Some? ==>
      var email := Param(query.value, "email");
      var orderId := Param(query.value, "orderId");
      if email.None? || orderId.None? then
        r == Success(Response(404, Message(InvalidKeyMessage))) && unchanged(orders) && unchanged(topic)
      else if (email.value, orderId.value) in old(orders.table) then
        var deleted := old(orders.table)[(email.value, orderId.value)];
        && orders.table == old(orders.table) - {(email.value, orderId.value)}
        && topic.items == old(topic.items) + [OrderEventPublication(deleted, Deleted, requestId)]
        && r == Success(Response(200, OrderData(BuildOrderResponse(deleted))))
      else
        r == Success(Response(404, Message(OrderNotFound))) && orders.table == old(orders.table) && unchanged(topic)
    ensures httpMethod !in {"GET", "POST", "DELETE"} ==>
      r == Success(Response(400, Message(BadRequest))) && unchanged(orders) && unchanged(topic)
  {
    if httpMethod == "GET" {
      match RouteGet(query) {
        case OneOrder(email, orderId) =>
          var found := orders.FindOne(email, orderId);
          match found {
            case Success(order) => r := Success(Response(200, OrderData(BuildOrderResponse(order))));
            case Failure(message) => r := Success(Response(404, Message(message)));
          }
        case OrdersOfEmail(email) =>
          var listed := orders.FindManyByEmail(email);
          r := Success(Response(200, OrderList(BuildOrderResponses(listed))));
        case AllOrders =>
          var listed := orders.FindAll();
          r := Success(Response(200, OrderList(BuildOrderResponses(listed))));
      }
      return;
    }

    if httpMethod == "POST" {
      if body.None? {
        return Failure(HandlerCrashed);
      }
      var request := body.value;
      var found := products.FindManyByIds(request.productIds);
      if found.Failure? {
        return Failure(found.error);
      }
      if |found.value| != |request.productIds| {
        return Success(Response(404, Message(SomeProductNotFound)));
      }
      var order := BuildOrder(request, found.value, newId, now);
      var created := orders.Create(order);
      topic.Put(OrderEventPublication(order, Created, requestId));
      return Success(Response(201, OrderData(BuildOrderResponse(created))));
    }

    if httpMethod == "DELETE" {
      if query.None? {
        return Failure(HandlerCrashed);
      }
      var email := Param(query.value, "email");
      var orderId := Param(query.value, "orderId");
      if email.None? || orderId.None? {
        return Success(Response(404, Message(InvalidKeyMessage)));
      }
      var deleted := orders.Delete(email.value, orderId.value);
      match deleted {
        case Success(order) =>
          topic.Put(OrderEventPublication(order, Deleted, requestId));
          r := Success(Response(200, OrderData(BuildOrderResponse(order))));
        case Failure(message) =>
          r := Success(Response(404, Message(message)));
      }
      return;
    }

    r := Success(Response(400, Message(BadRequest)));
  }
}
