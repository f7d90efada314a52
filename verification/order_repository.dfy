/** The order repository: a table of orders keyed by (pk = email, sk = order id). */
module OrdersLayer {
  import opened Wrappers

  datatype ShippingType = Urgent | Economic
  datatype CarrierType = Correios | Fedex
  datatype PaymentType = Cash | DebitCard | CreditCard

  datatype Shipping = Shipping(shippingType: ShippingType, carrier: CarrierType)
  /** Prices are integers (cents). */
  datatype Billing = Billing(payment: PaymentType, totalPrice: int)
  datatype OrderProduct = OrderProduct(code: string, price: int)

  /** An order; `products` is optional because listings project it away. */
  datatype Order = Order(
    pk: string,
    sk: string,
    createdAt: nat,
    shipping: Shipping,
    billing: Billing,
    products: Option<seq<OrderProduct>>)

  type OrderKey = (string, string)
  type OrderTable = map<OrderKey, Order>

  const OrderNotFound: string := "Order not found"

  function KeyOf(order: Order): OrderKey {
    (order.pk, order.sk)
  }

  ghost predicate WellKeyed(table: OrderTable) {
    forall k | k in table :: KeyOf(table[k]) == k
  }

  /** The projection "pk, sk, createdAt, shipping, billing" of scans and queries. */
  function Projected(order: Order): (p: Order)
    ensures p.products.None?
    ensures KeyOf(p) == KeyOf(order) && p.createdAt == order.createdAt
    ensures p.shipping == order.shipping && p.billing == order.billing
  {
    order.(products := None)
  }

  /** The keys of one customer's orders. */
  function KeysOfEmail(table: OrderTable, email: string): set<OrderKey> {
    set k | k in table && k.0 == email
  }

  class OrderRepository {
    var table: OrderTable

    ghost predicate Valid()
      reads this
    {
      WellKeyed(table)
    }

    constructor(initial: OrderTable)
      requires WellKeyed(initial)
      ensures Valid()
      ensures table == initial
    {
      table := initial;
    }

    /** `create`: the order is put at its key, overwriting any order already there. */
    method Create(order: Order) returns (created: Order)
      requires Valid()
      modifies this
      ensures Valid()
      ensures created == order
      ensures table == old(table)[KeyOf(order) := order]
    {
      table := table[KeyOf(order) := order];
      created := order;
    }

    /** `findAll`: every stored order once, projected (the scan's order is not modelled). */
    method FindAll() returns (orders: seq<Order>)
      requires Valid()
      ensures |orders| == |table|
      ensures forall i | 0 <= i < |orders| :: KeyOf(orders[i]) in table && orders[i] == Projected(table[KeyOf(orders[i])])
      ensures forall k | k in table :: Projected(table[k]) in orders
    {
      orders := [];
      var remaining := table.Keys;
      while remaining != {}
        invariant remaining <= table.Keys
        invariant |orders| + |remaining| == |table|
        invariant forall i | 0 <= i < |orders| ::
          KeyOf(orders[i]) in table.Keys - remaining && orders[i] == Projected(table[KeyOf(orders[i])])
        invariant forall k | k in table.Keys - remaining :: Projected(table[k]) in orders
        decreases |remaining|
      {
        var k :| k in remaining;
        orders := orders + [Projected(table[k])];
        remaining := remaining - {k};
      }
    }

    /** `findManyByEmail`: the query on pk = email, projected. */
    method FindManyByEmail(email: string) returns (orders: seq<Order>)
      requires Valid()
      ensures |orders| == |KeysOfEmail(table, email)|
      ensures forall i | 0 <= i < |orders| ::
        orders[i].pk == email && KeyOf(orders[i]) in table && orders[i] == Projected(table[KeyOf(orders[i])])
      ensures forall k | k in table && k.0 == email :: Projected(table[k]) in orders
    {
      orders := [];
      var remaining := KeysOfEmail(table, email);
      while remaining != {}
        invariant remaining <= KeysOfEmail(table, email)
        invariant |orders| + |remaining| == |KeysOfEmail(table, email)|
        invariant forall i | 0 <= i < |orders| ::
          KeyOf(orders[i]) in KeysOfEmail(table, email) - remaining && orders[i] == Projected(table[KeyOf(orders[i])])
        invariant forall k | k in KeysOfEmail(table, email) - remaining :: Projected(table[k]) in orders
        decreases |remaining|
      {
        var k :| k in remaining;
        orders := orders + [Projected(table[k])];
        remaining := remaining - {k};
      }
      assert forall k | k in table && k.0 == email :: k in KeysOfEmail(table, email);
    }

    method FindOne(email: string, orderId: string) returns (r: Result<Order, string>)
      ensures (email, orderId) in table ==> r == Success(table[(email, orderId)])
      ensures (email, orderId) !in table ==> r == Failure(OrderNotFound)
    {
      if (email, orderId) in table {
        r := Success(table[(email, orderId)]);
      } else {
        r := Failure(OrderNotFound);
      }
    }

    /** `delete` with ALL_OLD: the removed order, or not-found with the table unchanged. */
    method Delete(email: string, orderId: string) returns (r: Result<Order, string>)
      requires Valid()
      modifies this
      ensures Valid()
      ensures (email, orderId) in old(table) ==>
        r == Success(old(table)[(email, orderId)]) && table == old(table) - {(email, orderId)}
      ensures (email, orderId) !in old(table) ==> r == Failure(OrderNotFound) && table == old(table)
    {
      if (email, orderId) in table {
        r := Success(table[(email, orderId)]);
        table := table - {(email, orderId)};
      } else {
        r := Failure(OrderNotFound);
      }
    }
  }
}
