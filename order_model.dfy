/**
 * The order schema: order items, the shipping sub-document, the status
 * enumeration, `Order.create` (defaults and validation) and the order
 * collection with the two operations the routes use on it: insert and
 * `findOneAndUpdate({ paymentIntentId }, { status })`.
 */
module OrderModel {
  import opened Wrappers

  datatype Status = Pending | Paid | Shipped | Delivered

  /** The enumeration's spelling of each status. */
  function StatusName(status: Status): string {
    match status
    case Pending => "pending"
    case Paid => "paid"
    case Shipped => "shipped"
    case Delivered => "delivered"
  }

  /** Casting a sent status string against the enumeration. */
  function ParseStatus(s: string): Option<Status> {
    if s == "pending" then Some(Pending)
    else if s == "paid" then Some(Paid)
    else if s == "shipped" then Some(Shipped)
    else if s == "delivered" then Some(Delivered)
    else None
  }

  /** Exactly the four spellings are accepted, each naming its own status. */
  lemma ParseStatusSpec(s: string, status: Status)
    ensures ParseStatus(StatusName(status)) == Some(status)
    ensures ParseStatus(s) == Some(status) <==> s == StatusName(status)
  {
  }

  /** One line of an order. Numbers are `None` when the client sent none. */
  datatype OrderItem = OrderItem(productId: Option<string>, name: string, price: Option<int>, quantity: Option<int>, size: string)

  datatype Shipping = Shipping(name: string, email: string, phone: Option<string>, address: string)

  /** A stored order. `total` has no minimum in the schema. */
  datatype Order = Order(
    id: string,
    user: Option<string>,
    items: seq<OrderItem>,
    shipping: Option<Shipping>,
    total: int,
    paymentIntentId: Option<string>,
    status: Status,
    createdAt: int)

  /** A create request body: `None` is an absent field, an absent list is `[]`. */
  datatype OrderPayload = OrderPayload(
    user: Option<string>,
    items: seq<OrderItem>,
    shipping: Option<Shipping>,
    total: Option<int>,
    paymentIntentId: Option<string>,
    status: Option<string>,
    createdAt: Option<int>)

  datatype ValidationError = Required(path: string) | BelowMinimum(path: string) | NotInEnum(path: string)

  /** Name, price, quantity and size are required; quantity is at least 1. */
  predicate ValidItem(item: OrderItem) {
    item.name != "" && item.price.Some? && item.quantity.Some? && item.quantity.value >= 1 && item.size != ""
  }

  /** Name, email and address are required; the phone is optional. */
  predicate ValidShipping(shipping: Shipping) {
    shipping.name != "" && shipping.email != "" && shipping.address != ""
  }

  /** What the schema admits for a stored order. */
  predicate Valid(order: Order) {
    (forall i :: 0 <= i < |order.items| ==> ValidItem(order.items[i]))
    && (order.shipping.Some? ==> ValidShipping(order.shipping.value))
  }

  /** The first schema path that fails, if any. */
  function ItemsError(items: seq<OrderItem>): Option<ValidationError> {
    if items == [] then None
    else
      var item := items[0];
      if item.name == "" then Some(Required("items.name"))
      else if item.price.None? then Some(Required("items.price"))
      else if item.quantity.None? then Some(Required("items.quantity"))
      else if item.quantity.value < 1 then Some(BelowMinimum("items.quantity"))
      else if item.size == "" then Some(Required("items.size"))
      else ItemsError(items[1..])
  }

  lemma {:induction false} ItemsErrorSpec(items: seq<OrderItem>)
    ensures ItemsError(items).None? <==> forall i :: 0 <= i < |items| ==> ValidItem(items[i])
  {
    if items != [] {
      ItemsErrorSpec(items[1..]);
      assert forall i :: 1 <= i < |items| ==> items[i] == items[1..][i - 1];
    }
  }

  /** The status a new order starts in: the one sent, or `pending`. */
  function InitialStatus(payload: OrderPayload): Option<Status> {
    if payload.status.None? then Some(Pending) else ParseStatus(payload.status.value)
  }

  /**
   * The document `Order.create(payload)` stores, with the id and clock
   * reading the database supplies, or the first failing path.
   */
  function Build(payload: OrderPayload, id: string, now: int): Result<Order, ValidationError> {
    var itemsError := ItemsError(payload.items);
    if itemsError.Some? then Failure(itemsError.value)
    else if payload.shipping.Some? && payload.shipping.value.name == "" then Failure(Required("shipping.name"))
    else if payload.shipping.Some? && payload.shipping.value.email == "" then Failure(Required("shipping.email"))
    else if payload.shipping.Some? && payload.shipping.value.address == "" then Failure(Required("shipping.address"))
    else if payload.total.None? then Failure(Required("total"))
    else if InitialStatus(payload).None? then Failure(NotInEnum("status"))
    else Success(Order(id, payload.user, payload.items, payload.shipping, payload.total.value,
                       payload.paymentIntentId, InitialStatus(payload).value, payload.createdAt.GetOr(now)))
  }

  /** The request bodies `Order.create` accepts. */
  predicate Acceptable(payload: OrderPayload) {
    && (forall i :: 0 <= i < |payload.items| ==> ValidItem(payload.items[i]))
    && (payload.shipping.Some? ==> ValidShipping(payload.shipping.value))
    && payload.total.Some?
    && (payload.status.Some? ==> ParseStatus(payload.status.value).Some?)
  }

  /**
   * Creation succeeds exactly for acceptable bodies; what it stores is valid,
   * keeps every sent field, starts `pending` unless a status was sent, and
   * is stamped with the creation time unless a time was sent.
   */
  lemma BuildSpec(payload: OrderPayload, id: string, now: int)
    ensures Build(payload, id, now).Success? <==> Acceptable(payload)
    ensures Build(payload, id, now).Success? ==>
      var order := Build(payload, id, now).value;
      && Valid(order)
      && order.id == id && order.user == payload.user && order.items == payload.items
      && order.shipping == payload.shipping && order.total == payload.total.value
      && order.paymentIntentId == payload.paymentIntentId
      && (payload.status.None? ==> order.status == Pending)
      && (payload.status.Some? ==> StatusName(order.status) == payload.status.value)
      && order.createdAt == (if payload.createdAt.Some? then payload.createdAt.value else now)
  {
    ItemsErrorSpec(payload.items);
    if payload.status.Some? && ParseStatus(payload.status.value).Some? {
      ParseStatusSpec(payload.status.value, ParseStatus(payload.status.value).value);
    }
  }

  /** The order carries the payment intent `intentId`. */
  predicate HasIntent(order: Order, intentId: string) {
    order.paymentIntentId == Some(intentId)
  }

  /** `findOneAndUpdate({ paymentIntentId: intentId }, { status })` on the store. */
  function SetStatusOfFirst(orders: seq<Order>, intentId: string, status: Status): seq<Order> {
    if orders == [] then []
    else if HasIntent(orders[0], intentId) then [orders[0].(status := status)] + orders[1..]
    else [orders[0]] + SetStatusOfFirst(orders[1..], intentId, status)
  }

  /** `k` is the first order carrying `intentId`. */
  predicate FirstWithIntent(orders: seq<Order>, intentId: string, k: nat) {
    k < |orders| && HasIntent(orders[k], intentId) && forall j :: 0 <= j < k ==> !HasIntent(orders[j], intentId)
  }

  /** The first order carrying `intentId`, found by recursion. */
  function FirstMatch(orders: seq<Order>, intentId: string): (k: Option<nat>)
    ensures k.Some? ==> FirstWithIntent(orders, intentId, k.value)
    ensures k.None? ==> forall j :: 0 <= j < |orders| ==> !HasIntent(orders[j], intentId)
  {
    if orders == [] then None
    else if HasIntent(orders[0], intentId) then Some(0)
    else match FirstMatch(orders[1..], intentId)
      case None => None
      case Some(k) => Some(k + 1)
  }

  /** Only the first matching order changes, and only its status. */
  lemma {:induction false} SetStatusOfFirstAt(orders: seq<Order>, intentId: string, status: Status, k: nat)
    requires FirstWithIntent(orders, intentId, k)
    ensures SetStatusOfFirst(orders, intentId, status) == orders[k := orders[k].(status := status)]
  {
    if k > 0 {
      assert !HasIntent(orders[0], intentId);
      SetStatusOfFirstAt(orders[1..], intentId, status, k - 1);
      assert orders == [orders[0]] + orders[1..];
    }
  }

  /** Without a matching order the store is left as it was. */
  lemma {:induction false} SetStatusOfFirstNoMatch(orders: seq<Order>, intentId: string, status: Status)
    requires forall j :: 0 <= j < |orders| ==> !HasIntent(orders[j], intentId)
    ensures SetStatusOfFirst(orders, intentId, status) == orders
  {
    if orders != [] {
      SetStatusOfFirstNoMatch(orders[1..], intentId, status);
      assert orders == [orders[0]] + orders[1..];
    }
  }

  /** The search `findOneAndUpdate` performs: the first order carrying `intentId`, if any. */
  method FindFirstWithIntent(orders: seq<Order>, intentId: string) returns (found: Option<nat>)
    ensures found.Some? ==> FirstWithIntent(orders, intentId, found.value)
    ensures found.None? ==> forall j :: 0 <= j < |orders| ==> !HasIntent(orders[j], intentId)
    ensures found == FirstMatch(orders, intentId)
  {
    var k := 0;
    while k < |orders|
      invariant 0 <= k <= |orders|
      invariant forall j :: 0 <= j < k ==> !HasIntent(orders[j], intentId)
    {
      if HasIntent(orders[k], intentId) {
        return Some(k);
      }
      k := k + 1;
    }
    return None;
  }

  /**
   * The order collection (`Order` as a mongoose model). Searches visit the
   * documents in the order they were inserted.
   */
  class OrderCollection {
    var orders: seq<Order>

    constructor (orders: seq<Order>)
      ensures this.orders == orders
    {
      this.orders := orders;
    }

    /** `Order.create(data)`: insert the built document, or store nothing on a validation error. */
    method Create(payload: OrderPayload, id: string, now: int) returns (r: Result<Order, ValidationError>)
      modifies this
      ensures r == Build(payload, id, now)
      ensures orders == if r.Success? then old(orders) + [r.value] else old(orders)
    {
      r := Build(payload, id, now);
      if r.Success? {
        orders := orders + [r.value];
      }
    }

    /**
     * `findOneAndUpdate({ paymentIntentId: intentId }, { status })`: sets the
     * status of the first matching order and returns that order as it was.
     */
    method SetStatusByIntent(intentId: string, status: Status) returns (before: Option<Order>)
      modifies this
      ensures orders == SetStatusOfFirst(old(orders), intentId, status)
      ensures before.Some? <==> exists j :: 0 <= j < |old(orders)| && HasIntent(old(orders)[j], intentId)
      ensures before.Some? ==> before.value in old(orders) && HasIntent(before.value, intentId)
      ensures before == match FirstMatch(old(orders), intentId)
        case Some(k) => Some(old(orders)[k])
        case None => None
    {
      var found := FindFirstWithIntent(orders, intentId);
      if found.Some? {
        var k := found.value;
        before := Some(orders[k]);
        SetStatusOfFirstAt(orders, intentId, status, k);
        orders := orders[k := orders[k].(status := status)];
      } else {
        before := None;
        SetStatusOfFirstNoMatch(orders, intentId, status);
      }
    }
  }
}
