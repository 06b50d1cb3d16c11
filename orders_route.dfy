/**
 * `/api/orders`: POST stores an order, owned by the caller when one is
 * signed in; GET lists every order for an admin and the caller's own
 * orders for anyone else, newest first. The database connection's success
 * is a parameter.
 */
module OrdersRoute {
  import opened Wrappers
  import opened OrderModel
  import Session
  import NewestFirst

  datatype PostResponse = Created(order: Order) | PostFailed

  datatype ListResponse = Listed(orders: seq<Order>) | Unauthorized | ListFailed

  function PostStatus(response: PostResponse): int {
    if response.Created? then 201 else 500
  }

  function ListStatus(response: ListResponse): int {
    match response
    case Listed(_) => 200
    case Unauthorized => 401
    case ListFailed => 500
  }

  /** `if (user) data.user = user.id`: a signed-in caller owns the order; a guest's payload is left as sent. */
  function AssignOwner(data: OrderPayload, caller: Option<Session.AuthUser>): OrderPayload {
    if caller.Some? then data.(user := Some(caller.value.id)) else data
  }

  /** The POST's answer; a failure of any step (connection or validation) is a 500. */
  function PostResult(data: OrderPayload, caller: Option<Session.AuthUser>, id: string, now: int, dbUp: bool): PostResponse {
    if !dbUp then PostFailed
    else match Build(AssignOwner(data, caller), id, now)
      case Success(order) => Created(order)
      case Failure(_) => PostFailed
  }

  /** POST: the order is inserted into the store exactly when the answer is 201. */
  method Post(db: OrderCollection, data: OrderPayload, caller: Option<Session.AuthUser>, id: string, now: int, dbUp: bool)
    returns (response: PostResponse)
    modifies db
    ensures response == PostResult(data, caller, id, now, dbUp)
    ensures db.orders == if response.Created? then old(db.orders) + [response.order] else old(db.orders)
  {
    if !dbUp {
      return PostFailed;
    }
    var r := db.Create(AssignOwner(data, caller), id, now);
    if r.Success? {
      response := Created(r.value);
    } else {
      response := PostFailed;
    }
  }

  /**
   * A POST succeeds with 201 exactly when the database is up and the
   * payload, with the owner assigned, passes the schema. The stored order
   * belongs to the signed-in caller whatever `user` the client sent; a
   * guest's order keeps the client's `user`.
   */
  lemma PostSpec(data: OrderPayload, caller: Option<Session.AuthUser>, id: string, now: int, dbUp: bool)
    ensures var r := PostResult(data, caller, id, now, dbUp);
      && (PostStatus(r) == 201 <==> dbUp && Acceptable(AssignOwner(data, caller)))
      && (PostStatus(r) == 500 <==> !r.Created?)
      && (r.Created? && caller.Some? ==> r.order.user == Some(caller.value.id))
      && (r.Created? && caller.None? ==> r.order.user == data.user)
      && (r.Created? ==> Valid(r.order) && r.order.id == id && r.order.items == data.items)
  {
    BuildSpec(AssignOwner(data, caller), id, now);
  }

  function CreatedAt(order: Order): int {
    order.createdAt
  }

  /** `Order.find({ user: uid })`: the orders owned by `uid`, in store order. */
  function OwnedBy(orders: seq<Order>, uid: string): seq<Order> {
    if orders == [] then []
    else (if orders[0].user == Some(uid) then [orders[0]] else []) + OwnedBy(orders[1..], uid)
  }

  /** GET: 401 without a caller, all orders for an admin, the caller's own otherwise; newest first. */
  function List(orders: seq<Order>, caller: Option<Session.AuthUser>, dbUp: bool): ListResponse {
    if caller.None? then Unauthorized
    else if !dbUp then ListFailed
    else if Session.IsAdmin(caller.value) then Listed(NewestFirst.Sort(orders, CreatedAt))
    else Listed(NewestFirst.Sort(OwnedBy(orders, caller.value.id), CreatedAt))
  }

  /** `OwnedBy` keeps every owned order, as often as it occurs, and nothing else. */
  lemma {:induction false} OwnedBySpec(orders: seq<Order>, uid: string)
    ensures forall o :: multiset(OwnedBy(orders, uid))[o] == if o.user == Some(uid) then multiset(orders)[o] else 0
  {
    if orders != [] {
      OwnedBySpec(orders[1..], uid);
      assert orders == [orders[0]] + orders[1..];
    }
  }

  /**
   * Without a signed-in caller the answer is 401, whatever the database.
   * An admin gets every stored order, each as often as stored, newest
   * first. Anyone else gets exactly the orders whose `user` is their id,
   * each as often as stored, newest first.
   */
  lemma ListSpec(orders: seq<Order>, caller: Option<Session.AuthUser>, dbUp: bool)
    ensures ListStatus(List(orders, caller, dbUp)) == 401 <==> caller.None?
    ensures caller.Some? && !dbUp ==> ListStatus(List(orders, caller, dbUp)) == 500
    ensures caller.Some? && dbUp && Session.IsAdmin(caller.value) ==>
      var listed := List(orders, caller, dbUp).orders;
      multiset(listed) == multiset(orders) && NewestFirst.Descending(listed, CreatedAt)
    ensures caller.Some? && dbUp && !Session.IsAdmin(caller.value) ==>
      var listed := List(orders, caller, dbUp).orders;
      && (forall o :: multiset(listed)[o] == if o.user == Some(caller.value.id) then multiset(orders)[o] else 0)
      && NewestFirst.Descending(listed, CreatedAt)
  {
    if caller.Some? && dbUp {
      if Session.IsAdmin(caller.value) {
        NewestFirst.SortPermutes(orders, CreatedAt);
        NewestFirst.SortSorted(orders, CreatedAt);
      } else {
        var owned := OwnedBy(orders, caller.value.id);
        OwnedBySpec(orders, caller.value.id);
        NewestFirst.SortPermutes(owned, CreatedAt);
        NewestFirst.SortSorted(owned, CreatedAt);
      }
    }
  }

  /** A non-admin's listing never shows an order owned by someone else, nor a guest order. */
  lemma ListsOnlyOwnOrders(orders: seq<Order>, caller: Session.AuthUser, o: Order)
    requires !Session.IsAdmin(caller)
    requires o in List(orders, Some(caller), true).orders
    ensures o in orders && o.user == Some(caller.id)
  {
    ListSpec(orders, Some(caller), true);
    var listed := List(orders, Some(caller), true).orders;
    assert multiset(listed)[o] > 0;
  }
}
