/**
 * The checkout page: its summary (the cart page's shipping rule), the
 * redirect back to the cart, and the form's submit sequence: create a
 * payment intent for the total, confirm the card, post the order, then
 * clear the cart. The payment library, the payment-intent endpoint and the
 * orders endpoint are abstract: their outcomes are parameters.
 */
module Checkout {
  import opened Wrappers
  import CartStore
  import CartPage
  import OrderModel
  import OrdersRoute
  import Session

  const DefaultFailure: string := "Payment failed. Please try again."
  const TokenKey: string := "luxe-token"
  const Succeeded: string := "succeeded"

  /** The form's four fields. */
  datatype ShippingForm = ShippingForm(name: string, email: string, phone: string, address: string)

  /** `confirmCardPayment`'s answer: an error, or the payment intent with its status. */
  datatype Confirmation = Declined(message: string) | Confirmed(intentId: string, status: string)

  /** The remote calls the submit sequence makes, in order. */
  datatype Request =
    | CreatePaymentIntent(amount: int)
    | ConfirmCardPayment(clientSecret: string, billingName: string, billingEmail: string)
    | PostOrder(payload: OrderModel.OrderPayload, bearer: Option<string>)

  /** What one submission did: the calls made, the error text left on the form, and whether the order was placed. */
  datatype Attempt = Attempt(requests: seq<Request>, error: string, placed: bool)

  /** The `total` the page passes to the form. */
  function CheckoutTotal(items: seq<CartStore.CartLine>): int {
    CartPage.OrderTotal(CartStore.CartTotal(items))
  }

  /** With no lines and no confirmed order, the page sends the shopper back to the cart. */
  predicate RedirectsToCart(items: seq<CartStore.CartLine>, success: bool) {
    |items| == 0 && !success
  }

  /** `err.response?.data?.error || 'Payment failed. Please try again.'`. */
  function FailureMessage(serverError: Option<string>): string {
    if serverError.Some? && serverError.value != "" then serverError.value else DefaultFailure
  }

  /** The token sent as a bearer credential, when storage holds a non-empty one. */
  function Bearer(entries: map<string, CartStore.Stored>): Option<string> {
    if TokenKey in entries && entries[TokenKey].Text? && entries[TokenKey].raw != "" then Some(entries[TokenKey].raw) else None
  }

  /** The posted items: one per cart line, copying productId, name, price, quantity and size. */
  function OrderItems(items: seq<CartStore.CartLine>): seq<OrderModel.OrderItem> {
    if items == [] then []
    else
      var line := items[0];
      [OrderModel.OrderItem(Some(line.productId), line.name, Some(line.price), Some(line.quantity), line.size)]
        + OrderItems(items[1..])
  }

  /** The order body posted after a succeeded payment. */
  function OrderPayloadFor(items: seq<CartStore.CartLine>, form: ShippingForm, total: int, intentId: string): OrderModel.OrderPayload {
    OrderModel.OrderPayload(
      None,
      OrderItems(items),
      Some(OrderModel.Shipping(form.name, form.email, Some(form.phone), form.address)),
      Some(total),
      Some(intentId),
      Some("paid"),
      None)
  }

  /** The submit sequence once the payment library and card element are ready. */
  function Submit(
    items: seq<CartStore.CartLine>, form: ShippingForm, bearer: Option<string>,
    intent: Reply<string>, confirmation: Reply<Confirmation>, created: Reply<()>): Attempt
  {
    var total := CheckoutTotal(items);
    var first := [CreatePaymentIntent(total)];
    match intent
    case Thrown(e) => Attempt(first, FailureMessage(e), false)
    case Ok(secret) =>
      var confirmed := first + [ConfirmCardPayment(secret, form.name, form.email)];
      match confirmation
      case Thrown(e) => Attempt(confirmed, FailureMessage(e), false)
      case Ok(Declined(message)) => Attempt(confirmed, message, false)
      case Ok(Confirmed(intentId, status)) =>
        if status != Succeeded then Attempt(confirmed, "", false)
        else
          var posted := confirmed + [PostOrder(OrderPayloadFor(items, form, total, intentId), bearer)];
          match created
          case Thrown(e) => Attempt(posted, FailureMessage(e), false)
          case Ok(_) => Attempt(posted, "", true)
  }

  /** The order post was among the calls made. */
  predicate PostedOrder(requests: seq<Request>) {
    exists i :: 0 <= i < |requests| && requests[i].PostOrder?
  }

  lemma {:induction false} OrderItemsSpec(items: seq<CartStore.CartLine>)
    ensures |OrderItems(items)| == |items|
    ensures forall i :: 0 <= i < |items| ==>
      (OrderItems(items)[i] ==
        OrderModel.OrderItem(Some(items[i].productId), items[i].name, Some(items[i].price), Some(items[i].quantity), items[i].size))
  {
    if items != [] {
      OrderItemsSpec(items[1..]);
    }
  }

  /**
   * Every submission first requests a payment intent for the checkout total.
   * An order is posted exactly when the card confirmation reports
   * `succeeded`, and then it is the last call and carries the cart lines,
   * the form, the total, the intent id and status `paid`.
   */
  lemma SubmitPostsOnlyAfterSuccess(
    items: seq<CartStore.CartLine>, form: ShippingForm, bearer: Option<string>,
    intent: Reply<string>, confirmation: Reply<Confirmation>, created: Reply<()>)
    ensures var a := Submit(items, form, bearer, intent, confirmation, created);
      && 1 <= |a.requests| <= 3
      && a.requests[0] == CreatePaymentIntent(CheckoutTotal(items))
      && (PostedOrder(a.requests) <==>
            intent.Ok? && confirmation.Ok? && confirmation.value.Confirmed? && confirmation.value.status == Succeeded)
      && (PostedOrder(a.requests) ==>
            a.requests[|a.requests| - 1] ==
              PostOrder(OrderPayloadFor(items, form, CheckoutTotal(items), confirmation.value.intentId), bearer))
  {
    var a := Submit(items, form, bearer, intent, confirmation, created);
    if intent.Ok? && confirmation.Ok? && confirmation.value.Confirmed? && confirmation.value.status == Succeeded {
      assert a.requests[2].PostOrder?;
    } else {
      assert forall i :: 0 <= i < |a.requests| ==> !a.requests[i].PostOrder?;
    }
  }

  /**
   * The order is placed, and so the cart cleared, exactly when the post
   * returned; a placed order leaves no error. A declined card records the
   * library's message; a confirmation that is neither an error nor
   * `succeeded` records nothing; any thrown call records the server's error
   * text or the default message. Only a placed order clears the cart.
   */
  lemma SubmitOutcomes(
    items: seq<CartStore.CartLine>, form: ShippingForm, bearer: Option<string>,
    intent: Reply<string>, confirmation: Reply<Confirmation>, created: Reply<()>)
    ensures var a := Submit(items, form, bearer, intent, confirmation, created);
      && (a.placed <==> PostedOrder(a.requests) && created.Ok?)
      && (a.placed ==> a.error == "")
      && (intent.Thrown? ==> a.error == FailureMessage(intent.serverError) && !a.placed)
      && (intent.Ok? && confirmation.Thrown? ==> a.error == FailureMessage(confirmation.serverError) && !a.placed)
      && (intent.Ok? && confirmation.Ok? && confirmation.value.Declined? ==>
            a.error == confirmation.value.message && !a.placed && !PostedOrder(a.requests))
      && (intent.Ok? && confirmation.Ok? && confirmation.value.Confirmed? && confirmation.value.status != Succeeded ==>
            a.error == "" && !a.placed && !PostedOrder(a.requests))
      && (PostedOrder(a.requests) && created.Thrown? ==> a.error == FailureMessage(created.serverError) && !a.placed)
  {
    SubmitPostsOnlyAfterSuccess(items, form, bearer, intent, confirmation, created);
  }

  /**
   * When every cart line has a name, a size and a quantity of at least 1 and
   * the form has a name, email and address, the order a succeeded payment
   * posts is created by the orders route (with the database up): it stores
   * one item per line, the checkout total, the intent id and status `paid`,
   * and it belongs to the signed-in caller the bearer token identifies, or
   * to nobody for a guest.
   */
  lemma PostedOrderIsAccepted(
    items: seq<CartStore.CartLine>, form: ShippingForm, intentId: string,
    caller: Option<Session.AuthUser>, id: string, now: int)
    requires forall i :: 0 <= i < |items| ==> items[i].name != "" && items[i].size != "" && items[i].quantity >= 1
    requires form.name != "" && form.email != "" && form.address != ""
    ensures var r := OrdersRoute.PostResult(OrderPayloadFor(items, form, CheckoutTotal(items), intentId), caller, id, now, true);
      && r.Created?
      && |r.order.items| == |items|
      && r.order.total == CheckoutTotal(items)
      && r.order.paymentIntentId == Some(intentId)
      && r.order.status == OrderModel.Paid
      && r.order.user == (if caller.Some? then Some(caller.value.id) else None)
  {
    var payload := OrderPayloadFor(items, form, CheckoutTotal(items), intentId);
    OrderItemsSpec(items);
    OrderModel.BuildSpec(OrdersRoute.AssignOwner(payload, caller), id, now);
    OrderModel.ParseStatusSpec("paid", OrderModel.Paid);
  }

  /**
   * Checking out two lines worth 120.00 with every remote step succeeding
   * posts one order for 120.00 (shipping is free), places it and leaves no
   * error; the orders route stores it paid, with two items.
   */
  lemma CheckoutOfTwoLines(
    items: seq<CartStore.CartLine>, form: ShippingForm, bearer: Option<string>, secret: string, intentId: string,
    caller: Option<Session.AuthUser>, id: string, now: int)
    requires |items| == 2 && CartStore.CartTotal(items) == 12000
    requires forall i :: 0 <= i < |items| ==> items[i].name != "" && items[i].size != "" && items[i].quantity >= 1
    requires form.name != "" && form.email != "" && form.address != ""
    ensures var a := Submit(items, form, bearer, Ok(secret), Ok(Confirmed(intentId, Succeeded)), Ok(()));
      && a.placed && a.error == ""
      && a.requests[0] == CreatePaymentIntent(12000)
      && a.requests[|a.requests| - 1] == PostOrder(OrderPayloadFor(items, form, 12000, intentId), bearer)
    ensures var r := OrdersRoute.PostResult(OrderPayloadFor(items, form, 12000, intentId), caller, id, now, true);
      && r.Created? && |r.order.items| == 2 && r.order.total == 12000 && r.order.status == OrderModel.Paid
  {
    assert CheckoutTotal(items) == 12000;
    SubmitPostsOnlyAfterSuccess(items, form, bearer, Ok(secret), Ok(Confirmed(intentId, Succeeded)), Ok(()));
    SubmitOutcomes(items, form, bearer, Ok(secret), Ok(Confirmed(intentId, Succeeded)), Ok(()));
    PostedOrderIsAccepted(items, form, intentId, caller, id, now);
  }

  /** A declined card ("card declined") posts no order, keeps the cart and shows the message. */
  lemma DeclinedCard(items: seq<CartStore.CartLine>, form: ShippingForm, bearer: Option<string>, secret: string, created: Reply<()>)
    ensures var a := Submit(items, form, bearer, Ok(secret), Ok(Declined("card declined")), created);
      && !a.placed && a.error == "card declined" && !PostedOrder(a.requests)
      && |a.requests| == 2
  {
    SubmitOutcomes(items, form, bearer, Ok(secret), Ok(Declined("card declined")), created);
  }

  /** The checkout form: its fields, its loading flag and error text, and the page's success flag it sets. */
  class CheckoutForm {
    var form: ShippingForm
    var loading: bool
    var error: string
    var success: bool
    const cart: CartStore.CartProvider

    constructor (cart: CartStore.CartProvider)
      ensures this.cart == cart
      ensures form == ShippingForm("", "", "", "") && !loading && error == "" && !success
      ensures PayEnabled(true) && !PayEnabled(false)
    {
      this.cart := cart;
      form := ShippingForm("", "", "", "");
      loading := false;
      error := "";
      success := false;
    }

    /** `disabled={loading || !stripe}`: the pay button is enabled only while no submission runs and the payment library has loaded. */
    predicate PayEnabled(libraryLoaded: bool)
      reads this
    {
      !loading && libraryLoaded
    }

    /**
     * `handleSubmit`. `ready` says whether the payment library and the card
     * element are available; `intent`, `confirmation` and `created` are the
     * outcomes of the three remote steps. Returns the calls made, in order.
     */
    method HandleSubmit(ready: bool, intent: Reply<string>, confirmation: Reply<Confirmation>, created: Reply<()>)
      returns (requests: seq<Request>)
      requires cart.Valid()
      modifies this, cart, cart.store
      ensures cart.Valid() && form == old(form)
      ensures !ready ==>
        && requests == [] && loading == old(loading) && error == old(error) && success == old(success)
        && cart.items == old(cart.items) && cart.store.entries == old(cart.store.entries)
      ensures ready ==>
        var a := Submit(old(cart.items), old(form), Bearer(old(cart.store.entries)), intent, confirmation, created);
        && requests == a.requests && error == a.error && !loading && PayEnabled(ready)
        && (a.placed ==> cart.items == [] && success && !RedirectsToCart(cart.items, success)
                         && cart.store.entries == old(cart.store.entries)[CartStore.CartKey := CartStore.CartJson([])])
        && (!a.placed ==> cart.items == old(cart.items) && success == old(success)
                          && cart.store.entries == old(cart.store.entries))
    {
      if !ready {
        return [];
      }
      ghost var attempt := Submit(cart.items, form, Bearer(cart.store.entries), intent, confirmation, created);
      loading := true;
      error := "";
      var total := CheckoutTotal(cart.items);
      requests := [CreatePaymentIntent(total)];
      match intent {
        case Thrown(e) =>
          error := FailureMessage(e);
        case Ok(secret) =>
          requests := requests + [ConfirmCardPayment(secret, form.name, form.email)];
          match confirmation {
            case Thrown(e) =>
              error := FailureMessage(e);
            case Ok(Declined(message)) =>
              error := message;
            case Ok(Confirmed(intentId, status)) =>
              if status == Succeeded {
                var bearer := Bearer(cart.store.entries);
                requests := requests + [PostOrder(OrderPayloadFor(cart.items, form, total, intentId), bearer)];
                match created {
                  case Thrown(e) =>
                    error := FailureMessage(e);
                  case Ok(_) =>
                    cart.ClearCart();
                    success := true;
                }
              }
          }
      }
      loading := false;
    }
  }
}
