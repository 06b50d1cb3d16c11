/**
 * The payment webhook: verify the event's signature, and on a
 * `payment_intent.succeeded` event mark the first order carrying that
 * payment intent as paid. Signature checking is the payment provider's and
 * is a parameter; so is whether the database calls succeed.
 */
module StripeWebhook {
  import opened Wrappers
  import opened OrderModel

  const SucceededEvent: string := "payment_intent.succeeded"

  /** The parts of an event the route reads: its type and the payment intent's id. */
  datatype Event = Event(kind: string, intentId: string)

  /** The outcome of `constructEvent` on the raw body and signature header. */
  datatype Verification = Verified(event: Event) | Forged(reason: string)

  datatype Response = Acknowledged | Rejected(error: string)

  function StatusCode(response: Response): int {
    match response
    case Acknowledged => 200
    case Rejected(_) => 400
  }

  /** The response: 400 with the verification error, otherwise `{ received: true }`. */
  function Respond(verification: Verification): Response {
    match verification
    case Forged(reason) => Rejected("Webhook Error: " + reason)
    case Verified(_) => Acknowledged
  }

  /** The order store after the event; `dbUp` is false when connecting or updating throws. */
  function Apply(orders: seq<Order>, verification: Verification, dbUp: bool): seq<Order> {
    if verification.Verified? && verification.event.kind == SucceededEvent && dbUp
    then SetStatusOfFirst(orders, verification.event.intentId, Paid)
    else orders
  }

  /** The route: the same outcome, as an update in place of the order store. */
  method Post(db: OrderCollection, verification: Verification, dbUp: bool) returns (response: Response)
    modifies db
    ensures response == Respond(verification)
    ensures db.orders == Apply(old(db.orders), verification, dbUp)
  {
    match verification {
      case Forged(reason) =>
        return Rejected("Webhook Error: " + reason);
      case Verified(event) =>
        if event.kind == SucceededEvent && dbUp {
          var _ := db.SetStatusByIntent(event.intentId, Paid);
        }
        return Acknowledged;
    }
  }

  /**
   * A forged signature is answered 400 and every verified event 200, even
   * when nothing matches or the database fails; only a verified succeeded
   * event with a working database can change the store.
   */
  lemma ResponseSpec(orders: seq<Order>, verification: Verification, dbUp: bool)
    ensures StatusCode(Respond(verification)) == 400 <==> verification.Forged?
    ensures StatusCode(Respond(verification)) == 200 <==> verification.Verified?
    ensures !(verification.Verified? && verification.event.kind == SucceededEvent && dbUp) ==>
      Apply(orders, verification, dbUp) == orders
  {
  }

  /**
   * On a verified succeeded event, the first order carrying the intent
   * becomes paid and nothing else changes; without such an order the store
   * is unchanged.
   */
  lemma SucceededSpec(orders: seq<Order>, event: Event)
    requires event.kind == SucceededEvent
    ensures forall k: nat :: FirstWithIntent(orders, event.intentId, k) ==>
      Apply(orders, Verified(event), true) == orders[k := orders[k].(status := Paid)]
    ensures (forall j :: 0 <= j < |orders| ==> !HasIntent(orders[j], event.intentId)) ==>
      Apply(orders, Verified(event), true) == orders
  {
    forall k: nat | FirstWithIntent(orders, event.intentId, k)
      ensures Apply(orders, Verified(event), true) == orders[k := orders[k].(status := Paid)]
    {
      SetStatusOfFirstAt(orders, event.intentId, Paid, k);
    }
    if forall j :: 0 <= j < |orders| ==> !HasIntent(orders[j], event.intentId) {
      SetStatusOfFirstNoMatch(orders, event.intentId, Paid);
    }
  }

  /** At most one order changes, and only in its status. */
  lemma AtMostOneChanges(orders: seq<Order>, verification: Verification, dbUp: bool)
    ensures var after := Apply(orders, verification, dbUp);
      && |after| == |orders|
      && (forall j :: 0 <= j < |orders| ==> after[j] == orders[j].(status := after[j].status))
      && (forall i, j :: 0 <= i < j < |orders| && after[i] != orders[i] ==> after[j] == orders[j])
  {
    if verification.Verified? && verification.event.kind == SucceededEvent && dbUp {
      var id := verification.event.intentId;
      var found := FirstMatch(orders, id);
      if found.Some? {
        SetStatusOfFirstAt(orders, id, Paid, found.value);
      } else {
        SetStatusOfFirstNoMatch(orders, id, Paid);
      }
    }
  }

  /** Delivering the same event twice leaves the store as delivering it once. */
  lemma Idempotent(orders: seq<Order>, verification: Verification, dbUp: bool)
    ensures Apply(Apply(orders, verification, dbUp), verification, dbUp) == Apply(orders, verification, dbUp)
  {
    if verification.Verified? && verification.event.kind == SucceededEvent && dbUp {
      var id := verification.event.intentId;
      var found := FirstMatch(orders, id);
      if found.Some? {
        var k := found.value;
        SetStatusOfFirstAt(orders, id, Paid, k);
        var once := orders[k := orders[k].(status := Paid)];
        assert FirstWithIntent(once, id, k);
        SetStatusOfFirstAt(once, id, Paid, k);
      } else {
        SetStatusOfFirstNoMatch(orders, id, Paid);
        SetStatusOfFirstNoMatch(orders, id, Paid);
      }
    }
  }

  /**
   * There is no forward-only guard: a shipped or delivered order whose
   * intent succeeds again is set back to paid, while an order already paid
   * is left exactly as it was.
   */
  lemma StatusRegresses(orders: seq<Order>, event: Event, k: nat)
    requires event.kind == SucceededEvent && FirstWithIntent(orders, event.intentId, k)
    ensures |Apply(orders, Verified(event), true)| == |orders|
    ensures orders[k].status in {Shipped, Delivered} ==> Apply(orders, Verified(event), true)[k].status == Paid
    ensures orders[k].status == Paid ==> Apply(orders, Verified(event), true) == orders
  {
    SetStatusOfFirstAt(orders, event.intentId, Paid, k);
    if orders[k].status == Paid {
      assert orders[k].(status := Paid) == orders[k];
    }
  }

  /**
   * The two orders in which the webhook and the order post can arrive. If
   * the webhook comes first it finds no order and the order is stored as
   * posted; if the post comes first the webhook marks that order paid.
   */
  lemma WebhookAndCreateOrders(orders: seq<Order>, payload: OrderPayload, id: string, now: int, intentId: string)
    requires forall j :: 0 <= j < |orders| ==> !HasIntent(orders[j], intentId)
    requires payload.paymentIntentId == Some(intentId) && Build(payload, id, now).Success?
    ensures var event := Verified(Event(SucceededEvent, intentId));
      var created := Build(payload, id, now).value;
      && Apply(orders, event, true) + [created] == orders + [created]
      && Apply(orders + [created], event, true) == orders + [created.(status := Paid)]
  {
    var created := Build(payload, id, now).value;
    BuildSpec(payload, id, now);
    SetStatusOfFirstNoMatch(orders, intentId, Paid);
    var both := orders + [created];
    assert FirstWithIntent(both, intentId, |orders|);
    SetStatusOfFirstAt(both, intentId, Paid, |orders|);
  }
}
