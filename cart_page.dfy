/**
 * The cart page: the shipping fee and total it derives from `cartTotal`,
 * the free-shipping hint, and the choice between the empty-cart view and
 * the summary. Amounts are integer cents: the threshold 100 is 10000 and
 * the flat fee 9.99 is 999.
 */
module CartPage {
  import opened Wrappers
  import CartStore

  const FreeShippingThreshold: int := 10000
  const FlatShippingFee: int := 999

  /** `cartTotal >= 100 ? 0 : 9.99`. */
  function ShippingFee(subtotal: int): int {
    if subtotal >= FreeShippingThreshold then 0 else FlatShippingFee
  }

  /** `cartTotal + shipping`. */
  function OrderTotal(subtotal: int): int {
    subtotal + ShippingFee(subtotal)
  }

  /** The amount still needed for free shipping, shown only below the threshold. */
  function FreeShippingHint(subtotal: int): Option<int> {
    if subtotal < FreeShippingThreshold then Some(FreeShippingThreshold - subtotal) else None
  }

  /**
   * Shipping is free exactly from 100 up and 9.99 below; the total is the
   * subtotal plus that fee, so never below the subtotal and at most 9.99
   * above it; the hint appears exactly below 100 and names the positive
   * amount that brings the subtotal to 100.
   */
  lemma PricingSpec(subtotal: int)
    ensures ShippingFee(subtotal) == 0 <==> subtotal >= 10000
    ensures ShippingFee(subtotal) == 999 <==> subtotal < 10000
    ensures subtotal <= OrderTotal(subtotal) <= subtotal + 999
    ensures OrderTotal(subtotal) == subtotal + ShippingFee(subtotal)
    ensures FreeShippingHint(subtotal).Some? <==> subtotal < 10000
    ensures FreeShippingHint(subtotal).Some? ==>
      FreeShippingHint(subtotal).value > 0 && subtotal + FreeShippingHint(subtotal).value == 10000
  {
  }

  /** The two worked amounts: 85.00 pays 9.99 shipping (94.99), 100.00 ships free. */
  lemma PricingExamples()
    ensures ShippingFee(8500) == 999 && OrderTotal(8500) == 9499
    ensures ShippingFee(10000) == 0 && OrderTotal(10000) == 10000
  {
  }

  datatype CartView =
    | EmptyCart
    | Summary(lines: seq<CartStore.CartLine>, subtotal: int, shipping: int, total: int, hint: Option<int>)

  /** What the page renders for the current lines. */
  function View(items: seq<CartStore.CartLine>): CartView {
    if |items| == 0 then EmptyCart
    else
      var subtotal := CartStore.CartTotal(items);
      Summary(items, subtotal, ShippingFee(subtotal), OrderTotal(subtotal), FreeShippingHint(subtotal))
  }

  /**
   * The empty-cart view is shown exactly when there are no lines; otherwise
   * the summary lists every line and prices the cart by the shipping rule.
   */
  lemma ViewSpec(items: seq<CartStore.CartLine>)
    ensures View(items).EmptyCart? <==> |items| == 0
    ensures View(items).Summary? ==>
      var v := View(items);
      && v.lines == items
      && v.subtotal == CartStore.CartTotal(items)
      && v.total == v.subtotal + v.shipping && v.total >= v.subtotal
      && (v.shipping == 0 <==> v.subtotal >= 10000)
      && (v.hint.Some? <==> v.subtotal < 10000)
  {
  }
}
