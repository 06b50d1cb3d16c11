/**
 * One row of the cart page: the thumbnail or its two-letter placeholder,
 * the line subtotal, and the minus, plus and remove buttons, which call the
 * cart provider with the row's own key.
 */
module CartItemView {
  import opened Wrappers
  import Text
  import opened CartStore

  /** The placeholder text shown when the line has no image; `None` when the image is shown. */
  function Placeholder(line: CartLine): Option<string> {
    if line.image != "" then None else Some(Text.ToUpper(Text.Take(line.name, 2)))
  }

  /** The subtotal shown beside the row. */
  function Subtotal(line: CartLine): int {
    LineTotal(line)
  }

  /** The minus button: `updateQuantity(productId, size, quantity - 1)`. */
  function Decrement(items: seq<CartLine>, line: CartLine): seq<CartLine> {
    ChangeQuantity(items, line.productId, line.size, line.quantity - 1)
  }

  /** The plus button: `updateQuantity(productId, size, quantity + 1)`. */
  function Increment(items: seq<CartLine>, line: CartLine): seq<CartLine> {
    ChangeQuantity(items, line.productId, line.size, line.quantity + 1)
  }

  /** The remove button: `removeFromCart(productId, size)`. */
  function Remove(items: seq<CartLine>, line: CartLine): seq<CartLine> {
    RemoveLine(items, line.productId, line.size)
  }

  /** A line with no image shows at most two characters of its name, upper-cased; one with an image shows no placeholder. */
  lemma PlaceholderSpec(line: CartLine)
    ensures Placeholder(line).Some? <==> line.image == ""
    ensures Placeholder(line).Some? ==>
      && |Placeholder(line).value| == (if |line.name| < 2 then |line.name| else 2)
      && forall i :: 0 <= i < |Placeholder(line).value| ==> Placeholder(line).value[i] == Text.UpperChar(line.name[i])
  {
  }

  /** With unique keys, setting the quantity of line `k`'s key changes that line only. */
  lemma {:induction false} SetOnly(items: seq<CartLine>, k: nat, quantity: int)
    requires KeysUnique(items) && k < |items|
    ensures SetQuantity(items, items[k].productId, items[k].size, quantity) == items[k := items[k].(quantity := quantity)]
  {
    var r := SetQuantity(items, items[k].productId, items[k].size, quantity);
    SetQuantityAt(items, items[k].productId, items[k].size, quantity);
    forall i | 0 <= i < |items| && i != k
      ensures r[i] == items[i]
    {
      if i < k {
        assert !HasKey(items[k], items[i].productId, items[i].size);
      } else {
        assert !HasKey(items[i], items[k].productId, items[k].size);
      }
    }
  }

  /** With unique keys, moving line `k`'s quantity by `amount` changes that line only, and the totals by `amount` units. */
  lemma Step(items: seq<CartLine>, k: nat, amount: int)
    requires KeysUnique(items) && k < |items|
    ensures var stepped := SetQuantity(items, items[k].productId, items[k].size, items[k].quantity + amount);
      && stepped == items[k := items[k].(quantity := items[k].quantity + amount)]
      && CartCount(stepped) == CartCount(items) + amount
      && CartTotal(stepped) == CartTotal(items) + items[k].price * amount
  {
    SetOnly(items, k, items[k].quantity + amount);
    RaiseOneTotal(items, k, amount);
    TotalsOfUpdate(items, k, items[k].(quantity := items[k].quantity + amount));
  }

  /**
   * Minus on a row holding one unit removes exactly that row, keeping the
   * others in order, and lowers the count by one and the total by its price.
   */
  lemma DecrementLastUnit(items: seq<CartLine>, k: nat)
    requires KeysUnique(items) && k < |items| && items[k].quantity == 1
    ensures Decrement(items, items[k]) == items[..k] + items[k + 1..]
    ensures CartCount(Decrement(items, items[k])) == CartCount(items) - 1
    ensures CartTotal(Decrement(items, items[k])) == CartTotal(items) - items[k].price
  {
    RemoveUnique(items, items[k].productId, items[k].size, k);
    TotalsOfCut(items, k);
  }

  /** Minus on a row holding more than one unit lowers that row by one, and the count by one and the total by its price. */
  lemma DecrementLowers(items: seq<CartLine>, k: nat)
    requires KeysUnique(items) && k < |items| && items[k].quantity > 1
    ensures Decrement(items, items[k]) == items[k := items[k].(quantity := items[k].quantity - 1)]
    ensures CartCount(Decrement(items, items[k])) == CartCount(items) - 1
    ensures CartTotal(Decrement(items, items[k])) == CartTotal(items) - items[k].price
  {
    Step(items, k, -1);
  }

  /** Plus on a row with a non-negative quantity raises that row by one, and the count by one and the total by its price. */
  lemma IncrementRaises(items: seq<CartLine>, k: nat)
    requires KeysUnique(items) && k < |items| && items[k].quantity >= 0
    ensures Increment(items, items[k]) == items[k := items[k].(quantity := items[k].quantity + 1)]
    ensures CartCount(Increment(items, items[k])) == CartCount(items) + 1
    ensures CartTotal(Increment(items, items[k])) == CartTotal(items) + items[k].price
  {
    var q := items[k].quantity + 1;
    assert q > 0;
    assert ChangeQuantity(items, items[k].productId, items[k].size, q) == SetQuantity(items, items[k].productId, items[k].size, q);
    Step(items, k, 1);
  }

  /** Plus and then minus on the same (re-rendered) row gives back the cart it started from. */
  lemma IncrementThenDecrement(items: seq<CartLine>, k: nat)
    requires KeysUnique(items) && k < |items| && items[k].quantity >= 1
    ensures Decrement(Increment(items, items[k]), items[k].(quantity := items[k].quantity + 1)) == items
  {
    var raised := Increment(items, items[k]);
    IncrementRaises(items, k);
    assert KeysUnique(raised) by {
      UpdatePreservesUnique(items, items[k].productId, items[k].size, items[k].quantity + 1);
    }
    DecrementLowers(raised, k);
  }

  /** Remove cuts exactly the row out and takes its subtotal off the total. */
  lemma RemoveCuts(items: seq<CartLine>, k: nat)
    requires KeysUnique(items) && k < |items|
    ensures Remove(items, items[k]) == items[..k] + items[k + 1..]
    ensures CartTotal(Remove(items, items[k])) == CartTotal(items) - Subtotal(items[k])
    ensures CartCount(Remove(items, items[k])) == CartCount(items) - items[k].quantity
  {
    RemoveUnique(items, items[k].productId, items[k].size, k);
    TotalsOfCut(items, k);
  }
}
