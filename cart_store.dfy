/**
 * The cart store: one list of lines keyed by (productId, size), the pure
 * list operations behind `addToCart`, `removeFromCart`, `updateQuantity` and
 * `clearCart`, the derived `cartTotal` and `cartCount`, and the provider
 * object that holds the list and writes it back to browser storage under
 * the key "luxe-cart" after every change. Prices are integer cents.
 */
module CartStore {
  import opened Wrappers
  import ProductModel

  /** A line snapshots the product's name, price and first image when it is added. */
  datatype CartLine = CartLine(productId: string, name: string, price: int, image: string, size: string, quantity: int)

  const DefaultSize: string := "M"
  const DefaultQuantity: int := 1

  predicate HasKey(line: CartLine, productId: string, size: string) {
    line.productId == productId && line.size == size
  }

  /** `items.find(...)` succeeds. */
  predicate Contains(items: seq<CartLine>, productId: string, size: string) {
    exists i :: 0 <= i < |items| && HasKey(items[i], productId, size)
  }

  /** No two lines share a (productId, size) key. */
  ghost predicate KeysUnique(items: seq<CartLine>) {
    forall i, j :: 0 <= i < j < |items| ==> !HasKey(items[j], items[i].productId, items[i].size)
  }

  /** `product.images?.[0] || ''`. */
  function FirstImage(product: ProductModel.Product): string {
    if |product.images| > 0 then product.images[0] else ""
  }

  function NewLine(product: ProductModel.Product, size: string, quantity: int): CartLine {
    CartLine(product.id, product.name, product.price, FirstImage(product), size, quantity)
  }

  /** `prev.map(...)` raising every line with the key by `amount`. */
  function Raise(items: seq<CartLine>, productId: string, size: string, amount: int): seq<CartLine> {
    if items == [] then []
    else
      var line := items[0];
      [if HasKey(line, productId, size) then line.(quantity := line.quantity + amount) else line]
        + Raise(items[1..], productId, size, amount)
  }

  /** `addToCart(product, size, quantity)`: merge into the existing line, or append a new one. */
  function AddLine(items: seq<CartLine>, product: ProductModel.Product, size: string, quantity: int): seq<CartLine> {
    if Contains(items, product.id, size) then Raise(items, product.id, size, quantity)
    else items + [NewLine(product, size, quantity)]
  }

  /** `addToCart` called with its default arguments where none are passed. */
  function AddLineDefaults(items: seq<CartLine>, product: ProductModel.Product, size: Option<string>, quantity: Option<int>): seq<CartLine> {
    AddLine(items, product, size.GetOr(DefaultSize), quantity.GetOr(DefaultQuantity))
  }

  /** `removeFromCart(productId, size)`: `prev.filter(...)` keeping lines without the key. */
  function RemoveLine(items: seq<CartLine>, productId: string, size: string): seq<CartLine> {
    if items == [] then []
    else if HasKey(items[0], productId, size) then RemoveLine(items[1..], productId, size)
    else [items[0]] + RemoveLine(items[1..], productId, size)
  }

  /** `prev.map(...)` overwriting the quantity of every line with the key. */
  function SetQuantity(items: seq<CartLine>, productId: string, size: string, quantity: int): seq<CartLine> {
    if items == [] then []
    else
      var line := items[0];
      [if HasKey(line, productId, size) then line.(quantity := quantity) else line]
        + SetQuantity(items[1..], productId, size, quantity)
  }

  /** `updateQuantity(productId, size, quantity)`: a quantity of zero or less removes the line. */
  function ChangeQuantity(items: seq<CartLine>, productId: string, size: string, quantity: int): seq<CartLine> {
    if quantity <= 0 then RemoveLine(items, productId, size)
    else SetQuantity(items, productId, size, quantity)
  }

  /** A line's subtotal: price times quantity, in cents. */
  function LineTotal(line: CartLine): int {
    line.price * line.quantity
  }

  /** `cartTotal`: the sum of price times quantity, in cents. */
  function CartTotal(items: seq<CartLine>): int {
    if items == [] then 0 else LineTotal(items[0]) + CartTotal(items[1..])
  }

  /** `cartCount`: the sum of the quantities. */
  function CartCount(items: seq<CartLine>): int {
    if items == [] then 0 else items[0].quantity + CartCount(items[1..])
  }

  /** The total quantity held under one key. */
  function QuantityOf(items: seq<CartLine>, productId: string, size: string): int {
    if items == [] then 0
    else (if HasKey(items[0], productId, size) then items[0].quantity else 0) + QuantityOf(items[1..], productId, size)
  }

  // ----- element-wise characterisations -----

  lemma {:induction false} RaiseAt(items: seq<CartLine>, productId: string, size: string, amount: int)
    ensures |Raise(items, productId, size, amount)| == |items|
    ensures forall i :: 0 <= i < |items| ==> (Raise(items, productId, size, amount)[i] ==
      if HasKey(items[i], productId, size) then items[i].(quantity := items[i].quantity + amount) else items[i])
  {
    if items != [] {
      RaiseAt(items[1..], productId, size, amount);
    }
  }

  lemma {:induction false} SetQuantityAt(items: seq<CartLine>, productId: string, size: string, quantity: int)
    ensures |SetQuantity(items, productId, size, quantity)| == |items|
    ensures forall i :: 0 <= i < |items| ==> (SetQuantity(items, productId, size, quantity)[i] ==
      if HasKey(items[i], productId, size) then items[i].(quantity := quantity) else items[i])
  {
    if items != [] {
      SetQuantityAt(items[1..], productId, size, quantity);
    }
  }

  lemma {:induction false} RemoveLineAbsent(items: seq<CartLine>, productId: string, size: string)
    requires !Contains(items, productId, size)
    ensures RemoveLine(items, productId, size) == items
  {
    if items != [] {
      assert !HasKey(items[0], productId, size);
      assert !Contains(items[1..], productId, size) by {
        forall i | 0 <= i < |items[1..]| ensures !HasKey(items[1..][i], productId, size) {
          assert items[1..][i] == items[i + 1];
        }
      }
      RemoveLineAbsent(items[1..], productId, size);
      assert items == [items[0]] + items[1..];
    }
  }

  lemma {:induction false} RemoveLineMembers(items: seq<CartLine>, productId: string, size: string)
    ensures forall line :: line in RemoveLine(items, productId, size) <==> line in items && !HasKey(line, productId, size)
  {
    if items != [] {
      RemoveLineMembers(items[1..], productId, size);
      assert items == [items[0]] + items[1..];
    }
  }

  lemma {:induction false} SuffixUnique(items: seq<CartLine>)
    requires KeysUnique(items) && items != []
    ensures KeysUnique(items[1..])
    ensures !Contains(items[1..], items[0].productId, items[0].size)
  {
    assert forall i :: 0 <= i < |items[1..]| ==> items[1..][i] == items[i + 1];
  }

  // ----- addToCart -----

  /**
   * Adding under a key already present keeps the number of lines, raises
   * every line with that key by exactly `quantity` and leaves each line's
   * snapshotted name, price and image, and every other line, as it was.
   */
  lemma AddExisting(items: seq<CartLine>, product: ProductModel.Product, size: string, quantity: int)
    requires Contains(items, product.id, size)
    ensures |AddLine(items, product, size, quantity)| == |items|
    ensures forall i :: 0 <= i < |items| ==> (AddLine(items, product, size, quantity)[i] ==
      if HasKey(items[i], product.id, size) then items[i].(quantity := items[i].quantity + quantity) else items[i])
  {
    RaiseAt(items, product.id, size, quantity);
  }

  /** With unique keys the merge touches exactly the one line `k`. */
  lemma AddExistingUnique(items: seq<CartLine>, product: ProductModel.Product, size: string, quantity: int, k: nat)
    requires KeysUnique(items) && k < |items| && HasKey(items[k], product.id, size)
    ensures AddLine(items, product, size, quantity) == items[k := items[k].(quantity := items[k].quantity + quantity)]
  {
    RaiseAt(items, product.id, size, quantity);
  }

  /**
   * Adding under a new key appends one line at the end holding the
   * product's id, name, price and first image (or "") and the size and
   * quantity exactly as given, with no validation; earlier lines are kept.
   */
  lemma AddNew(items: seq<CartLine>, product: ProductModel.Product, size: string, quantity: int)
    requires !Contains(items, product.id, size)
    ensures var r := AddLine(items, product, size, quantity);
      && |r| == |items| + 1 && r[..|items|] == items
      && r[|items|].productId == product.id && r[|items|].name == product.name
      && r[|items|].price == product.price
      && r[|items|].image == (if |product.images| > 0 then product.images[0] else "")
      && r[|items|].size == size && r[|items|].quantity == quantity
  {
    var r := AddLine(items, product, size, quantity);
    assert r == items + [NewLine(product, size, quantity)];
    assert r[..|items|] == items;
  }

  /** `addToCart` never creates a second line for a key. */
  lemma AddPreservesUnique(items: seq<CartLine>, product: ProductModel.Product, size: string, quantity: int)
    requires KeysUnique(items)
    ensures KeysUnique(AddLine(items, product, size, quantity))
  {
    if Contains(items, product.id, size) {
      RaiseAt(items, product.id, size, quantity);
    } else {
      var r := items + [NewLine(product, size, quantity)];
      forall i, j | 0 <= i < j < |r| ensures !HasKey(r[j], r[i].productId, r[i].size) {
        if j == |items| {
          assert r[i] == items[i];
        }
      }
    }
  }

  // ----- removeFromCart -----

  /** Removal keeps each line without the key exactly as often as it occurs. */
  lemma {:induction false} RemoveLineCounts(items: seq<CartLine>, productId: string, size: string)
    ensures forall line :: (multiset(RemoveLine(items, productId, size))[line] ==
      if HasKey(line, productId, size) then 0 else multiset(items)[line])
  {
    if items != [] {
      RemoveLineCounts(items[1..], productId, size);
      assert items == [items[0]] + items[1..];
      assert multiset(items) == multiset{items[0]} + multiset(items[1..]);
    }
  }

  /**
   * Removing leaves no line with the key and keeps every other line, each as
   * often as it occurred.
   */
  lemma RemoveSpec(items: seq<CartLine>, productId: string, size: string)
    ensures !Contains(RemoveLine(items, productId, size), productId, size)
    ensures forall line :: line in RemoveLine(items, productId, size) <==> line in items && !HasKey(line, productId, size)
    ensures forall line :: (multiset(RemoveLine(items, productId, size))[line] ==
      if HasKey(line, productId, size) then 0 else multiset(items)[line])
    ensures !Contains(items, productId, size) ==> RemoveLine(items, productId, size) == items
  {
    RemoveLineMembers(items, productId, size);
    RemoveLineCounts(items, productId, size);
    var r := RemoveLine(items, productId, size);
    forall i | 0 <= i < |r| ensures !HasKey(r[i], productId, size) {
      assert r[i] in r;
    }
    if !Contains(items, productId, size) {
      RemoveLineAbsent(items, productId, size);
    }
  }

  /** Removal works piecewise, so the lines it keeps stay in their order. */
  lemma {:induction false} RemoveSplits(a: seq<CartLine>, b: seq<CartLine>, productId: string, size: string)
    ensures RemoveLine(a + b, productId, size) == RemoveLine(a, productId, size) + RemoveLine(b, productId, size)
  {
    if a == [] {
      assert a + b == b;
    } else {
      assert (a + b)[0] == a[0];
      assert (a + b)[1..] == a[1..] + b;
      RemoveSplits(a[1..], b, productId, size);
    }
  }

  /** With unique keys, removing the line `k` cuts exactly that line out, keeping the order of the rest. */
  lemma {:induction false} RemoveUnique(items: seq<CartLine>, productId: string, size: string, k: nat)
    requires KeysUnique(items) && k < |items| && HasKey(items[k], productId, size)
    ensures RemoveLine(items, productId, size) == items[..k] + items[k + 1..]
  {
    SuffixUnique(items);
    if k == 0 {
      RemoveLineAbsent(items[1..], productId, size);
    } else {
      assert !HasKey(items[0], productId, size);
      RemoveUnique(items[1..], productId, size, k - 1);
      assert items[..k] == [items[0]] + items[1..][..k - 1];
      assert items[k + 1..] == items[1..][k..];
    }
  }

  /** Removing keeps keys unique. */
  lemma {:induction false} RemovePreservesUnique(items: seq<CartLine>, productId: string, size: string)
    requires KeysUnique(items)
    ensures KeysUnique(RemoveLine(items, productId, size))
  {
    if items != [] {
      SuffixUnique(items);
      RemovePreservesUnique(items[1..], productId, size);
      if !HasKey(items[0], productId, size) {
        var rest := RemoveLine(items[1..], productId, size);
        RemoveLineMembers(items[1..], productId, size);
        var r := [items[0]] + rest;
        forall i, j | 0 <= i < j < |r| ensures !HasKey(r[j], r[i].productId, r[i].size) {
          if i == 0 {
            assert r[j] in rest;
            assert r[j] in items[1..];
          }
        }
      }
    }
  }

  // ----- updateQuantity -----

  /**
   * A quantity of zero or less is a removal; a positive one overwrites the
   * quantity of the lines with the key only, keeping length and order, and
   * is a no-op when the key is absent.
   */
  lemma UpdateSpec(items: seq<CartLine>, productId: string, size: string, quantity: int)
    ensures quantity <= 0 ==> ChangeQuantity(items, productId, size, quantity) == RemoveLine(items, productId, size)
    ensures quantity > 0 ==>
      && |ChangeQuantity(items, productId, size, quantity)| == |items|
      && forall i :: 0 <= i < |items| ==> (ChangeQuantity(items, productId, size, quantity)[i] ==
           if HasKey(items[i], productId, size) then items[i].(quantity := quantity) else items[i])
    ensures quantity > 0 && !Contains(items, productId, size) ==> ChangeQuantity(items, productId, size, quantity) == items
  {
    SetQuantityAt(items, productId, size, quantity);
  }

  /** Updating keeps keys unique. */
  lemma UpdatePreservesUnique(items: seq<CartLine>, productId: string, size: string, quantity: int)
    requires KeysUnique(items)
    ensures KeysUnique(ChangeQuantity(items, productId, size, quantity))
  {
    if quantity <= 0 {
      RemovePreservesUnique(items, productId, size);
    } else {
      SetQuantityAt(items, productId, size, quantity);
    }
  }

  // ----- totals -----

  lemma {:induction false} TotalsOfUpdate(items: seq<CartLine>, k: nat, line: CartLine)
    requires k < |items|
    ensures CartTotal(items[k := line]) == CartTotal(items) - LineTotal(items[k]) + LineTotal(line)
    ensures CartCount(items[k := line]) == CartCount(items) - items[k].quantity + line.quantity
  {
    if k > 0 {
      TotalsOfUpdate(items[1..], k - 1, line);
      assert items[k := line][1..] == items[1..][k - 1 := line];
    }
  }

  lemma {:induction false} TotalsOfAppend(items: seq<CartLine>, line: CartLine)
    ensures CartTotal(items + [line]) == CartTotal(items) + LineTotal(line)
    ensures CartCount(items + [line]) == CartCount(items) + line.quantity
  {
    if items != [] {
      TotalsOfAppend(items[1..], line);
      assert (items + [line])[1..] == items[1..] + [line];
    }
  }

  lemma {:induction false} TotalsOfCut(items: seq<CartLine>, k: nat)
    requires k < |items|
    ensures CartTotal(items[..k] + items[k + 1..]) == CartTotal(items) - LineTotal(items[k])
    ensures CartCount(items[..k] + items[k + 1..]) == CartCount(items) - items[k].quantity
  {
    if k > 0 {
      TotalsOfCut(items[1..], k - 1);
      assert (items[..k] + items[k + 1..])[1..] == items[1..][..k - 1] + items[1..][k..];
    } else {
      assert items[..0] + items[1..] == items[1..];
    }
  }

  lemma RaisedLineTotal(line: CartLine, amount: int)
    ensures LineTotal(line.(quantity := line.quantity + amount)) == LineTotal(line) + line.price * amount
  {
    assert line.price * (line.quantity + amount) == line.price * line.quantity + line.price * amount;
  }

  lemma RaiseOneTotal(items: seq<CartLine>, k: nat, amount: int)
    requires k < |items|
    ensures CartTotal(items[k := items[k].(quantity := items[k].quantity + amount)]) == CartTotal(items) + items[k].price * amount
  {
    TotalsOfUpdate(items, k, items[k].(quantity := items[k].quantity + amount));
    RaisedLineTotal(items[k], amount);
  }

  /** Adding raises `cartCount` by exactly `quantity`. */
  lemma AddCount(items: seq<CartLine>, product: ProductModel.Product, size: string, quantity: int)
    requires KeysUnique(items)
    ensures CartCount(AddLine(items, product, size, quantity)) == CartCount(items) + quantity
  {
    if Contains(items, product.id, size) {
      var k :| 0 <= k < |items| && HasKey(items[k], product.id, size);
      AddExistingUnique(items, product, size, quantity, k);
      TotalsOfUpdate(items, k, items[k].(quantity := items[k].quantity + quantity));
    } else {
      TotalsOfAppend(items, NewLine(product, size, quantity));
    }
  }

  /** Adding under a new key raises `cartTotal` by the product's current price times `quantity`. */
  lemma AddTotalNew(items: seq<CartLine>, product: ProductModel.Product, size: string, quantity: int)
    requires !Contains(items, product.id, size)
    ensures CartTotal(AddLine(items, product, size, quantity)) == CartTotal(items) + product.price * quantity
  {
    TotalsOfAppend(items, NewLine(product, size, quantity));
    assert LineTotal(NewLine(product, size, quantity)) == product.price * quantity;
  }

  /**
   * Adding under the key of line `k` raises `cartTotal` by the price
   * snapshotted in that line, not the product's current price, times `quantity`.
   */
  lemma AddTotalExisting(items: seq<CartLine>, product: ProductModel.Product, size: string, quantity: int, k: nat)
    requires KeysUnique(items) && k < |items| && HasKey(items[k], product.id, size)
    ensures CartTotal(AddLine(items, product, size, quantity)) == CartTotal(items) + items[k].price * quantity
  {
    AddExistingUnique(items, product, size, quantity, k);
    RaiseOneTotal(items, k, quantity);
  }

  /** Removing the line `k` takes exactly its price times quantity off the total and its quantity off the count. */
  lemma RemoveTotals(items: seq<CartLine>, productId: string, size: string, k: nat)
    requires KeysUnique(items) && k < |items| && HasKey(items[k], productId, size)
    ensures CartTotal(RemoveLine(items, productId, size)) == CartTotal(items) - items[k].price * items[k].quantity
    ensures CartCount(RemoveLine(items, productId, size)) == CartCount(items) - items[k].quantity
  {
    RemoveUnique(items, productId, size, k);
    TotalsOfCut(items, k);
  }

  /**
   * Two sizes of the same product are two lines: adding 40.00 "M" twice
   * over and then 40.00 "L" once gives two lines, total 120.00, count 3.
   */
  lemma TwoSizesTwoLines(product: ProductModel.Product)
    requires product.price == 4000
    ensures var cart := AddLine(AddLine([], product, "M", 2), product, "L", 1);
      && |cart| == 2
      && cart[0] == NewLine(product, "M", 2) && cart[1] == NewLine(product, "L", 1)
      && CartTotal(cart) == 12000 && CartCount(cart) == 3
  {
    var first := AddLine([], product, "M", 2);
    assert first == [NewLine(product, "M", 2)];
    assert !Contains(first, product.id, "L") by {
      assert !HasKey(first[0], product.id, "L");
    }
    var cart := AddLine(first, product, "L", 1);
    assert cart == [NewLine(product, "M", 2), NewLine(product, "L", 1)];
    TotalsOfAppend([], NewLine(product, "M", 2));
    assert [] + [NewLine(product, "M", 2)] == first;
    TotalsOfAppend(first, NewLine(product, "L", 1));
    assert LineTotal(NewLine(product, "M", 2)) == 8000 && LineTotal(NewLine(product, "L", 1)) == 4000;
  }

  // ----- repeated adds -----

  /** `addToCart(product, size, q)` for each `q` in turn. */
  function AddEach(items: seq<CartLine>, product: ProductModel.Product, size: string, quantities: seq<int>): seq<CartLine>
    decreases |quantities|
  {
    if quantities == [] then items
    else AddEach(AddLine(items, product, size, quantities[0]), product, size, quantities[1..])
  }

  function Sum(xs: seq<int>): int {
    if xs == [] then 0 else xs[0] + Sum(xs[1..])
  }

  lemma {:induction false} QuantityOfOtherwise(items: seq<CartLine>, productId: string, size: string)
    requires !Contains(items, productId, size)
    ensures QuantityOf(items, productId, size) == 0
  {
    if items != [] {
      assert !Contains(items[1..], productId, size) by {
        forall i | 0 <= i < |items[1..]| ensures !HasKey(items[1..][i], productId, size) {
          assert items[1..][i] == items[i + 1];
        }
      }
      QuantityOfOtherwise(items[1..], productId, size);
    }
  }

  lemma {:induction false} QuantityOfRaise(items: seq<CartLine>, productId: string, size: string, amount: int)
    requires KeysUnique(items) && Contains(items, productId, size)
    ensures QuantityOf(Raise(items, productId, size, amount), productId, size) == QuantityOf(items, productId, size) + amount
  {
    SuffixUnique(items);
    if HasKey(items[0], productId, size) {
      assert !Contains(items[1..], productId, size);
      RaiseAt(items[1..], productId, size, amount);
      assert forall i :: 0 <= i < |items[1..]| ==> Raise(items[1..], productId, size, amount)[i] == items[1..][i];
      assert Raise(items[1..], productId, size, amount) == items[1..];
    } else {
      var k :| 0 <= k < |items| && HasKey(items[k], productId, size);
      assert items[1..][k - 1] == items[k];
      QuantityOfRaise(items[1..], productId, size, amount);
    }
  }

  lemma {:induction false} QuantityOfAppend(items: seq<CartLine>, line: CartLine, productId: string, size: string)
    ensures QuantityOf(items + [line], productId, size) ==
      QuantityOf(items, productId, size) + (if HasKey(line, productId, size) then line.quantity else 0)
  {
    if items != [] {
      QuantityOfAppend(items[1..], line, productId, size);
      assert (items + [line])[1..] == items[1..] + [line];
    }
  }

  /**
   * Any run of adds under one key leaves exactly one line with that key
   * (once anything was added), and its quantity is the quantity held before
   * plus the sum of everything added.
   */
  lemma {:induction false} AddEachMerges(items: seq<CartLine>, product: ProductModel.Product, size: string, quantities: seq<int>)
    requires KeysUnique(items)
    requires Contains(items, product.id, size) || quantities != []
    ensures var r := AddEach(items, product, size, quantities);
      && KeysUnique(r) && Contains(r, product.id, size)
      && QuantityOf(r, product.id, size) == QuantityOf(items, product.id, size) + Sum(quantities)
    decreases |quantities|
  {
    if quantities != [] {
      var next := AddLine(items, product, size, quantities[0]);
      AddPreservesUnique(items, product, size, quantities[0]);
      if Contains(items, product.id, size) {
        QuantityOfRaise(items, product.id, size, quantities[0]);
        var k :| 0 <= k < |items| && HasKey(items[k], product.id, size);
        RaiseAt(items, product.id, size, quantities[0]);
        assert HasKey(next[k], product.id, size);
      } else {
        QuantityOfOtherwise(items, product.id, size);
        QuantityOfAppend(items, NewLine(product, size, quantities[0]), product.id, size);
        assert HasKey(next[|items|], product.id, size);
      }
      AddEachMerges(next, product, size, quantities[1..]);
    }
  }

  // ----- persistence -----

  const CartKey: string := "luxe-cart"

  /**
   * A value in browser storage: the JSON text of a list of cart lines, or
   * text on which `JSON.parse` throws. Text that parses to something other
   * than a list of lines is not represented.
   */
  datatype Stored = CartJson(lines: seq<CartLine>) | Text(raw: string)

  /** What the mount effect loads: the stored lines, or an empty cart when the key is absent, empty or unparseable. */
  function Restore(entries: map<string, Stored>): seq<CartLine> {
    if CartKey in entries && entries[CartKey].CartJson? then entries[CartKey].lines else []
  }

  /** The browser's `localStorage`, shared by every part of the page. */
  class LocalStorage {
    var entries: map<string, Stored>

    constructor (entries: map<string, Stored>)
      ensures this.entries == entries
    {
      this.entries := entries;
    }

    method SetItem(key: string, value: Stored)
      modifies this
      ensures entries == old(entries)[key := value]
    {
      entries := entries[key := value];
    }

    method RemoveItem(key: string)
      modifies this
      ensures entries == old(entries) - {key}
    {
      entries := entries - {key};
    }
  }

  /** The cart provider: the current lines and the storage they are written back to. */
  class CartProvider {
    var items: seq<CartLine>
    const store: LocalStorage

    /** The stored cart is the current one. */
    ghost predicate Valid()
      reads this, store
    {
      CartKey in store.entries && store.entries[CartKey] == CartJson(items)
    }

    /**
     * Mounting runs the load effect (fail-open: text that does not parse is
     * removed and the cart starts empty) and then the write-back effect.
     */
    constructor Mount(store: LocalStorage)
      modifies store
      ensures this.store == store
      ensures items == Restore(old(store.entries))
      ensures store.entries == old(store.entries)[CartKey := CartJson(items)]
      ensures Valid()
    {
      this.store := store;
      items := [];
      if CartKey in store.entries {
        match store.entries[CartKey]
        case CartJson(lines) =>
          items := lines;
        case Text(raw) =>
          if raw != "" {
            store.RemoveItem(CartKey);
          }
      }
      new;
      store.SetItem(CartKey, CartJson(items));
    }

    /** `cartTotal`. */
    function Total(): int
      reads this
    {
      CartTotal(items)
    }

    /** `cartCount`. */
    function Count(): int
      reads this
    {
      CartCount(items)
    }

    method AddToCart(product: ProductModel.Product, size: string, quantity: int)
      requires Valid()
      modifies this, store
      ensures items == AddLine(old(items), product, size, quantity)
      ensures store.entries == old(store.entries)[CartKey := CartJson(items)]
      ensures Valid()
      ensures KeysUnique(old(items)) ==> KeysUnique(items)
    {
      if KeysUnique(items) {
        AddPreservesUnique(items, product, size, quantity);
      }
      items := AddLine(items, product, size, quantity);
      store.SetItem(CartKey, CartJson(items));
    }

    method RemoveFromCart(productId: string, size: string)
      requires Valid()
      modifies this, store
      ensures items == RemoveLine(old(items), productId, size)
      ensures store.entries == old(store.entries)[CartKey := CartJson(items)]
      ensures Valid()
      ensures KeysUnique(old(items)) ==> KeysUnique(items)
    {
      if KeysUnique(items) {
        RemovePreservesUnique(items, productId, size);
      }
      items := RemoveLine(items, productId, size);
      store.SetItem(CartKey, CartJson(items));
    }

    method UpdateQuantity(productId: string, size: string, quantity: int)
      requires Valid()
      modifies this, store
      ensures items == ChangeQuantity(old(items), productId, size, quantity)
      ensures store.entries == old(store.entries)[CartKey := CartJson(items)]
      ensures Valid()
      ensures KeysUnique(old(items)) ==> KeysUnique(items)
    {
      if quantity <= 0 {
        RemoveFromCart(productId, size);
        return;
      }
      if KeysUnique(items) {
        UpdatePreservesUnique(items, productId, size, quantity);
      }
      items := SetQuantity(items, productId, size, quantity);
      store.SetItem(CartKey, CartJson(items));
    }

    method ClearCart()
      requires Valid()
      modifies this, store
      ensures items == []
      ensures Total() == 0 && Count() == 0
      ensures store.entries == old(store.entries)[CartKey := CartJson([])]
      ensures Valid()
    {
      items := [];
      store.SetItem(CartKey, CartJson(items));
    }
  }

  /** Mounting a second provider on the storage a first one wrote back reloads the same lines. */
  method Reload(provider: CartProvider) returns (reloaded: CartProvider)
    requires provider.Valid()
    modifies provider.store
    ensures reloaded.items == provider.items && reloaded.store == provider.store
    ensures provider.store.entries == old(provider.store.entries)
  {
    reloaded := new CartProvider.Mount(provider.store);
  }

  /** Mounting on a stored value that is not a cart starts empty and overwrites it with the empty cart. */
  method MountCorrupt(store: LocalStorage, raw: string) returns (provider: CartProvider)
    requires CartKey in store.entries && store.entries[CartKey] == Text(raw)
    modifies store
    ensures provider.items == [] && provider.Total() == 0 && provider.Count() == 0
    ensures store.entries == old(store.entries)[CartKey := CartJson([])]
  {
    provider := new CartProvider.Mount(store);
  }
}
