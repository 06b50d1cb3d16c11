/**
 * The product card of the listing pages: its image or initials
 * placeholder, its category badge, and its one-click add to cart.
 */
module ProductCard {
  import opened Wrappers
  import Text
  import ProductModel
  import CartStore

  /** `CATEGORY_COLORS[category] || 'bg-gray-100 text-gray-600'`. */
  function BadgeClass(category: string): string {
    if category == "Men" then "bg-blue-50 text-blue-700"
    else if category == "Women" then "bg-pink-50 text-pink-700"
    else if category == "New Arrivals" then "bg-green-50 text-green-700"
    else "bg-gray-100 text-gray-600"
  }

  /** The placeholder's `bgColors[category] || 'bg-beige'`. */
  function BackgroundClass(category: string): string {
    if category == "Men" then "bg-gray-200"
    else if category == "Women" then "bg-rose-100"
    else if category == "New Arrivals" then "bg-emerald-100"
    else "bg-beige"
  }

  /** The card shows the placeholder when there is no first image or it is empty. */
  predicate ShowsPlaceholder(product: ProductModel.Product) {
    |product.images| == 0 || product.images[0] == ""
  }

  /** `map(w => w[0]).join('')`: the first character of every piece; an empty piece gives nothing. */
  function FirstChars(parts: seq<string>): string {
    if parts == [] then []
    else (if parts[0] == [] then [] else [parts[0][0]]) + FirstChars(parts[1..])
  }

  /** The placeholder's initials: first characters of the space-separated words, at most two, upper-cased. */
  function Initials(name: string): string {
    Text.ToUpper(Text.Take(FirstChars(Text.Split(name, ' ')), 2))
  }

  /**
   * An independent reading of "the first letter of each word": the
   * characters of `s` that are not a space and come first or right after a
   * space (`atStart` says whether the previous character was one).
   */
  function WordStarts(s: string, atStart: bool): string {
    if s == [] then []
    else (if atStart && s[0] != ' ' then [s[0]] else []) + WordStarts(s[1..], s[0] == ' ')
  }

  /** The size the quick add uses: the first listed size when it is non-empty, otherwise `M`. */
  function QuickAddSize(product: ProductModel.Product): string {
    if |product.sizes| > 0 && product.sizes[0] != "" then product.sizes[0] else CartStore.DefaultSize
  }

  /** `handleAddToCart`: one unit in the quick-add size. */
  function QuickAdd(items: seq<CartStore.CartLine>, product: ProductModel.Product): seq<CartStore.CartLine> {
    CartStore.AddLine(items, product, QuickAddSize(product), 1)
  }

  /** Splitting on spaces and taking each piece's first character picks exactly the word starts. */
  lemma {:induction false} FirstCharsOfSplit(s: string)
    ensures FirstChars(Text.Split(s, ' ')) == WordStarts(s, true)
    ensures FirstChars(Text.Split(s, ' ')[1..]) == WordStarts(s, false)
  {
    if s != [] {
      FirstCharsOfSplit(s[1..]);
      var rest := Text.Split(s[1..], ' ');
      if s[0] == ' ' {
        assert Text.Split(s, ' ') == [""] + rest;
        assert ([""] + rest)[1..] == rest;
      } else {
        var parts := [[s[0]] + rest[0]] + rest[1..];
        assert Text.Split(s, ' ') == parts;
        assert parts[1..] == rest[1..];
      }
    }
  }

  /**
   * The initials are the first one or two word starts of the name,
   * upper-cased: a one-word name gives one letter, and leading, trailing or
   * doubled spaces add nothing.
   */
  lemma InitialsSpec(name: string)
    ensures var starts := WordStarts(name, true);
      && |Initials(name)| == (if |starts| < 2 then |starts| else 2)
      && forall i :: 0 <= i < |Initials(name)| ==> Initials(name)[i] == Text.UpperChar(starts[i])
  {
    FirstCharsOfSplit(name);
  }

  lemma StartsOfWoolCoat()
    ensures WordStarts("Wool Coat", true) == "WC"
  {
    assert WordStarts("t", false) == "";
    assert WordStarts("at", false) == "";
    assert WordStarts("oat", false) == "";
    assert WordStarts("Coat", true) == "C";
    assert WordStarts(" Coat", false) == "C";
    assert WordStarts("l Coat", false) == "C";
    assert WordStarts("ol Coat", false) == "C";
    assert WordStarts("ool Coat", false) == "C";
  }

  /** A two-word name shows both initials: "Wool Coat" shows "WC". */
  lemma InitialsOfTwoWords()
    ensures Initials("Wool Coat") == "WC"
  {
    StartsOfWoolCoat();
    InitialsSpec("Wool Coat");
    var r := Initials("Wool Coat");
    assert |r| == 2 && r[0] == 'W' && r[1] == 'C';
  }

  lemma StartsOfSilk()
    ensures WordStarts(" silk", true) == "s"
  {
    assert WordStarts("k", false) == "";
    assert WordStarts("lk", false) == "";
    assert WordStarts("ilk", false) == "";
    assert WordStarts("silk", true) == "s";
  }

  /** A leading space adds nothing: " silk" shows "S". */
  lemma InitialsAfterLeadingSpace()
    ensures Initials(" silk") == "S"
  {
    StartsOfSilk();
    InitialsSpec(" silk");
    var r := Initials(" silk");
    assert |r| == 1 && r[0] == 'S';
  }

  /**
   * Each category of the schema gets its own badge and background, the
   * fallback ones are for anything else, and the badge never depends on
   * more than the category.
   */
  lemma CategoryClassesSpec(category: string)
    ensures category in ProductModel.Categories <==> BadgeClass(category) != "bg-gray-100 text-gray-600"
    ensures category in ProductModel.Categories <==> BackgroundClass(category) != "bg-beige"
    ensures forall other :: other in ProductModel.Categories && category in ProductModel.Categories && other != category ==>
      BadgeClass(other) != BadgeClass(category) && BackgroundClass(other) != BackgroundClass(category)
  {
  }

  /**
   * The quick add puts one unit of the product in the cart under its
   * quick-add size, which is one of the schema's sizes for a stored product
   * (the first listed one, or `M` when none is listed, which is then
   * `addToCart` with its default size); the count goes up by one. The card
   * shows its placeholder exactly when the line it adds carries no image.
   */
  lemma QuickAddSpec(items: seq<CartStore.CartLine>, product: ProductModel.Product)
    requires CartStore.KeysUnique(items)
    ensures ProductModel.Valid(product) ==> QuickAddSize(product) in ProductModel.Sizes
    ensures |product.sizes| == 0 ==> QuickAddSize(product) == "M"
    ensures |product.sizes| == 0 ==> QuickAdd(items, product) == CartStore.AddLineDefaults(items, product, None, None)
    ensures ShowsPlaceholder(product) <==> CartStore.NewLine(product, QuickAddSize(product), 1).image == ""
    ensures CartStore.Contains(QuickAdd(items, product), product.id, QuickAddSize(product))
    ensures CartStore.CartCount(QuickAdd(items, product)) == CartStore.CartCount(items) + 1
    ensures CartStore.KeysUnique(QuickAdd(items, product))
  {
    var size := QuickAddSize(product);
    CartStore.AddCount(items, product, size, 1);
    CartStore.AddPreservesUnique(items, product, size, 1);
    if CartStore.Contains(items, product.id, size) {
      var k :| 0 <= k < |items| && CartStore.HasKey(items[k], product.id, size);
      CartStore.AddExistingUnique(items, product, size, 1, k);
      assert CartStore.HasKey(QuickAdd(items, product)[k], product.id, size);
    } else {
      CartStore.AddNew(items, product, size, 1);
      assert CartStore.HasKey(QuickAdd(items, product)[|items|], product.id, size);
    }
  }
}
