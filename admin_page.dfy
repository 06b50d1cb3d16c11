/**
 * The admin page: the product form's size toggle, the payload its submit
 * builds (image URLs split on commas), the choice between updating and
 * creating, product deletion, and the admin-only gate on loading data.
 * The HTTP calls' outcomes are parameters.
 */
module AdminPage {
  import opened Wrappers
  import Text
  import Session
  import ProductModel
  import OrderModel

  const TokenKey: string := "luxe-token"
  const SaveFailed: string := "Failed to save product"
  const DeleteFailed: string := "Delete failed"

  // ----- the product form -----

  /** `prev.sizes.filter(s => s !== size)`. */
  function Without(sizes: seq<string>, size: string): seq<string> {
    if sizes == [] then []
    else (if sizes[0] == size then [] else [sizes[0]]) + Without(sizes[1..], size)
  }

  /** `toggleSize(size)`. */
  function ToggleSize(sizes: seq<string>, size: string): seq<string> {
    if size in sizes then Without(sizes, size) else sizes + [size]
  }

  lemma {:induction false} WithoutSpec(sizes: seq<string>, size: string)
    ensures forall x :: multiset(Without(sizes, size))[x] == if x == size then 0 else multiset(sizes)[x]
  {
    if sizes != [] {
      WithoutSpec(sizes[1..], size);
      assert sizes == [sizes[0]] + sizes[1..];
    }
  }

  /**
   * Toggling an absent size appends it and changes nothing else; toggling a
   * present size removes every occurrence of it and keeps every other
   * entry, as often as it occurred.
   */
  lemma ToggleSpec(sizes: seq<string>, size: string)
    ensures size !in sizes ==> ToggleSize(sizes, size) == sizes + [size]
    ensures size in sizes ==>
      && size !in ToggleSize(sizes, size)
      && forall x :: x != size ==> multiset(ToggleSize(sizes, size))[x] == multiset(sizes)[x]
  {
    WithoutSpec(sizes, size);
    if size in sizes {
      assert multiset(ToggleSize(sizes, size))[size] == 0;
    }
  }

  /** Toggling the same size twice restores which sizes are selected (their order may change). */
  lemma ToggleTwice(sizes: seq<string>, size: string)
    ensures forall x :: x in ToggleSize(ToggleSize(sizes, size), size) <==> x in sizes
  {
    var once := ToggleSize(sizes, size);
    ToggleSpec(sizes, size);
    ToggleSpec(once, size);
    var twice := ToggleSize(once, size);
    forall x ensures x in twice <==> x in sizes {
      if x != size {
        assert x in twice <==> multiset(twice)[x] > 0;
        assert x in sizes <==> multiset(sizes)[x] > 0;
      } else if size in sizes {
        assert twice == once + [size];
        assert twice[|once|] == size;
      }
    }
  }

  /** The form's images field: unset, the text the admin typed, or the list an edited product came with. */
  datatype ImagesField = Absent | TextField(text: string) | ListField(urls: seq<string>)

  /** `.map(s => s.trim()).filter(Boolean)`. */
  function Clean(pieces: seq<string>): seq<string> {
    if pieces == [] then []
    else
      var t := Text.Trim(pieces[0]);
      (if t == "" then [] else [t]) + Clean(pieces[1..])
  }

  /** The `images` sent: a text is split on commas and cleaned, a list passes through, an unset or empty field is `[]`. */
  function NormalizeImages(images: ImagesField): seq<string> {
    match images
    case Absent => []
    case TextField(text) => if text == "" then [] else Clean(Text.Split(text, ','))
    case ListField(urls) => urls
  }

  /** A URL that survives normalisation unchanged. */
  predicate CleanUrl(url: string) {
    url != "" && Text.IsTrimmed(url) && ',' !in url
  }

  /** Trimming a comma-free piece leaves it comma-free. */
  lemma TrimKeepsCommaFree(piece: string)
    requires ',' !in piece
    ensures ',' !in Text.Trim(piece)
  {
    var t := Text.Trim(piece);
    var i, j :| 0 <= i <= j <= |piece| && t == piece[i..j];
    forall k | 0 <= k < |t| ensures t[k] != ',' {
      assert t[k] == piece[i + k];
    }
  }

  predicate AllClean(urls: seq<string>) {
    forall i :: 0 <= i < |urls| ==> CleanUrl(urls[i])
  }

  lemma AllCleanConcat(a: seq<string>, b: seq<string>)
    requires AllClean(a) && AllClean(b)
    ensures AllClean(a + b)
  {
    forall i | 0 <= i < |a + b| ensures CleanUrl((a + b)[i]) {
      if i >= |a| {
        assert (a + b)[i] == b[i - |a|];
      }
    }
  }

  lemma {:induction false} CleanSpec(pieces: seq<string>)
    requires forall i :: 0 <= i < |pieces| ==> ',' !in pieces[i]
    ensures AllClean(Clean(pieces))
  {
    if pieces != [] {
      var first, more := pieces[0], pieces[1..];
      assert pieces == [first] + more;
      CleanSpec(more);
      TrimKeepsCommaFree(first);
      CleanCons(first, more);
      var t := Text.Trim(first);
      AllCleanConcat(if t == "" then [] else [t], Clean(more));
    }
  }

  /** Typed text yields only non-empty, trimmed, comma-free URLs. */
  lemma NormalizeTextSpec(text: string)
    ensures AllClean(NormalizeImages(TextField(text)))
  {
    CleanSpec(Text.Split(text, ','));
  }

  lemma CleanCons(piece: string, rest: seq<string>)
    ensures Clean([piece] + rest) == (if Text.Trim(piece) == "" then [] else [Text.Trim(piece)]) + Clean(rest)
  {
    assert ([piece] + rest)[1..] == rest;
  }

  /** A leading space before the first piece is trimmed away, so it changes nothing. */
  lemma CleanAfterSpace(tail: string)
    ensures Clean(Text.Split(" " + tail, ',')) == Clean(Text.Split(tail, ','))
  {
    var parts := Text.Split(tail, ',');
    var first, more := parts[0], parts[1..];
    assert parts == [first] + more;
    Text.SplitPrefix(" ", tail, ',');
    assert Text.Split(" " + tail, ',') == [" " + first] + more;
    Text.TrimIgnoresLeadingSpace(" ", first);
    CleanCons(" " + first, more);
    CleanCons(first, more);
  }

  lemma JoinCons(a: string, rest: seq<string>)
    requires |rest| >= 1
    ensures Text.Join([a] + rest, ", ") == a + ", " + Text.Join(rest, ", ")
  {
    assert ([a] + rest)[1..] == rest;
  }

  lemma CommaSpace(a: string, tail: string)
    ensures a + ", " + tail == a + [','] + (" " + tail)
  {
    assert ", " == [','] + " ";
  }

  lemma JoinComma(a: string, rest: seq<string>)
    requires |rest| >= 1
    ensures Text.Join([a] + rest, ", ") == a + [','] + (" " + Text.Join(rest, ", "))
  {
    JoinCons(a, rest);
    CommaSpace(a, Text.Join(rest, ", "));
  }

  lemma {:induction false} CleanSplitJoin(urls: seq<string>)
    requires AllClean(urls)
    ensures Clean(Text.Split(Text.Join(urls, ", "), ',')) == urls
  {
    if urls == [] {
      assert Text.Split("", ',') == [""];
      Text.TrimOfTrimmed("");
      CleanCons("", []);
      assert [""] + [] == [""];
    } else if |urls| == 1 {
      var a := urls[0];
      assert urls == [a] && [a] + [] == [a];
      Text.SplitWithoutSep(a, ',');
      Text.TrimOfTrimmed(a);
      CleanCons(a, []);
    } else {
      var a, rest := urls[0], urls[1..];
      assert urls == [a] + rest;
      assert AllClean(rest) by {
        forall i | 0 <= i < |rest| ensures CleanUrl(rest[i]) {
          assert rest[i] == urls[i + 1];
        }
      }
      var tail := Text.Join(rest, ", ");
      JoinComma(a, rest);
      Text.SplitAtSep(a, " " + tail, ',');
      Text.TrimOfTrimmed(a);
      CleanCons(a, Text.Split(" " + tail, ','));
      CleanAfterSpace(tail);
      CleanSplitJoin(rest);
      calc {
        Clean(Text.Split(Text.Join(urls, ", "), ','));
        Clean(Text.Split(a + [','] + (" " + tail), ','));
        Clean([a] + Text.Split(" " + tail, ','));
        [a] + Clean(Text.Split(" " + tail, ','));
        [a] + Clean(Text.Split(tail, ','));
      }
    }
  }

  /**
   * The form shows a product's URL list joined with `", "`; submitting that
   * text unchanged sends back the same list whenever its URLs are
   * non-empty, trimmed and free of commas.
   */
  lemma ImagesRoundTrip(urls: seq<string>)
    requires AllClean(urls)
    ensures NormalizeImages(TextField(Text.Join(urls, ", "))) == urls
  {
    CleanSplitJoin(urls);
  }

  /**
   * The form's fields; prices and stock are already read as numbers (cents),
   * `None` when unreadable. An edited product's form starts as the product
   * itself, so it also carries its `createdAt`; a new product's has none.
   */
  datatype ProductForm = ProductForm(
    name: string, description: string, price: Option<int>, category: string,
    images: ImagesField, sizes: seq<string>, stock: Option<int>, featured: bool,
    createdAt: Option<int>)

  /** The body the form's submit sends. */
  function Payload(form: ProductForm): ProductModel.ProductInput {
    ProductModel.ProductInput(Some(form.name), Some(form.description), form.price, Some(form.category),
      NormalizeImages(form.images), form.sizes, form.stock, Some(form.featured), form.createdAt)
  }

  /** `Bearer ${token}`: a missing token is sent as the text `null`. */
  function Authorization(token: Option<string>): string {
    "Bearer " + token.GetOr("null")
  }

  datatype SaveRequest =
    | Put(productId: string, payload: ProductModel.ProductInput, authorization: string)
    | PostNew(payload: ProductModel.ProductInput, authorization: string)

  /** The one request a submit makes: PUT for a product that has an id, POST otherwise. */
  function SaveRequestFor(editing: Option<string>, form: ProductForm, token: Option<string>): SaveRequest {
    if editing.Some? then Put(editing.value, Payload(form), Authorization(token))
    else PostNew(Payload(form), Authorization(token))
  }

  /** The alert a failed save or delete shows: the server's error or the fallback text. */
  function AlertText(serverError: Option<string>, fallback: string): string {
    if serverError.Some? && serverError.value != "" then serverError.value else fallback
  }

  /**
   * An edited product is updated in place and a new one created, never
   * both; either way the body is the form's payload, whose images obey the
   * normalisation rule and whose fields are the form's.
   */
  lemma SaveSpec(editing: Option<string>, form: ProductForm, token: Option<string>)
    ensures var r := SaveRequestFor(editing, form, token);
      && (r.Put? <==> editing.Some?)
      && (r.Put? ==> r.productId == editing.value)
      && r.payload.images == NormalizeImages(form.images)
      && r.payload.name == Some(form.name) && r.payload.sizes == form.sizes
      && r.payload.price == form.price && r.payload.stock == form.stock
      && r.payload.createdAt == form.createdAt
      && r.authorization == Authorization(token)
      && (form.images.ListField? ==> r.payload.images == form.images.urls)
      && (form.images.Absent? || form.images == TextField("") ==> r.payload.images == [])
  {
  }

  // ----- the page -----

  /** `luxe-user` as read from storage: nothing (or empty), a user record, or text that does not parse. */
  datatype StoredUser = NoUser | UserRecord(user: Session.AuthUser) | Unparseable

  datatype AdminRequest = GetProducts | GetOrders(authorization: string) | DeleteProduct(productId: string, authorization: string)

  datatype View = LoadingView | AccessDenied | Panel

  /** The page's state. */
  class AdminPanel {
    var user: Option<Session.AuthUser>
    var products: seq<ProductModel.Product>
    var orders: seq<OrderModel.Order>
    var loading: bool

    constructor ()
      ensures user.None? && products == [] && orders == [] && loading
    {
      user := None;
      products := [];
      orders := [];
      loading := true;
    }

    /** What the page renders. */
    function Render(): View
      reads this
    {
      if loading then LoadingView
      else if user.None? || !Session.IsAdmin(user.value) then AccessDenied
      else Panel
    }

    /** The first mount effect: read the stored user; says whether the stored value is removed. */
    method LoadUser(stored: StoredUser) returns (removeStored: bool)
      modifies this
      ensures user == if stored.UserRecord? then Some(stored.user) else old(user)
      ensures removeStored <==> stored.Unparseable?
      ensures products == old(products) && orders == old(orders) && loading == old(loading)
    {
      removeStored := false;
      match stored {
        case NoUser =>
        case UserRecord(u) =>
          user := Some(u);
        case Unparseable =>
          removeStored := true;
      }
    }

    /**
     * The effect that runs when `user` changes: an admin fetches products
     * and orders (a failed fetch leaves an empty list), anyone else fetches
     * nothing. Returns the requests made.
     */
    method OnUser(token: Option<string>, productsReply: Reply<seq<ProductModel.Product>>, ordersReply: Reply<seq<OrderModel.Order>>)
      returns (requests: seq<AdminRequest>)
      modifies this
      ensures user == old(user) && !loading
      ensures old(user).Some? && Session.IsAdmin(old(user).value) ==>
        && requests == [GetProducts, GetOrders(Authorization(token))]
        && products == (if productsReply.Ok? then productsReply.value else [])
        && orders == (if ordersReply.Ok? then ordersReply.value else [])
        && Render() == Panel
      ensures !(old(user).Some? && Session.IsAdmin(old(user).value)) ==>
        requests == [] && products == old(products) && orders == old(orders) && Render() == AccessDenied
    {
      if user.Some? && Session.IsAdmin(user.value) {
        FetchProducts(productsReply);
        orders := if ordersReply.Ok? then ordersReply.value else [];
        requests := [GetProducts, GetOrders(Authorization(token))];
      } else {
        loading := false;
        requests := [];
      }
    }

    /** `fetchProducts`: the loaded list, or `[]` on failure; loading ends either way. */
    method FetchProducts(reply: Reply<seq<ProductModel.Product>>)
      modifies this
      ensures products == (if reply.Ok? then reply.value else [])
      ensures !loading && user == old(user) && orders == old(orders)
    {
      loading := true;
      products := if reply.Ok? then reply.value else [];
      loading := false;
    }

    /**
     * `deleteProduct(id)`: nothing unless confirmed; otherwise the DELETE,
     * then on success a reload of the products, on failure an alert.
     */
    method Delete(id: string, confirmed: bool, token: Option<string>, deleted: Reply<()>, reloaded: Reply<seq<ProductModel.Product>>)
      returns (requests: seq<AdminRequest>, alert: Option<string>)
      modifies this
      ensures user == old(user) && orders == old(orders)
      ensures !confirmed ==> requests == [] && alert.None? && products == old(products) && loading == old(loading)
      ensures confirmed && deleted.Ok? ==>
        && requests == [DeleteProduct(id, Authorization(token)), GetProducts] && alert.None?
        && products == (if reloaded.Ok? then reloaded.value else []) && !loading
      ensures confirmed && deleted.Thrown? ==>
        && requests == [DeleteProduct(id, Authorization(token))]
        && alert == Some(AlertText(deleted.serverError, DeleteFailed))
        && products == old(products) && loading == old(loading)
    {
      if !confirmed {
        return [], None;
      }
      requests := [DeleteProduct(id, Authorization(token))];
      match deleted {
        case Ok(_) =>
          FetchProducts(reloaded);
          requests := requests + [GetProducts];
          alert := None;
        case Thrown(e) =>
          alert := Some(AlertText(e, DeleteFailed));
      }
    }
  }

  /** The product form's submit: the request made, and the alert shown when it fails (`None`: saved). */
  method SubmitProductForm(editing: Option<string>, form: ProductForm, token: Option<string>, reply: Reply<()>)
    returns (request: SaveRequest, alert: Option<string>)
    ensures request == SaveRequestFor(editing, form, token)
    ensures alert.None? <==> reply.Ok?
    ensures reply.Thrown? ==> alert == Some(AlertText(reply.serverError, SaveFailed))
  {
    request := SaveRequestFor(editing, form, token);
    alert := if reply.Ok? then None else Some(AlertText(reply.serverError, SaveFailed));
  }
}
