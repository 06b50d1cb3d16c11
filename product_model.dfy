/**
 * The product schema: a product document, the schema's validity rule, and
 * `Product.create`, which applies the schema's `trim` setter and defaults,
 * validates, and inserts into the product collection.
 */
module ProductModel {
  import opened Wrappers
  import Text

  const Categories: seq<string> := ["Men", "Women", "New Arrivals"]
  const Sizes: seq<string> := ["XS", "S", "M", "L", "XL", "XXL"]

  /** A stored product. Prices are integer cents; `createdAt` is a clock reading. */
  datatype Product = Product(
    id: string,
    name: string,
    description: string,
    price: int,
    category: string,
    images: seq<string>,
    sizes: seq<string>,
    stock: int,
    featured: bool,
    createdAt: int)

  /** What the schema admits for a stored product. */
  predicate Valid(p: Product) {
    && p.name != "" && Text.IsTrimmed(p.name)
    && p.description != ""
    && p.price >= 0
    && p.category in Categories
    && (forall i :: 0 <= i < |p.sizes| ==> p.sizes[i] in Sizes)
    && p.stock >= 0
  }

  /**
   * A create request body: `None` is an absent field, an absent list is
   * `[]`. A `createdAt` sent in the body is kept; the schema's default
   * applies only when it is absent.
   */
  datatype ProductInput = ProductInput(
    name: Option<string>,
    description: Option<string>,
    price: Option<int>,
    category: Option<string>,
    images: seq<string>,
    sizes: seq<string>,
    stock: Option<int>,
    featured: Option<bool>,
    createdAt: Option<int>)

  /** The schema path that failed validation, and how. */
  datatype ValidationError = Required(path: string) | BelowMinimum(path: string) | NotInEnum(path: string)

  /** A required string: present and not empty. */
  predicate Present(s: Option<string>) {
    s.Some? && s.value != ""
  }

  /** The trimmed name, or `None` when no name was sent. */
  function TrimmedName(input: ProductInput): Option<string> {
    if input.name.Some? then Some(Text.Trim(input.name.value)) else None
  }

  /** The request bodies `Product.create` accepts. */
  predicate Acceptable(input: ProductInput) {
    && Present(TrimmedName(input))
    && Present(input.description)
    && input.price.Some? && input.price.value >= 0
    && Present(input.category) && input.category.value in Categories
    && (forall i :: 0 <= i < |input.sizes| ==> input.sizes[i] in Sizes)
    && input.stock.GetOr(0) >= 0
  }

  /**
   * The document `Product.create(input)` stores, with the id and clock
   * reading the database supplies, or the first failing path in schema order.
   */
  function Build(input: ProductInput, id: string, now: int): Result<Product, ValidationError> {
    var name := TrimmedName(input);
    if !Present(name) then Failure(Required("name"))
    else if !Present(input.description) then Failure(Required("description"))
    else if input.price.None? then Failure(Required("price"))
    else if input.price.value < 0 then Failure(BelowMinimum("price"))
    else if !Present(input.category) then Failure(Required("category"))
    else if input.category.value !in Categories then Failure(NotInEnum("category"))
    else if exists i :: 0 <= i < |input.sizes| && input.sizes[i] !in Sizes then Failure(NotInEnum("sizes"))
    else if input.stock.GetOr(0) < 0 then Failure(BelowMinimum("stock"))
    else Success(Product(id, name.value, input.description.value, input.price.value, input.category.value,
                         input.images, input.sizes, input.stock.GetOr(0), input.featured.GetOr(false), input.createdAt.GetOr(now)))
  }

  /**
   * Creation succeeds exactly for acceptable bodies; what it stores is valid,
   * carries the trimmed name and the sent fields, and defaults `stock` to 0,
   * `featured` to false and `createdAt` to the creation time when the body
   * carries none.
   */
  lemma BuildSpec(input: ProductInput, id: string, now: int)
    ensures Build(input, id, now).Success? <==> Acceptable(input)
    ensures Build(input, id, now).Success? ==>
      var p := Build(input, id, now).value;
      && Valid(p)
      && p.id == id && p.createdAt == (if input.createdAt.Some? then input.createdAt.value else now)
      && p.name == Text.Trim(input.name.value)
      && p.description == input.description.value
      && p.price == input.price.value && p.category == input.category.value
      && p.images == input.images && p.sizes == input.sizes
      && p.stock == (if input.stock.Some? then input.stock.value else 0)
      && p.featured == (input.featured.Some? && input.featured.value)
  {
  }

  /** A name of whitespace only is refused, because trimming runs before the required check. */
  lemma BlankNameRefused(input: ProductInput, id: string, now: int)
    requires input.name.Some? && Text.AllSpace(input.name.value)
    ensures Build(input, id, now) == Failure(Required("name"))
  {
    var t := Text.Trim(input.name.value);
    var i, j :| 0 <= i <= j <= |input.name.value| && t == input.name.value[i..j];
  }

  /** The product collection (`Product` as a mongoose model). */
  class ProductCollection {
    var products: seq<Product>

    constructor (products: seq<Product>)
      ensures this.products == products
    {
      this.products := products;
    }

    /** `Product.create(data)`: insert the built document, or store nothing on a validation error. */
    method Create(input: ProductInput, id: string, now: int) returns (r: Result<Product, ValidationError>)
      modifies this
      ensures r == Build(input, id, now)
      ensures products == if r.Success? then old(products) + [r.value] else old(products)
    {
      r := Build(input, id, now);
      if r.Success? {
        products := products + [r.value];
      }
    }
  }
}
