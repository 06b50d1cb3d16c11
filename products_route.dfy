/**
 * `/api/products`: GET builds a query from the URL's `category`, `featured`
 * and `search` parameters and lists the matching products newest first;
 * POST creates a product for an admin caller only. The regular-expression
 * search is an abstract matcher with an abstract validity test for the
 * pattern, and the database connection's success a parameter.
 */
module ProductsRoute {
  import opened Wrappers
  import opened ProductModel
  import Session
  import NewestFirst

  /** The URL's search parameters; `None` when absent. */
  datatype SearchParams = SearchParams(category: Option<string>, search: Option<string>, featured: Option<string>)

  /** The query object: each filter present or not. */
  datatype Query = Query(category: Option<string>, featuredOnly: bool, search: Option<string>)

  datatype ListResponse = Listed(products: seq<Product>) | ListFailed

  datatype PostResponse = Created(product: Product) | Unauthorized | PostFailed

  function PostStatus(response: PostResponse): int {
    match response
    case Created(_) => 201
    case Unauthorized => 401
    case PostFailed => 500
  }

  /** The query the GET handler builds from the parameters. */
  function BuildQuery(params: SearchParams): Query {
    Query(
      if params.category.Some? && params.category.value != "" && params.category.value != "All" then params.category else None,
      params.featured == Some("true"),
      if params.search.Some? && params.search.value != "" then params.search else None)
  }

  /**
   * A product satisfies the query. `matches(text, pattern)` stands for the
   * case-insensitive regular-expression match the database performs.
   */
  predicate Satisfies(p: Product, query: Query, matches: (string, string) -> bool) {
    && (query.category.None? || p.category == query.category.value)
    && (!query.featuredOnly || p.featured)
    && (query.search.None? || matches(p.name, query.search.value) || matches(p.description, query.search.value))
  }

  /** `Product.find(query)`: the satisfying products, in store order. */
  function Find(products: seq<Product>, query: Query, matches: (string, string) -> bool): seq<Product> {
    if products == [] then []
    else (if Satisfies(products[0], query, matches) then [products[0]] else []) + Find(products[1..], query, matches)
  }

  function CreatedAt(p: Product): int {
    p.createdAt
  }

  /**
   * GET: the products satisfying the built query, newest first. The search
   * text is sent as a regular expression; `validPattern` says whether the
   * database accepts it, and a rejected pattern fails the query (500).
   */
  function List(
    products: seq<Product>, params: SearchParams, matches: (string, string) -> bool,
    validPattern: string -> bool, dbUp: bool): ListResponse
  {
    var query := BuildQuery(params);
    if !dbUp then ListFailed
    else if query.search.Some? && !validPattern(query.search.value) then ListFailed
    else Listed(NewestFirst.Sort(Find(products, query, matches), CreatedAt))
  }

  /** The POST's answer: 401 for anyone but an admin, then 500 on any failure, else 201. */
  function PostResult(caller: Option<Session.AuthUser>, input: ProductInput, id: string, now: int, dbUp: bool): PostResponse {
    if caller.None? || !Session.IsAdmin(caller.value) then Unauthorized
    else if !dbUp then PostFailed
    else match Build(input, id, now)
      case Success(p) => Created(p)
      case Failure(_) => PostFailed
  }

  /** POST: the product is inserted exactly when the answer is 201. */
  method Post(db: ProductCollection, caller: Option<Session.AuthUser>, input: ProductInput, id: string, now: int, dbUp: bool)
    returns (response: PostResponse)
    modifies db
    ensures response == PostResult(caller, input, id, now, dbUp)
    ensures db.products == if response.Created? then old(db.products) + [response.product] else old(db.products)
  {
    if caller.None? || !Session.IsAdmin(caller.value) {
      return Unauthorized;
    }
    if !dbUp {
      return PostFailed;
    }
    var r := db.Create(input, id, now);
    if r.Success? {
      response := Created(r.value);
    } else {
      response := PostFailed;
    }
  }

  /**
   * The category filter is set exactly for a given category other than
   * `All`; the featured filter exactly for the string `true`; the search
   * filter exactly for a non-empty search.
   */
  lemma BuildQuerySpec(params: SearchParams)
    ensures BuildQuery(params).category.Some? <==>
      params.category.Some? && params.category.value != "" && params.category.value != "All"
    ensures BuildQuery(params).category.Some? ==> BuildQuery(params).category == params.category
    ensures BuildQuery(params).featuredOnly <==> params.featured == Some("true")
    ensures BuildQuery(params).search.Some? <==> params.search.Some? && params.search.value != ""
    ensures BuildQuery(params).search.Some? ==> BuildQuery(params).search == params.search
    ensures params == SearchParams(None, None, None) ==> BuildQuery(params) == Query(None, false, None)
  {
  }

  /** `Find` keeps every satisfying product, as often as it is stored, and nothing else. */
  lemma {:induction false} FindSpec(products: seq<Product>, query: Query, matches: (string, string) -> bool)
    ensures forall p :: (multiset(Find(products, query, matches))[p] ==
      if Satisfies(p, query, matches) then multiset(products)[p] else 0)
  {
    if products != [] {
      FindSpec(products[1..], query, matches);
      assert products == [products[0]] + products[1..];
    }
  }

  /**
   * With the database up, a GET fails (500) exactly when a non-empty search
   * is a pattern the database rejects. Otherwise it lists exactly the stored
   * products that pass every filter it built, each as often as stored,
   * newest first; a search matches on the name or the description.
   */
  lemma ListSpec(products: seq<Product>, params: SearchParams, matches: (string, string) -> bool, validPattern: string -> bool)
    ensures List(products, params, matches, validPattern, true).ListFailed? <==>
      params.search.Some? && params.search.value != "" && !validPattern(params.search.value)
    ensures List(products, params, matches, validPattern, true).Listed? ==>
      var listed := List(products, params, matches, validPattern, true).products;
      && (forall p :: multiset(listed)[p] == if Satisfies(p, BuildQuery(params), matches) then multiset(products)[p] else 0)
      && NewestFirst.Descending(listed, CreatedAt)
    ensures List(products, params, matches, validPattern, true).Listed? ==>
      forall p :: p in List(products, params, matches, validPattern, true).products ==>
      && (params.category.Some? && params.category.value != "" && params.category.value != "All" ==> p.category == params.category.value)
      && (params.featured == Some("true") ==> p.featured)
      && (params.search.Some? && params.search.value != "" ==>
            matches(p.name, params.search.value) || matches(p.description, params.search.value))
  {
    if List(products, params, matches, validPattern, true).Listed? {
      var found := Find(products, BuildQuery(params), matches);
      FindSpec(products, BuildQuery(params), matches);
      NewestFirst.SortPermutes(found, CreatedAt);
      NewestFirst.SortSorted(found, CreatedAt);
      var listed := List(products, params, matches, validPattern, true).products;
      forall p | p in listed
        ensures Satisfies(p, BuildQuery(params), matches)
      {
        assert multiset(listed)[p] > 0;
      }
    }
  }

  /** Without parameters every stored product is listed, whatever patterns the database accepts. */
  lemma ListAll(products: seq<Product>, matches: (string, string) -> bool, validPattern: string -> bool)
    ensures List(products, SearchParams(None, None, None), matches, validPattern, true).Listed?
    ensures multiset(List(products, SearchParams(None, None, None), matches, validPattern, true).products) == multiset(products)
  {
    ListSpec(products, SearchParams(None, None, None), matches, validPattern);
    var listed := List(products, SearchParams(None, None, None), matches, validPattern, true).products;
    assert forall p :: multiset(listed)[p] == multiset(products)[p];
  }

  /**
   * Only an admin can create: anyone else gets 401. An admin's POST gets
   * 201 exactly when the database is up and the body passes the schema,
   * and then the created product is valid.
   */
  lemma PostSpec(caller: Option<Session.AuthUser>, input: ProductInput, id: string, now: int, dbUp: bool)
    ensures var r := PostResult(caller, input, id, now, dbUp);
      && (PostStatus(r) == 401 <==> caller.None? || !Session.IsAdmin(caller.value))
      && (PostStatus(r) == 201 <==> caller.Some? && Session.IsAdmin(caller.value) && dbUp && Acceptable(input))
      && (r.Created? ==> Valid(r.product) && r.product.id == id && r.product.createdAt == input.createdAt.GetOr(now))
  {
    BuildSpec(input, id, now);
  }
}
