/** The request builders of the catalogue API: relative paths under
    https://fakestoreapi.com. */
module ApiSlice {
  import opened Wrappers
  import opened Types
  import opened Decimal
  import opened QueryParams

  const BaseUrl: string := "https://fakestoreapi.com"

  datatype SortOrder = Asc | Desc

  function SortName(s: SortOrder): string {
    match s
    case Asc => "asc"
    case Desc => "desc"
  }

  /** `{ limit?, sort? }`; a limit of 0 counts as absent, like any falsy value. */
  datatype ProductsArgs = ProductsArgs(limit: Option<int>, sort: Option<SortOrder>)

  predicate HasLimit(args: ProductsArgs) {
    args.limit.Some? && args.limit.value != 0
  }

  /** The parameters `getProducts` appends: `limit` first, then `sort`. */
  function ProductsParams(args: ProductsArgs): (ps: seq<Param>)
    ensures HasLimit(args) <==> Lookup(ps, "limit").Some?
    ensures HasLimit(args) ==> ps[0] == ("limit", IntToString(args.limit.value))
    ensures args.sort.Some? <==> Lookup(ps, "sort").Some?
    ensures args.sort.Some? ==> ps[|ps| - 1] == ("sort", SortName(args.sort.value))
    ensures |ps| == (if HasLimit(args) then 1 else 0) + (if args.sort.Some? then 1 else 0)
  {
    var ps := (if HasLimit(args) then [("limit", IntToString(args.limit.value))] else []) +
              (if args.sort.Some? then [("sort", SortName(args.sort.value))] else []);
    assert args.sort.Some? ==> ps[|ps| - 1].0 == "sort";
    ps
  }

  /** "/products", with "?" and the parameters only when there are any. */
  function ProductsPath(params: seq<Param>): (path: string)
    ensures params == [] ==> path == "/products"
    ensures params != [] ==> path == "/products?" + Serialize(params)
  {
    var q := Serialize(params);
    "/products" + (if q != "" then "?" + q else "")
  }

  /** The `getProducts` query builder, appending to a fresh `URLSearchParams`. */
  method GetProductsQuery(args: ProductsArgs) returns (path: string)
    ensures path == ProductsPath(ProductsParams(args))
  {
    var params := new SearchParams([]);
    if args.limit.Some? && args.limit.value != 0 {
      params.Append("limit", IntToString(args.limit.value));
    }
    if args.sort.Some? {
      params.Append("sort", SortName(args.sort.value));
    }
    var q := params.ToString();
    path := "/products" + (if q != "" then "?" + q else "");
  }

  /** Neither parameter, or a zero limit: no "?" at all. */
  lemma ProductsPathBare()
    ensures ProductsPath(ProductsParams(ProductsArgs(None, None))) == "/products"
    ensures ProductsPath(ProductsParams(ProductsArgs(Some(0), None))) == "/products"
  {
  }

  /** A limit of 5 and a descending sort give both parameters, limit first. */
  lemma ProductsParamsExample()
    ensures ProductsParams(ProductsArgs(Some(5), Some(Desc))) == [("limit", "5"), ("sort", "desc")]
  {
    assert IntToString(5) == "5";
    var ps := ProductsParams(ProductsArgs(Some(5), Some(Desc)));
    assert |ps| == 2 && ps[0] == ("limit", "5") && ps[1] == ("sort", "desc");
  }

  lemma LimitSortSerialized()
    ensures Serialize([("limit", "5"), ("sort", "desc")]) == "limit=5&sort=desc"
  {
    SerializeTwo(("limit", "5"), ("sort", "desc"));
  }

  lemma ProductsPathExample()
    ensures ProductsPath(ProductsParams(ProductsArgs(Some(5), Some(Desc)))) == "/products?limit=5&sort=desc"
  {
    ProductsParamsExample();
    LimitSortSerialized();
  }

  /** A fixed prefix followed by the printed id, as in `/products/${id}`. */
  function PathWithId(prefix: string, id: int): (path: string)
    ensures prefix <= path && path[|prefix|..] == IntToString(id)
  {
    prefix + IntToString(id)
  }

  /** Under one prefix, distinct ids give distinct paths. */
  lemma PathWithIdInjective(prefix: string, a: int, b: int)
    requires PathWithId(prefix, a) == PathWithId(prefix, b)
    ensures a == b
  {
    assert IntToString(a) == PathWithId(prefix, a)[|prefix|..];
    assert IntToString(b) == PathWithId(prefix, b)[|prefix|..];
    IntToStringInjective(a, b);
  }

  function ProductByIdPath(id: int): (path: string)
    ensures "/products/" <= path && path[|"/products/"|..] == IntToString(id)
  {
    PathWithId("/products/", id)
  }

  /** Distinct ids give distinct product paths. */
  lemma ProductByIdPathInjective(a: int, b: int)
    requires ProductByIdPath(a) == ProductByIdPath(b)
    ensures a == b
  {
    PathWithIdInjective("/products/", a, b);
  }

  /** The category goes into the path as given, without percent-encoding. */
  function CategoryPath(category: string): (path: string)
    ensures "/products/category/" <= path && path[|"/products/category/"|..] == category
  {
    "/products/category/" + category
  }

  const CategoriesPath: string := "/products/categories"

  function UserPath(id: int): (path: string)
    ensures "/users/" <= path && path[|"/users/"|..] == IntToString(id)
  {
    PathWithId("/users/", id)
  }

  datatype HttpMethod = Get | Post

  datatype LoginRequest = LoginRequest(url: string, httpMethod: HttpMethod, body: LoginCredentials)

  /** The login mutation: a POST to /auth/login with the credentials as body. */
  function LoginQuery(credentials: LoginCredentials): (r: LoginRequest)
    ensures r.url == "/auth/login" && r.httpMethod == Post && r.body == credentials
  {
    LoginRequest("/auth/login", Post, credentials)
  }
}
