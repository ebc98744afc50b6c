/** The shared admin client: a fixed base URL, headers that carry the bearer
    credential only when a token is stored, and its `handleResponse`
    (`Http.AdminHandleResponse`). The referral service reuses these headers. */
module AdminApi {
  import opened Common
  import opened Json
  import opened Http
  import opened Queries

  const ApiBaseUrl: string := "https://tap-4lzu.onrender.com/api/v1"

  /** What `getHeaders` returns: JSON Content-Type and Accept always, and
      Authorization exactly when the stored record has a non-empty token */
  function AdminHeaders(st: Storage, codec: Codec): (h: map<string, string>)
    ensures "Content-Type" in h && h["Content-Type"] == JsonType
    ensures "Accept" in h && h["Accept"] == JsonType
    ensures "Authorization" in h <==> GetAuthToken(st, codec) != ""
    ensures "Authorization" in h ==> h["Authorization"] == "Bearer " + GetAuthToken(st, codec)
    ensures h.Keys <= {"Content-Type", "Accept", "Authorization"}
  {
    var base := map["Content-Type" := JsonType, "Accept" := JsonType];
    var token := GetAuthToken(st, codec);
    if token != "" then base["Authorization" := "Bearer " + token] else base
  }

  /** `getHeaders`: starts from the JSON headers and adds Authorization when
      the stored value is non-empty, parses, and has a truthy token; a parse
      failure is swallowed */
  method GetHeaders(st: Storage, codec: Codec) returns (headers: map<string, string>)
    ensures headers == AdminHeaders(st, codec)
  {
    headers := map["Content-Type" := JsonType, "Accept" := JsonType];
    var savedUser := Lookup(st, UserKey);
    if savedUser.Some? && savedUser.value != "" {
      var parsed := codec.parse(savedUser.value);
      if parsed.Some? {
        var token := TokenField(parsed.value);
        if token.Some? && token.value != "" {
          headers := headers["Authorization" := "Bearer " + token.value];
        }
      }
    }
  }

  /** Without a stored session the shared client sends no credential at all */
  lemma NoSessionNoAuthorization(st: Storage, codec: Codec)
    requires UserKey !in st
    ensures "Authorization" !in AdminHeaders(st, codec)
    ensures AdminHeaders(st, codec).Keys == {"Content-Type", "Accept"}
  {
  }

  /** `dashboardAPI.getStats`: GET /admin/dashboard */
  method GetStats(st: Storage, codec: Codec) returns (req: Request)
    ensures req.verb == GET && req.body.None?
    ensures req.url == Url(ApiBaseUrl, "/admin/dashboard", None)
    ensures req.headers == AdminHeaders(st, codec)
  {
    var headers := GetHeaders(st, codec);
    req := Request(GET, Url(ApiBaseUrl, "/admin/dashboard", None), headers, None);
  }

  /** `adminUsersAPI.getUsers`: GET /admin/users?page&limit&search&isActive&isCompleted */
  method GetUsers(st: Storage, codec: Codec, p: UsersParams) returns (req: Request)
    ensures req.verb == GET && req.body.None?
    ensures req.url.base == ApiBaseUrl && req.url.path == "/admin/users"
    ensures req.url.query == Some(Serialize(UsersFields(p)))
    ensures SendsTruthyNum(req.url.query.value, "page", p.page)
    ensures SendsTruthyNum(req.url.query.value, "limit", p.limit)
    ensures SendsDefinedBool(req.url.query.value, "isActive", p.isActive)
    ensures req.headers == AdminHeaders(st, codec)
  {
    var q := BuildUsersQuery(p);
    var headers := GetHeaders(st, codec);
    req := Request(GET, Url(ApiBaseUrl, "/admin/users", Some(q)), headers, None);
  }

  /** The per-user calls of both user clients */
  datatype UserCall =
    | GetUser(id: string)
    | UpdateUser(id: string, data: Json)
    | DeleteUser(id: string)
    | ToggleUserStatus(id: string)

  /** The verb each per-user call uses */
  function UserVerb(call: UserCall): Verb {
    match call
    case GetUser(_) => GET
    case UpdateUser(_, _) => PUT
    case DeleteUser(_) => DELETE
    case ToggleUserStatus(_) => PATCH
  }

  /** `/admin/users/{id}`, and `/admin/users/{id}/toggle-status` for toggling */
  function UserPath(call: UserCall): (path: string)
    ensures call.ToggleUserStatus? ==> path == ItemPath("/admin/users", call.id) + "/toggle-status"
    ensures !call.ToggleUserStatus? ==> path == ItemPath("/admin/users", call.id)
  {
    var item := ItemPath("/admin/users", call.id);
    if call.ToggleUserStatus? then item + "/toggle-status" else item
  }

  /** `adminUsersAPI.getUser`/`updateUser`/`deleteUser`/`toggleUserStatus` */
  method UserRequest(st: Storage, codec: Codec, call: UserCall) returns (req: Request)
    ensures req.verb == UserVerb(call)
    ensures req.url == Url(ApiBaseUrl, UserPath(call), None)
    ensures req.headers == AdminHeaders(st, codec)
    ensures req.body.Some? <==> call.UpdateUser?
    ensures call.UpdateUser? ==> req.body == Some(call.data)
  {
    var headers := GetHeaders(st, codec);
    var body := if call.UpdateUser? then Some(call.data) else None;
    req := Request(UserVerb(call), Url(ApiBaseUrl, UserPath(call), None), headers, body);
  }

  /** `adminProductsAPI.getProducts`: GET /admin/products?page&limit&search */
  method GetProducts(st: Storage, codec: Codec, p: ProductsParams) returns (req: Request)
    ensures req.verb == GET && req.body.None?
    ensures req.url.base == ApiBaseUrl && req.url.path == "/admin/products"
    ensures req.url.query == Some(Serialize(ProductsFields(p)))
    ensures SendsTruthyStr(req.url.query.value, "search", p.search)
    ensures req.headers == AdminHeaders(st, codec)
  {
    var q := BuildProductsQuery(p);
    var headers := GetHeaders(st, codec);
    req := Request(GET, Url(ApiBaseUrl, "/admin/products", Some(q)), headers, None);
  }

  datatype ProductCall =
    | CreateProduct(data: Json)
    | UpdateProduct(id: string, data: Json)
    | DeleteProduct(id: string)

  /** `adminProductsAPI.createProduct`/`updateProduct`/`deleteProduct`: POST to
      the collection, PUT and DELETE on one product; only delete has no body */
  method ProductRequest(st: Storage, codec: Codec, call: ProductCall) returns (req: Request)
    ensures call.CreateProduct? ==> req.verb == POST && req.url.path == "/admin/products"
    ensures call.UpdateProduct? ==> req.verb == PUT && req.url.path == ItemPath("/admin/products", call.id)
    ensures call.DeleteProduct? ==> req.verb == DELETE && req.url.path == ItemPath("/admin/products", call.id)
    ensures req.url.base == ApiBaseUrl && req.url.query.None?
    ensures req.headers == AdminHeaders(st, codec)
    ensures req.body.None? <==> call.DeleteProduct?
    ensures !call.DeleteProduct? ==> req.body == Some(call.data)
  {
    var headers := GetHeaders(st, codec);
    match call
    case CreateProduct(data) =>
      req := Request(POST, Url(ApiBaseUrl, "/admin/products", None), headers, Some(data));
    case UpdateProduct(id, data) =>
      req := Request(PUT, Url(ApiBaseUrl, ItemPath("/admin/products", id), None), headers, Some(data));
    case DeleteProduct(id) =>
      req := Request(DELETE, Url(ApiBaseUrl, ItemPath("/admin/products", id), None), headers, None);
  }

  /** `adminAnalyticsAPI.getPlatformAnalytics`: GET /admin/analytics?startDate&endDate */
  method GetPlatformAnalytics(st: Storage, codec: Codec, p: AnalyticsParams) returns (req: Request)
    ensures req.verb == GET && req.body.None?
    ensures req.url.base == ApiBaseUrl && req.url.path == "/admin/analytics"
    ensures req.url.query == Some(Serialize(AnalyticsFields(p)))
    ensures SendsTruthyStr(req.url.query.value, "startDate", p.startDate)
    ensures SendsTruthyStr(req.url.query.value, "endDate", p.endDate)
    ensures req.headers == AdminHeaders(st, codec)
  {
    var q := BuildAnalyticsQuery(p);
    var headers := GetHeaders(st, codec);
    req := Request(GET, Url(ApiBaseUrl, "/admin/analytics", Some(q)), headers, None);
  }

  /** `adminOrdersAPI.getCarts`: GET /admin/carts?page&limit */
  method GetCarts(st: Storage, codec: Codec, p: CartsParams) returns (req: Request)
    ensures req.verb == GET && req.body.None?
    ensures req.url.base == ApiBaseUrl && req.url.path == "/admin/carts"
    ensures req.url.query == Some(Serialize(CartsFields(p)))
    ensures SendsTruthyNum(req.url.query.value, "page", p.page)
    ensures SendsTruthyNum(req.url.query.value, "limit", p.limit)
    ensures req.headers == AdminHeaders(st, codec)
  {
    var q := BuildCartsQuery(p);
    var headers := GetHeaders(st, codec);
    req := Request(GET, Url(ApiBaseUrl, "/admin/carts", Some(q)), headers, None);
  }
}
