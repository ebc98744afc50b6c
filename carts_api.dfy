/** The carts (orders) service. */
module CartsApi {
  import opened Common
  import opened Json
  import opened Http
  import opened Env
  import opened Queries

  /** `cartsAPI.getCarts`: GET `${baseUrl}/admin/carts?${query}`; the '?' is
      written even when nothing is appended */
  method GetCarts(env: EnvVars, st: Storage, codec: Codec, p: CartsParams) returns (req: Request)
    ensures req.verb == GET && req.body.None?
    ensures req.url.base == BaseUrl(env) && req.url.path == "/admin/carts"
    ensures req.url.query == Some(Serialize(CartsFields(p)))
    ensures SendsTruthyNum(req.url.query.value, "page", p.page)
    ensures SendsTruthyNum(req.url.query.value, "limit", p.limit)
    ensures !NumTruthy(p.page) && !NumTruthy(p.limit) ==>
              UrlText(req.url) == BaseUrl(env) + "/admin/carts?"
    ensures req.headers == BearerHeaders(GetAuthToken(st, codec))
  {
    var token := GetAuthToken(st, codec);
    var q := BuildCartsQuery(p);
    req := Request(GET, Url(BaseUrl(env), "/admin/carts", Some(q)), BearerHeaders(token), None);
    if !NumTruthy(p.page) && !NumTruthy(p.limit) {
      assert q == [];
      EmptyQueryEndsWithMark(BaseUrl(env), "/admin/carts");
    }
  }
}
