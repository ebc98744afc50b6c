/** The dashboard service: one GET with a literal header object. */
module DashboardApi {
  import opened Common
  import opened Json
  import opened Http
  import opened Env

  /** `dashboardAPI.getDashboardStats`: GET `${baseUrl}/admin/dashboard`, no
      query, Authorization `Bearer ` plus the token even when it is empty */
  function GetDashboardStats(env: EnvVars, st: Storage, codec: Codec): (req: Request)
    ensures req.verb == GET && req.body.None?
    ensures req.url == Url(BaseUrl(env), "/admin/dashboard", None)
    ensures req.headers.Keys == {"Accept", "Authorization"}
    ensures req.headers["Authorization"] == "Bearer " + GetAuthToken(st, codec)
    ensures UserKey !in st ==> req.headers["Authorization"] == "Bearer "
  {
    Request(GET, Url(BaseUrl(env), "/admin/dashboard", None), BearerHeaders(GetAuthToken(st, codec)), None)
  }
}
