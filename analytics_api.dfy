/** The analytics service. */
module AnalyticsApi {
  import opened Common
  import opened Json
  import opened Http
  import opened Env
  import opened Queries

  /** `analyticsAPI.getPlatformAnalytics`: GET `${baseUrl}/admin/analytics?${query}` */
  method GetPlatformAnalytics(env: EnvVars, st: Storage, codec: Codec, p: AnalyticsParams) returns (req: Request)
    ensures req.verb == GET && req.body.None?
    ensures req.url.base == BaseUrl(env) && req.url.path == "/admin/analytics"
    ensures req.url.query == Some(Serialize(AnalyticsFields(p)))
    ensures SendsTruthyStr(req.url.query.value, "startDate", p.startDate)
    ensures SendsTruthyStr(req.url.query.value, "endDate", p.endDate)
    ensures req.headers == BearerHeaders(GetAuthToken(st, codec))
  {
    var token := GetAuthToken(st, codec);
    var q := BuildAnalyticsQuery(p);
    req := Request(GET, Url(BaseUrl(env), "/admin/analytics", Some(q)), BearerHeaders(token), None);
  }
}
