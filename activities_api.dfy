/** The activity-feed service. */
module ActivitiesApi {
  import opened Common
  import opened Json
  import opened Http
  import opened Env
  import opened Queries

  /** `activitiesAPI.getActivities`: GET `${baseUrl}/admin/activities?${query}` */
  method GetActivities(env: EnvVars, st: Storage, codec: Codec, p: ActivitiesParams) returns (req: Request)
    ensures req.verb == GET && req.body.None?
    ensures req.url.base == BaseUrl(env) && req.url.path == "/admin/activities"
    ensures req.url.query == Some(Serialize(ActivitiesFields(p)))
    ensures SendsTruthyNum(req.url.query.value, "page", p.page)
    ensures SendsTruthyNum(req.url.query.value, "limit", p.limit)
    ensures SendsTruthyStr(req.url.query.value, "type", p.activityType)
    ensures req.headers == BearerHeaders(GetAuthToken(st, codec))
  {
    var token := GetAuthToken(st, codec);
    var q := BuildActivitiesQuery(p);
    req := Request(GET, Url(BaseUrl(env), "/admin/activities", Some(q)), BearerHeaders(token), None);
  }
}
