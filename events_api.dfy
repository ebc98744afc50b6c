/** The events service: the filtered event list and event deletion. */
module EventsApi {
  import opened Common
  import opened Json
  import opened Http
  import opened Env
  import opened Queries

  /** `eventsAPI.getEvents`: GET `${baseUrl}/admin/events?${query}` */
  method GetEvents(env: EnvVars, st: Storage, codec: Codec, p: EventsParams) returns (req: Request)
    ensures req.verb == GET && req.body.None?
    ensures req.url.base == BaseUrl(env) && req.url.path == "/admin/events"
    ensures req.url.query == Some(Serialize(EventsFields(p)))
    ensures SendsTruthyNum(req.url.query.value, "page", p.page)
    ensures SendsTruthyNum(req.url.query.value, "limit", p.limit)
    ensures SendsTruthyStr(req.url.query.value, "type", p.eventType)
    ensures SendsDefinedBool(req.url.query.value, "isActive", p.isActive)
    ensures req.headers == BearerHeaders(GetAuthToken(st, codec))
  {
    var token := GetAuthToken(st, codec);
    var q := BuildEventsQuery(p);
    req := Request(GET, Url(BaseUrl(env), "/admin/events", Some(q)), BearerHeaders(token), None);
  }

  /** `eventsAPI.deleteEvent`: DELETE `${baseUrl}/admin/events/${id}` */
  function DeleteEvent(env: EnvVars, st: Storage, codec: Codec, id: string): (req: Request)
    ensures req.verb == DELETE && req.body.None?
    ensures req.url == Url(BaseUrl(env), ItemPath("/admin/events", id), None)
    ensures req.headers == BearerHeaders(GetAuthToken(st, codec))
  {
    Request(DELETE, Url(BaseUrl(env), ItemPath("/admin/events", id), None), BearerHeaders(GetAuthToken(st, codec)), None)
  }
}
