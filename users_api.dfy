/** The per-resource users service: base URL from the environment, the bearer
    credential on every call, `Http.ServiceHandleResponse` for replies. */
module UsersApi {
  import opened Common
  import opened Json
  import opened Http
  import opened Env
  import opened Queries
  import AdminApi

  /** `usersAPI.getUsers`: GET `${baseUrl}/admin/users?${query}` */
  method GetUsers(env: EnvVars, st: Storage, codec: Codec, p: UsersParams) returns (req: Request)
    ensures req.verb == GET && req.body.None?
    ensures req.url.base == BaseUrl(env) && req.url.path == "/admin/users"
    ensures req.url.query == Some(Serialize(UsersFields(p)))
    ensures SendsTruthyNum(req.url.query.value, "page", p.page)
    ensures SendsTruthyNum(req.url.query.value, "limit", p.limit)
    ensures SendsTruthyStr(req.url.query.value, "search", p.search)
    ensures SendsDefinedBool(req.url.query.value, "isActive", p.isActive)
    ensures SendsDefinedBool(req.url.query.value, "isCompleted", p.isCompleted)
    ensures req.headers == BearerHeaders(GetAuthToken(st, codec))
  {
    var token := GetAuthToken(st, codec);
    var q := BuildUsersQuery(p);
    req := Request(GET, Url(BaseUrl(env), "/admin/users", Some(q)), BearerHeaders(token), None);
  }

  /** `usersAPI.getUser`/`updateUser`/`deleteUser`/`toggleUserStatus`: only the
      update sends a JSON body and a Content-Type */
  function UserRequest(env: EnvVars, st: Storage, codec: Codec, call: AdminApi.UserCall): (req: Request)
    ensures req.verb == AdminApi.UserVerb(call)
    ensures req.url == Url(BaseUrl(env), AdminApi.UserPath(call), None)
    ensures "Authorization" in req.headers &&
            req.headers["Authorization"] == "Bearer " + GetAuthToken(st, codec)
    ensures "Content-Type" in req.headers <==> call.UpdateUser?
    ensures req.body.Some? <==> call.UpdateUser?
    ensures call.UpdateUser? ==> req.body == Some(call.data)
  {
    var token := GetAuthToken(st, codec);
    var url := Url(BaseUrl(env), AdminApi.UserPath(call), None);
    match call
    case UpdateUser(_, data) => Request(PUT, url, BearerJsonHeaders(token), Some(data))
    case _ => Request(AdminApi.UserVerb(call), url, BearerHeaders(token), None)
  }

  /** The two user clients issue the same verb and path for every per-user
      call; they send the same credential whenever a token is stored, and
      differ only in that the service sends `Bearer ` with an empty token
      where the shared client sends no Authorization at all */
  lemma UserClientsAgree(env: EnvVars, st: Storage, codec: Codec, call: AdminApi.UserCall)
    ensures UserRequest(env, st, codec, call).verb == AdminApi.UserVerb(call)
    ensures UserRequest(env, st, codec, call).url.path == AdminApi.UserPath(call)
    ensures GetAuthToken(st, codec) != "" ==>
              UserRequest(env, st, codec, call).headers["Authorization"] ==
              AdminApi.AdminHeaders(st, codec)["Authorization"]
    ensures GetAuthToken(st, codec) == "" ==>
              UserRequest(env, st, codec, call).headers["Authorization"] == "Bearer " &&
              "Authorization" !in AdminApi.AdminHeaders(st, codec)
  {
  }
}
