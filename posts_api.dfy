/** The posts service: the filtered post list and post deletion. */
module PostsApi {
  import opened Common
  import opened Json
  import opened Http
  import opened Env
  import opened Queries

  /** `postsAPI.getPosts`: GET `${baseUrl}/admin/posts?${query}` */
  method GetPosts(env: EnvVars, st: Storage, codec: Codec, p: PostsParams) returns (req: Request)
    ensures req.verb == GET && req.body.None?
    ensures req.url.base == BaseUrl(env) && req.url.path == "/admin/posts"
    ensures req.url.query == Some(Serialize(PostsFields(p)))
    ensures SendsTruthyNum(req.url.query.value, "page", p.page)
    ensures SendsTruthyNum(req.url.query.value, "limit", p.limit)
    ensures SendsTruthyStr(req.url.query.value, "platform", p.platform)
    ensures SendsDefinedBool(req.url.query.value, "isPublished", p.isPublished)
    ensures req.headers == BearerHeaders(GetAuthToken(st, codec))
  {
    var token := GetAuthToken(st, codec);
    var q := BuildPostsQuery(p);
    req := Request(GET, Url(BaseUrl(env), "/admin/posts", Some(q)), BearerHeaders(token), None);
  }

  /** `postsAPI.deletePost`: DELETE `${baseUrl}/admin/posts/${id}` */
  function DeletePost(env: EnvVars, st: Storage, codec: Codec, id: string): (req: Request)
    ensures req.verb == DELETE && req.body.None?
    ensures req.url == Url(BaseUrl(env), ItemPath("/admin/posts", id), None)
    ensures req.headers == BearerHeaders(GetAuthToken(st, codec))
  {
    Request(DELETE, Url(BaseUrl(env), ItemPath("/admin/posts", id), None), BearerHeaders(GetAuthToken(st, codec)), None)
  }
}
