/** `usePosts`: the post list hook. */
module UsePosts {
  import opened Common
  import opened Json
  import opened Http
  import opened Queries
  import opened ListHooks

  const FetchFailure: string := "Failed to fetch posts"
  const DeleteFailure: string := "Failed to delete post"

  /** `{}`: a fetch with no parameters of its own */
  const NoParams: PostsParams := PostsParams(None, None, None, None)

  /** The parameters a fetch sends: page and limit are the first truthy of
      the call's, the hook's and the defaults 1 and 20; platform falls back
      to the hook's when the call's is falsy; `isPublished` only when the
      call's is undefined, so an explicit `false` is kept */
  function Resolve(call: PostsParams, hook: PostsParams): (r: PostsParams)
    ensures r.page.Some? && r.page.value != 0 && r.limit.Some? && r.limit.value != 0
    ensures NumTruthy(call.page) ==> r.page == call.page
    ensures !NumTruthy(call.page) && NumTruthy(hook.page) ==> r.page == hook.page
    ensures !NumTruthy(call.page) && !NumTruthy(hook.page) ==> r.page == Some(1)
    ensures NumTruthy(call.limit) ==> r.limit == call.limit
    ensures !NumTruthy(call.limit) && NumTruthy(hook.limit) ==> r.limit == hook.limit
    ensures !NumTruthy(call.limit) && !NumTruthy(hook.limit) ==> r.limit == Some(20)
    ensures StrTruthy(call.platform) ==> r.platform == call.platform
    ensures !StrTruthy(call.platform) ==> r.platform == hook.platform
    ensures call.isPublished.Some? ==> r.isPublished == call.isPublished
    ensures call.isPublished.None? ==> r.isPublished == hook.isPublished
  {
    PostsParams(
      Some(ResolveNum(call.page, hook.page, 1)),
      Some(ResolveNum(call.limit, hook.limit, 20)),
      OrStr(call.platform, hook.platform),
      Coalesce(call.isPublished, hook.isPublished))
  }

  /** `{ ...params, page: newPage }` */
  function ChangePageParams(hook: PostsParams, newPage: int): PostsParams {
    hook.(page := Some(newPage))
  }

  datatype PostFilters = PostFilters(platform: Option<string>, isPublished: Option<bool>)

  /** `{ ...params, ...filters, page: 1 }` */
  function FilterParams(hook: PostsParams, filters: PostFilters): PostsParams {
    hook.(platform := filters.platform, isPublished := filters.isPublished, page := Some(1))
  }

  /** Changing page requests that page and otherwise what a plain refetch
      requests; page 0 is falsy and falls back like a refetch */
  lemma ChangePageKeepsOthers(hook: PostsParams, newPage: int)
    ensures newPage != 0 ==> Resolve(ChangePageParams(hook, newPage), hook) ==
                             Resolve(NoParams, hook).(page := Some(newPage))
    ensures newPage == 0 ==> Resolve(ChangePageParams(hook, newPage), hook) == Resolve(NoParams, hook)
  {
  }

  /** Filtering always requests page 1; a cleared (undefined or empty)
      platform filter falls back to the hook's own platform */
  lemma FilterRequestsFirstPage(hook: PostsParams, filters: PostFilters)
    ensures Resolve(FilterParams(hook, filters), hook).page == Some(1)
    ensures Resolve(FilterParams(hook, filters), hook).platform ==
            if StrTruthy(filters.platform) then filters.platform else hook.platform
    ensures Resolve(FilterParams(hook, filters), hook).isPublished ==
            if filters.isPublished.Some? then filters.isPublished else hook.isPublished
  {
  }

  /** The query of every hook fetch carries page and limit */
  lemma FetchSendsPageAndLimit(call: PostsParams, hook: PostsParams)
    ensures Get(Serialize(PostsFields(Resolve(call, hook))), "page") ==
            Some(IntToString(Resolve(call, hook).page.value))
    ensures Get(Serialize(PostsFields(Resolve(call, hook))), "limit") ==
            Some(IntToString(Resolve(call, hook).limit.value))
  {
    PostsQueryFacts(Resolve(call, hook));
  }

  class PostsHook {
    /** The parameters `usePosts(params)` was called with */
    const params: PostsParams
    const list: ListHook

    ghost predicate Valid() {
      list.fetchFailure == FetchFailure
    }

    constructor (params: PostsParams)
      ensures Valid() && this.params == params && fresh(list)
      ensures list.items == [] && list.pagination == InitialPagination
      ensures list.isLoading && list.error == None
    {
      this.params := params;
      list := new ListHook(FetchFailure);
    }

    /** `fetchPosts(fetchParams)`; `sent` is what goes to `postsAPI.getPosts` */
    method FetchPosts(fetchParams: PostsParams, outcome: Result<Page>) returns (sent: PostsParams)
      requires Valid()
      modifies list
      ensures sent == Resolve(fetchParams, params)
      ensures !list.isLoading
      ensures outcome.Ok? ==> list.items == outcome.value.items && list.pagination == outcome.value.pagination
      ensures outcome.Ok? ==> list.error == None
      ensures outcome.Err? ==> list.items == old(list.items) && list.pagination == old(list.pagination)
      ensures outcome.Err? ==> list.error == Some(MessageOr(outcome.message, FetchFailure))
    {
      sent := Resolve(fetchParams, params);
      list.Fetch(outcome);
    }

    /** `refetch`, also the mount effect */
    method Refetch(outcome: Result<Page>) returns (sent: PostsParams)
      requires Valid()
      modifies list
      ensures sent == Resolve(NoParams, params)
      ensures !list.isLoading
      ensures outcome.Ok? ==> list.items == outcome.value.items && list.pagination == outcome.value.pagination
      ensures outcome.Ok? ==> list.error == None
      ensures outcome.Err? ==> list.items == old(list.items) && list.pagination == old(list.pagination)
      ensures outcome.Err? ==> list.error == Some(MessageOr(outcome.message, FetchFailure))
    {
      sent := FetchPosts(NoParams, outcome);
    }

    method ChangePage(newPage: int, outcome: Result<Page>) returns (sent: PostsParams)
      requires Valid()
      modifies list
      ensures sent == Resolve(ChangePageParams(params, newPage), params)
      ensures !list.isLoading
      ensures outcome.Ok? ==> list.items == outcome.value.items && list.pagination == outcome.value.pagination
      ensures outcome.Ok? ==> list.error == None
      ensures outcome.Err? ==> list.items == old(list.items) && list.pagination == old(list.pagination)
      ensures outcome.Err? ==> list.error == Some(MessageOr(outcome.message, FetchFailure))
    {
      sent := FetchPosts(ChangePageParams(params, newPage), outcome);
    }

    method FilterPosts(filters: PostFilters, outcome: Result<Page>) returns (sent: PostsParams)
      requires Valid()
      modifies list
      ensures sent == Resolve(FilterParams(params, filters), params)
      ensures !list.isLoading
      ensures outcome.Ok? ==> list.items == outcome.value.items && list.pagination == outcome.value.pagination
      ensures outcome.Ok? ==> list.error == None
      ensures outcome.Err? ==> list.items == old(list.items) && list.pagination == old(list.pagination)
      ensures outcome.Err? ==> list.error == Some(MessageOr(outcome.message, FetchFailure))
    {
      sent := FetchPosts(FilterParams(params, filters), outcome);
    }

    /** `deletePost`: true once the delete succeeds, whatever the refresh does
        (a failed refresh is caught inside `fetchPosts`); false, with the
        delete error set and nothing else changed, when the delete fails */
    method DeletePost(deleted: Result<Json>, refresh: Result<Page>) returns (ok: bool)
      requires Valid()
      modifies list
      ensures ok <==> deleted.Ok?
      ensures deleted.Err? ==> list.error == Some(MessageOr(deleted.message, DeleteFailure))
      ensures deleted.Err? ==> list.items == old(list.items) && list.pagination == old(list.pagination) &&
                               list.isLoading == old(list.isLoading)
      ensures deleted.Ok? ==> !list.isLoading
      ensures deleted.Ok? && refresh.Ok? ==>
                list.items == refresh.value.items && list.pagination == refresh.value.pagination && list.error == None
      ensures deleted.Ok? && refresh.Err? ==>
                list.items == old(list.items) && list.pagination == old(list.pagination) &&
                list.error == Some(MessageOr(refresh.message, FetchFailure))
    {
      match deleted {
        case Err(message) =>
          list.FailDelete(message, DeleteFailure);
          ok := false;
        case Ok(_) =>
          var _ := FetchPosts(NoParams, refresh);
          ok := true;
      }
    }
  }
}
