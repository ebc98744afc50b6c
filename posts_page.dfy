/** The posts page: the hook parameters chosen by the platform and status
    selectors, a client-side search, text truncation, the icon tables,
    paging and the delete flow. */
module PostsPage {
  import opened Common
  import opened Json
  import opened Http
  import opened Search
  import opened Paging
  import opened ListHooks
  import opened Queries
  import opened UsePosts

  /** The hook parameters for the page number and the two selectors:
      'all' sends no platform and no status; otherwise the status is whether it is 'published' */
  function PageParams(currentPage: int, platformFilter: string, statusFilter: string): (p: PostsParams)
    ensures p.page == Some(currentPage) && p.limit == Some(20)
    ensures p.platform == if platformFilter == "all" then None else Some(platformFilter)
    ensures p.isPublished.None? <==> statusFilter == "all"
    ensures p.isPublished.Some? ==> (p.isPublished.value <==> statusFilter == "published")
  {
    PostsParams(Some(currentPage), Some(20),
                if platformFilter == "all" then None else Some(platformFilter),
                if statusFilter == "all" then None else Some(statusFilter == "published"))
  }

  /** What the first fetch of the page puts in the query string: a
      `platform` unless the selector is 'all', and `isPublished=false` for 'unpublished' */
  lemma MountQuery(currentPage: int, platformFilter: string, statusFilter: string)
    ensures var q := Serialize(PostsFields(Resolve(NoParams, PageParams(currentPage, platformFilter, statusFilter))));
            (Get(q, "platform").Some? <==> platformFilter != "all" && platformFilter != "") &&
            (Get(q, "isPublished") == if statusFilter == "all" then None
                                      else if statusFilter == "published" then Some("true") else Some("false"))
  {
    PostsQueryFacts(Resolve(NoParams, PageParams(currentPage, platformFilter, statusFilter)));
  }

  const DefaultMaxLength: int := 100

  /** `truncateText` with its placeholder for missing content */
  function TruncateText(text: string, maxLength: int): string {
    Truncate(text, maxLength, "No content")
  }

  lemma TruncateTextSpec(text: string, maxLength: nat)
    ensures text == "" ==> TruncateText(text, maxLength) == "No content"
    ensures text != "" && Utf16Length(text) <= maxLength ==> TruncateText(text, maxLength) == text
    ensures Utf16Length(text) > maxLength ==>
              var r := TruncateText(text, maxLength);
              |r| >= 3 && r[|r| - 3..] == "..." && r[..|r| - 3] == text[..|r| - 3] &&
              maxLength + 2 <= Utf16Length(r) <= maxLength + 3
  {
    if Utf16Length(text) > maxLength {
      TruncateKeepsPrefix(text, maxLength, "No content");
    }
  }

  /** The page-facing-up icon both tables fall back to */
  const FallbackIcon: string := "\U{1F4C4}"

  /** `table[key] || '📄'` */
  function LookupIcon(table: map<string, string>, key: string): (icon: string)
    ensures key in table && table[key] != "" ==> icon == table[key]
    ensures key !in table ==> icon == FallbackIcon
  {
    if key in table && table[key] != "" then table[key] else FallbackIcon
  }

  function PlatformIcons(): map<string, string> {
    map["instagram" := "\U{1F4F7}", "tiktok" := "\U{1F3B5}", "x" := "\U{1F426}",
        "facebook" := "\U{1F4D8}", "youtube" := "\U{1F4FA}", "linkedin" := "\U{1F4BC}"]
  }

  function MediaIcons(): map<string, string> {
    map["video" := "\U{1F3A5}", "image" := "\U{1F5BC}\U{FE0F}", "text" := "\U{1F4DD}", "link" := "\U{1F517}"]
  }

  function PlatformIcon(platform: string): string {
    LookupIcon(PlatformIcons(), platform)
  }

  function MediaTypeIcon(mediaType: string): string {
    LookupIcon(MediaIcons(), mediaType)
  }

  /** Every platform the selector offers has an icon of its own; anything
      else, on either table, gets the fallback */
  lemma IconTables(platform: string, mediaType: string)
    ensures forall p :: p in {"instagram", "tiktok", "x", "facebook", "youtube", "linkedin"} ==>
              PlatformIcon(p) != FallbackIcon
    ensures platform !in PlatformIcons() ==> PlatformIcon(platform) == FallbackIcon
    ensures mediaType !in MediaIcons() ==> MediaTypeIcon(mediaType) == FallbackIcon
  {
  }

  /** The fields of a post the page reads (content may be absent) */
  datatype Post = Post(id: string, content: Option<string>, userName: string, email: string, platform: string)

  function PostSearchFields(p: Post): seq<Option<string>> {
    [p.content, Some(p.userName), Some(p.email), Some(p.platform)]
  }

  function FilterPosts(posts: seq<Post>, query: string): seq<Post> {
    SearchFilter(posts, query, PostSearchFields)
  }

  /** The search keeps, in order, the posts one of whose four fields holds
      the query; absent content matches nothing */
  lemma PostSearchSpec(posts: seq<Post>, query: string)
    ensures query == "" ==> FilterPosts(posts, query) == posts
    ensures query != "" ==> forall p :: p in FilterPosts(posts, query) <==>
              p in posts && MatchesAny(PostSearchFields(p), Lower(query))
    ensures IsSubseq(FilterPosts(posts, query), posts)
  {
    SearchSpec(posts, query, PostSearchFields);
  }

  /** Previous: `changePage(pagination.page - 1)` */
  method GoPrevious(hook: PostsHook, outcome: Result<Page>) returns (sent: PostsParams)
    requires hook.Valid()
    modifies hook.list
    ensures sent == Resolve(ChangePageParams(hook.params, PreviousTarget(old(hook.list.pagination))), hook.params)
    ensures !hook.list.isLoading
    ensures outcome.Ok? ==> hook.list.items == outcome.value.items && hook.list.pagination == outcome.value.pagination
    ensures outcome.Ok? ==> hook.list.error == None
    ensures outcome.Err? ==> hook.list.items == old(hook.list.items) && hook.list.pagination == old(hook.list.pagination)
    ensures outcome.Err? ==> hook.list.error == Some(MessageOr(outcome.message, FetchFailure))
  {
    sent := hook.ChangePage(PreviousTarget(hook.list.pagination), outcome);
  }

  /** Next: `changePage(pagination.page + 1)` */
  method GoNext(hook: PostsHook, outcome: Result<Page>) returns (sent: PostsParams)
    requires hook.Valid()
    modifies hook.list
    ensures sent == Resolve(ChangePageParams(hook.params, NextTarget(old(hook.list.pagination))), hook.params)
    ensures !hook.list.isLoading
    ensures outcome.Ok? ==> hook.list.items == outcome.value.items && hook.list.pagination == outcome.value.pagination
    ensures outcome.Ok? ==> hook.list.error == None
    ensures outcome.Err? ==> hook.list.items == old(hook.list.items) && hook.list.pagination == old(hook.list.pagination)
    ensures outcome.Err? ==> hook.list.error == Some(MessageOr(outcome.message, FetchFailure))
  {
    sent := hook.ChangePage(NextTarget(hook.list.pagination), outcome);
  }

  const PromptHead: string := "Are you sure you want to delete this post?\n\""

  /** The delete prompt quotes at most the first 100 UTF-16 units of the
      content, and always adds '...' */
  function DeletePrompt(content: string): (prompt: string)
    ensures |PromptHead| + 4 <= |prompt| <= |PromptHead| + 100 + 4
    ensures prompt[..|PromptHead|] == PromptHead && prompt[|prompt| - 4..] == "...\""
    ensures var quoted := prompt[|PromptHead|..|prompt| - 4];
            |quoted| <= |content| && quoted == content[..|quoted|] && Utf16Length(quoted) <= 100 &&
            (Utf16Length(content) <= 100 ==> quoted == content) &&
            (|quoted| < |content| ==> Utf16Length(quoted) >= 99)
  {
    PromptHead + SubstringTo(content, 100) + "...\""
  }

  const DeleteAlert: string := "Failed to delete post"

  /** `handleDeletePost`: nothing happens unless the prompt is confirmed;
      a failed delete raises the alert */
  method HandleDelete(hook: PostsHook, confirmed: bool, deleted: Result<Json>, refresh: Result<Page>)
    returns (alert: Option<string>)
    requires hook.Valid()
    modifies hook.list
    ensures alert.Some? <==> confirmed && deleted.Err?
    ensures alert.Some? ==> alert.value == DeleteAlert
    ensures !confirmed ==> hook.list.items == old(hook.list.items) && hook.list.pagination == old(hook.list.pagination)
    ensures !confirmed ==> hook.list.error == old(hook.list.error) && hook.list.isLoading == old(hook.list.isLoading)
    ensures confirmed && deleted.Err? ==> hook.list.error == Some(MessageOr(deleted.message, DeleteFailure))
    ensures confirmed && deleted.Err? ==>
              hook.list.items == old(hook.list.items) && hook.list.pagination == old(hook.list.pagination)
    ensures confirmed && deleted.Ok? ==> !hook.list.isLoading
    ensures confirmed && deleted.Ok? && refresh.Ok? ==>
              hook.list.items == refresh.value.items && hook.list.pagination == refresh.value.pagination &&
              hook.list.error == None
    ensures confirmed && deleted.Ok? && refresh.Err? ==>
              hook.list.items == old(hook.list.items) && hook.list.pagination == old(hook.list.pagination) &&
              hook.list.error == Some(MessageOr(refresh.message, FetchFailure))
  {
    alert := None;
    if confirmed {
      var success := hook.DeletePost(deleted, refresh);
      if !success {
        alert := Some(DeleteAlert);
      }
    }
  }
}
