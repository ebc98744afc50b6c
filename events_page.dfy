/** The events page: the hook parameters chosen by the type and status
    selectors, a client-side search, active-event and text helpers, the
    type icon, paging and the delete flow. Times are milliseconds. */
module EventsPage {
  import opened Common
  import opened Json
  import opened Http
  import opened Search
  import opened Paging
  import opened ListHooks
  import opened Queries
  import opened UseEvents

  /** The hook parameters for the page number and the two selectors:
      'all' sends no type and no status; otherwise the status is whether it is 'active' */
  function PageParams(currentPage: int, typeFilter: string, statusFilter: string): (p: EventsParams)
    ensures p.page == Some(currentPage) && p.limit == Some(20)
    ensures p.eventType == if typeFilter == "all" then None else Some(typeFilter)
    ensures p.isActive.None? <==> statusFilter == "all"
    ensures p.isActive.Some? ==> (p.isActive.value <==> statusFilter == "active")
  {
    EventsParams(Some(currentPage), Some(20),
                 if typeFilter == "all" then None else Some(typeFilter),
                 if statusFilter == "all" then None else Some(statusFilter == "active"))
  }

  /** What the first fetch of the page puts in the query string: a `type`
      unless the selector is 'all', and `isActive=false` for 'inactive' */
  lemma MountQuery(currentPage: int, typeFilter: string, statusFilter: string)
    ensures var q := Serialize(EventsFields(Resolve(NoParams, PageParams(currentPage, typeFilter, statusFilter))));
            (Get(q, "type").Some? <==> typeFilter != "all" && typeFilter != "") &&
            (Get(q, "isActive") == if statusFilter == "all" then None
                                   else if statusFilter == "active" then Some("true") else Some("false"))
  {
    EventsQueryFacts(Resolve(NoParams, PageParams(currentPage, typeFilter, statusFilter)));
  }

  /** `isEventActive`: flagged active and ending strictly after now */
  function IsEventActive(isActive: bool, endDate: int, now: int): (active: bool)
    ensures active ==> isActive
    ensures endDate <= now ==> !active
    ensures isActive && endDate > now ==> active
  {
    isActive && endDate > now
  }

  const DefaultMaxLength: int := 100

  /** `truncateText` with its placeholder for a missing description */
  function TruncateText(text: string, maxLength: int): string {
    Truncate(text, maxLength, "No description")
  }

  lemma TruncateTextSpec(text: string, maxLength: nat)
    ensures text == "" ==> TruncateText(text, maxLength) == "No description"
    ensures text != "" && Utf16Length(text) <= maxLength ==> TruncateText(text, maxLength) == text
    ensures Utf16Length(text) > maxLength ==>
              var r := TruncateText(text, maxLength);
              |r| >= 3 && r[|r| - 3..] == "..." && r[..|r| - 3] == text[..|r| - 3] &&
              maxLength + 2 <= Utf16Length(r) <= maxLength + 3
  {
    if Utf16Length(text) > maxLength {
      TruncateKeepsPrefix(text, maxLength, "No description");
    }
  }

  /** `getEventTypeIcon`: party popper, loudspeaker, or a calendar for any other type */
  function EventTypeIcon(eventType: string): (icon: string)
    ensures eventType !in {"event", "announcement"} ==> icon == "\U{1F4C5}"
  {
    var typeIcons := map["event" := "\U{1F389}", "announcement" := "\U{1F4E2}"];
    if eventType in typeIcons && typeIcons[eventType] != "" then typeIcons[eventType] else "\U{1F4C5}"
  }

  /** The fields of an event the page reads (title and description may be absent) */
  datatype Event = Event(id: string, title: Option<string>, description: Option<string>,
                         userName: string, email: string, eventType: string,
                         isActive: bool, endDate: int)

  function EventSearchFields(e: Event): seq<Option<string>> {
    [e.title, e.description, Some(e.userName), Some(e.email), Some(e.eventType)]
  }

  function FilterEvents(events: seq<Event>, query: string): seq<Event> {
    SearchFilter(events, query, EventSearchFields)
  }

  /** The search keeps, in order, the events one of whose five fields holds
      the query; an absent title or description matches nothing */
  lemma EventSearchSpec(events: seq<Event>, query: string)
    ensures query == "" ==> FilterEvents(events, query) == events
    ensures query != "" ==> forall e :: e in FilterEvents(events, query) <==>
              e in events && MatchesAny(EventSearchFields(e), Lower(query))
    ensures IsSubseq(FilterEvents(events, query), events)
  {
    SearchSpec(events, query, EventSearchFields);
  }

  /** Previous: `changePage(pagination.page - 1)` */
  method GoPrevious(hook: EventsHook, outcome: Result<Page>) returns (sent: EventsParams)
    requires hook.Valid()
    modifies hook.list
    ensures sent == Resolve(ChangePageParams(hook.params, PreviousTarget(old(hook.list.pagination))), hook.params)
    ensures !hook.list.isLoading
    ensures outcome.Ok? ==> hook.list.items == outcome.value.items && hook.list.pagination == outcome.value.pagination
    ensures outcome.Ok? ==> hook.list.error == None
    ensures outcome.Err? ==> hook.list.items == old(hook.list.items) && hook.list.pagination == old(hook.list.pagination)
    ensures outcome.Err? ==> hook.list.error == Some(MessageOr(outcome.message, FetchFailure))
  {
    sent := hook.ChangePage(PreviousTarget(hook.list.pagination), outcome);
  }

  /** Next: `changePage(pagination.page + 1)` */
  method GoNext(hook: EventsHook, outcome: Result<Page>) returns (sent: EventsParams)
    requires hook.Valid()
    modifies hook.list
    ensures sent == Resolve(ChangePageParams(hook.params, NextTarget(old(hook.list.pagination))), hook.params)
    ensures !hook.list.isLoading
    ensures outcome.Ok? ==> hook.list.items == outcome.value.items && hook.list.pagination == outcome.value.pagination
    ensures outcome.Ok? ==> hook.list.error == None
    ensures outcome.Err? ==> hook.list.items == old(hook.list.items) && hook.list.pagination == old(hook.list.pagination)
    ensures outcome.Err? ==> hook.list.error == Some(MessageOr(outcome.message, FetchFailure))
  {
    sent := hook.ChangePage(NextTarget(hook.list.pagination), outcome);
  }

  const PromptHead: string := "Are you sure you want to delete this event?\n\""

  /** The delete prompt quotes the whole title, between double quotes */
  function DeletePrompt(title: string): (prompt: string)
    ensures |prompt| == |PromptHead| + |title| + 1
    ensures prompt[..|PromptHead|] == PromptHead && prompt[|prompt| - 1] == '"'
    ensures prompt[|PromptHead|..|prompt| - 1] == title
  {
    PromptHead + title + "\""
  }

  /** Different titles give different prompts */
  lemma DeletePromptInjective(a: string, b: string)
    requires DeletePrompt(a) == DeletePrompt(b)
    ensures a == b
  {
    assert a == DeletePrompt(a)[|PromptHead|..|DeletePrompt(a)| - 1];
  }

  const DeleteAlert: string := "Failed to delete event"

  /** `handleDeleteEvent`: nothing happens unless the prompt is confirmed;
      a failed delete raises the alert */
  method HandleDelete(hook: EventsHook, confirmed: bool, deleted: Result<Json>, refresh: Result<Page>)
    returns (alert: Option<string>)
    requires hook.Valid()
    modifies hook.list
    ensures alert.Some? <==> confirmed && deleted.Err?
    ensures alert.Some? ==> alert.value == DeleteAlert
    ensures !confirmed ==> hook.list.items == old(hook.list.items) && hook.list.pagination == old(hook.list.pagination)
    ensures !confirmed ==> hook.list.error == old(hook.list.error) && hook.list.isLoading == old(hook.list.isLoading)
    ensures confirmed && deleted.Err? ==> hook.list.error == Some(MessageOr(deleted.message, DeleteFailure))
    ensures confirmed && deleted.Err? ==>
              hook.list.items == old(hook.list.items) && hook.list.pagination == old(hook.list.pagination)
    ensures confirmed && deleted.Ok? ==> !hook.list.isLoading
    ensures confirmed && deleted.Ok? && refresh.Ok? ==>
              hook.list.items == refresh.value.items && hook.list.pagination == refresh.value.pagination &&
              hook.list.error == None
    ensures confirmed && deleted.Ok? && refresh.Err? ==>
              hook.list.items == old(hook.list.items) && hook.list.pagination == old(hook.list.pagination) &&
              hook.list.error == Some(MessageOr(refresh.message, FetchFailure))
  {
    alert := None;
    if confirmed {
      var success := hook.DeleteEvent(deleted, refresh);
      if !success {
        alert := Some(DeleteAlert);
      }
    }
  }
}
