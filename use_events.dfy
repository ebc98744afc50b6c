/** `useEvents`: the event list hook. */
module UseEvents {
  import opened Common
  import opened Json
  import opened Http
  import opened Queries
  import opened ListHooks

  const FetchFailure: string := "Failed to fetch events"
  const DeleteFailure: string := "Failed to delete event"

  /** `{}`: a fetch with no parameters of its own */
  const NoParams: EventsParams := EventsParams(None, None, None, None)

  /** The parameters a fetch sends: page and limit are the first truthy of
      the call's, the hook's and the defaults 1 and 20; type falls back
      to the hook's when the call's is falsy; `isActive` only when the
      call's is undefined, so an explicit `false` is kept */
  function Resolve(call: EventsParams, hook: EventsParams): (r: EventsParams)
    ensures r.page.Some? && r.page.value != 0 && r.limit.Some? && r.limit.value != 0
    ensures NumTruthy(call.page) ==> r.page == call.page
    ensures !NumTruthy(call.page) && NumTruthy(hook.page) ==> r.page == hook.page
    ensures !NumTruthy(call.page) && !NumTruthy(hook.page) ==> r.page == Some(1)
    ensures NumTruthy(call.limit) ==> r.limit == call.limit
    ensures !NumTruthy(call.limit) && NumTruthy(hook.limit) ==> r.limit == hook.limit
    ensures !NumTruthy(call.limit) && !NumTruthy(hook.limit) ==> r.limit == Some(20)
    ensures StrTruthy(call.eventType) ==> r.eventType == call.eventType
    ensures !StrTruthy(call.eventType) ==> r.eventType == hook.eventType
    ensures call.isActive.Some? ==> r.isActive == call.isActive
    ensures call.isActive.None? ==> r.isActive == hook.isActive
  {
    EventsParams(
      Some(ResolveNum(call.page, hook.page, 1)),
      Some(ResolveNum(call.limit, hook.limit, 20)),
      OrStr(call.eventType, hook.eventType),
      Coalesce(call.isActive, hook.isActive))
  }

  /** `{ ...params, page: newPage }` */
  function ChangePageParams(hook: EventsParams, newPage: int): EventsParams {
    hook.(page := Some(newPage))
  }

  datatype EventFilters = EventFilters(eventType: Option<string>, isActive: Option<bool>)

  /** `{ ...params, ...filters, page: 1 }` */
  function FilterParams(hook: EventsParams, filters: EventFilters): EventsParams {
    hook.(eventType := filters.eventType, isActive := filters.isActive, page := Some(1))
  }

  /** Changing page requests that page and otherwise what a plain refetch
      requests; page 0 is falsy and falls back like a refetch */
  lemma ChangePageKeepsOthers(hook: EventsParams, newPage: int)
    ensures newPage != 0 ==> Resolve(ChangePageParams(hook, newPage), hook) ==
                             Resolve(NoParams, hook).(page := Some(newPage))
    ensures newPage == 0 ==> Resolve(ChangePageParams(hook, newPage), hook) == Resolve(NoParams, hook)
  {
  }

  /** Filtering always requests page 1; a cleared (undefined or empty)
      type filter falls back to the hook's own type */
  lemma FilterRequestsFirstPage(hook: EventsParams, filters: EventFilters)
    ensures Resolve(FilterParams(hook, filters), hook).page == Some(1)
    ensures Resolve(FilterParams(hook, filters), hook).eventType ==
            if StrTruthy(filters.eventType) then filters.eventType else hook.eventType
    ensures Resolve(FilterParams(hook, filters), hook).isActive ==
            if filters.isActive.Some? then filters.isActive else hook.isActive
  {
  }

  /** The query of every hook fetch carries page and limit */
  lemma FetchSendsPageAndLimit(call: EventsParams, hook: EventsParams)
    ensures Get(Serialize(EventsFields(Resolve(call, hook))), "page") ==
            Some(IntToString(Resolve(call, hook).page.value))
    ensures Get(Serialize(EventsFields(Resolve(call, hook))), "limit") ==
            Some(IntToString(Resolve(call, hook).limit.value))
  {
    EventsQueryFacts(Resolve(call, hook));
  }

  class EventsHook {
    /** The parameters `useEvents(params)` was called with */
    const params: EventsParams
    const list: ListHook

    ghost predicate Valid() {
      list.fetchFailure == FetchFailure
    }

    constructor (params: EventsParams)
      ensures Valid() && this.params == params && fresh(list)
      ensures list.items == [] && list.pagination == InitialPagination
      ensures list.isLoading && list.error == None
    {
      this.params := params;
      list := new ListHook(FetchFailure);
    }

    /** `fetchEvents(fetchParams)`; `sent` is what goes to `eventsAPI.getEvents` */
    method FetchEvents(fetchParams: EventsParams, outcome: Result<Page>) returns (sent: EventsParams)
      requires Valid()
      modifies list
      ensures sent == Resolve(fetchParams, params)
      ensures !list.isLoading
      ensures outcome.Ok? ==> list.items == outcome.value.items && list.pagination == outcome.value.pagination
      ensures outcome.Ok? ==> list.error == None
      ensures outcome.Err? ==> list.items == old(list.items) && list.pagination == old(list.pagination)
      ensures outcome.Err? ==> list.error == Some(MessageOr(outcome.message, FetchFailure))
    {
      sent := Resolve(fetchParams, params);
      list.Fetch(outcome);
    }

    /** `refetch`, also the mount effect */
    method Refetch(outcome: Result<Page>) returns (sent: EventsParams)
      requires Valid()
      modifies list
      ensures sent == Resolve(NoParams, params)
      ensures !list.isLoading
      ensures outcome.Ok? ==> list.items == outcome.value.items && list.pagination == outcome.value.pagination
      ensures outcome.Ok? ==> list.error == None
      ensures outcome.Err? ==> list.items == old(list.items) && list.pagination == old(list.pagination)
      ensures outcome.Err? ==> list.error == Some(MessageOr(outcome.message, FetchFailure))
    {
      sent := FetchEvents(NoParams, outcome);
    }

    method ChangePage(newPage: int, outcome: Result<Page>) returns (sent: EventsParams)
      requires Valid()
      modifies list
      ensures sent == Resolve(ChangePageParams(params, newPage), params)
      ensures !list.isLoading
      ensures outcome.Ok? ==> list.items == outcome.value.items && list.pagination == outcome.value.pagination
      ensures outcome.Ok? ==> list.error == None
      ensures outcome.Err? ==> list.items == old(list.items) && list.pagination == old(list.pagination)
      ensures outcome.Err? ==> list.error == Some(MessageOr(outcome.message, FetchFailure))
    {
      sent := FetchEvents(ChangePageParams(params, newPage), outcome);
    }

    method FilterEvents(filters: EventFilters, outcome: Result<Page>) returns (sent: EventsParams)
      requires Valid()
      modifies list
      ensures sent == Resolve(FilterParams(params, filters), params)
      ensures !list.isLoading
      ensures outcome.Ok? ==> list.items == outcome.value.items && list.pagination == outcome.value.pagination
      ensures outcome.Ok? ==> list.error == None
      ensures outcome.Err? ==> list.items == old(list.items) && list.pagination == old(list.pagination)
      ensures outcome.Err? ==> list.error == Some(MessageOr(outcome.message, FetchFailure))
    {
      sent := FetchEvents(FilterParams(params, filters), outcome);
    }

    /** `deleteEvent`: true once the delete succeeds, whatever the refresh does
        (a failed refresh is caught inside `fetchEvents`); false, with the
        delete error set and nothing else changed, when the delete fails */
    method DeleteEvent(deleted: Result<Json>, refresh: Result<Page>) returns (ok: bool)
      requires Valid()
      modifies list
      ensures ok <==> deleted.Ok?
      ensures deleted.Err? ==> list.error == Some(MessageOr(deleted.message, DeleteFailure))
      ensures deleted.Err? ==> list.items == old(list.items) && list.pagination == old(list.pagination) &&
                               list.isLoading == old(list.isLoading)
      ensures deleted.Ok? ==> !list.isLoading
      ensures deleted.Ok? && refresh.Ok? ==>
                list.items == refresh.value.items && list.pagination == refresh.value.pagination && list.error == None
      ensures deleted.Ok? && refresh.Err? ==>
                list.items == old(list.items) && list.pagination == old(list.pagination) &&
                list.error == Some(MessageOr(refresh.message, FetchFailure))
    {
      match deleted {
        case Err(message) =>
          list.FailDelete(message, DeleteFailure);
          ok := false;
        case Ok(_) =>
          var _ := FetchEvents(NoParams, refresh);
          ok := true;
      }
    }
  }
}
