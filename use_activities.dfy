/** `useActivities`: the activity-feed hook. */
module UseActivities {
  import opened Common
  import opened Json
  import opened Queries
  import opened ListHooks

  const FetchFailure: string := "Failed to fetch activities"

  const NoParams: ActivitiesParams := ActivitiesParams(None, None, None)

  /** page and limit: first truthy of the call's, the hook's and 1 / 20;
      type: the call's when truthy, else the hook's */
  function Resolve(call: ActivitiesParams, hook: ActivitiesParams): (r: ActivitiesParams)
    ensures r.page.Some? && r.page.value != 0 && r.limit.Some? && r.limit.value != 0
    ensures NumTruthy(call.page) ==> r.page == call.page
    ensures !NumTruthy(call.page) && NumTruthy(hook.page) ==> r.page == hook.page
    ensures !NumTruthy(call.page) && !NumTruthy(hook.page) ==> r.page == Some(1)
    ensures NumTruthy(call.limit) ==> r.limit == call.limit
    ensures !NumTruthy(call.limit) && NumTruthy(hook.limit) ==> r.limit == hook.limit
    ensures !NumTruthy(call.limit) && !NumTruthy(hook.limit) ==> r.limit == Some(20)
    ensures StrTruthy(call.activityType) ==> r.activityType == call.activityType
    ensures !StrTruthy(call.activityType) ==> r.activityType == hook.activityType
  {
    ActivitiesParams(
      Some(ResolveNum(call.page, hook.page, 1)),
      Some(ResolveNum(call.limit, hook.limit, 20)),
      OrStr(call.activityType, hook.activityType))
  }

  function ChangePageParams(hook: ActivitiesParams, newPage: int): ActivitiesParams {
    hook.(page := Some(newPage))
  }

  /** `{ ...params, ...filters, page: 1 }` with `filters = { type }` */
  function FilterParams(hook: ActivitiesParams, activityType: Option<string>): ActivitiesParams {
    hook.(activityType := activityType, page := Some(1))
  }

  lemma FilterRequestsFirstPage(hook: ActivitiesParams, activityType: Option<string>)
    ensures Resolve(FilterParams(hook, activityType), hook).page == Some(1)
    ensures Resolve(FilterParams(hook, activityType), hook).limit == Resolve(NoParams, hook).limit
    ensures Resolve(FilterParams(hook, activityType), hook).activityType ==
            if StrTruthy(activityType) then activityType else hook.activityType
  {
  }

  lemma ChangePageKeepsOthers(hook: ActivitiesParams, newPage: int)
    ensures newPage != 0 ==> Resolve(ChangePageParams(hook, newPage), hook) ==
                             Resolve(NoParams, hook).(page := Some(newPage))
  {
  }

  class ActivitiesHook {
    const params: ActivitiesParams
    const list: ListHook

    ghost predicate Valid() {
      list.fetchFailure == FetchFailure
    }

    constructor (params: ActivitiesParams)
      ensures Valid() && this.params == params && fresh(list)
      ensures list.items == [] && list.pagination == InitialPagination
      ensures list.isLoading && list.error == None
    {
      this.params := params;
      list := new ListHook(FetchFailure);
    }

    method FetchActivities(fetchParams: ActivitiesParams, outcome: Result<Page>) returns (sent: ActivitiesParams)
      requires Valid()
      modifies list
      ensures sent == Resolve(fetchParams, params)
      ensures !list.isLoading
      ensures outcome.Ok? ==> list.items == outcome.value.items && list.pagination == outcome.value.pagination
      ensures outcome.Ok? ==> list.error == None
      ensures outcome.Err? ==> list.items == old(list.items) && list.pagination == old(list.pagination)
      ensures outcome.Err? ==> list.error == Some(MessageOr(outcome.message, FetchFailure))
    {
      sent := Resolve(fetchParams, params);
      list.Fetch(outcome);
    }

    method Refetch(outcome: Result<Page>) returns (sent: ActivitiesParams)
      requires Valid()
      modifies list
      ensures sent == Resolve(NoParams, params)
      ensures !list.isLoading
      ensures outcome.Ok? ==> list.items == outcome.value.items && list.pagination == outcome.value.pagination
      ensures outcome.Ok? ==> list.error == None
      ensures outcome.Err? ==> list.items == old(list.items) && list.pagination == old(list.pagination)
      ensures outcome.Err? ==> list.error == Some(MessageOr(outcome.message, FetchFailure))
    {
      sent := FetchActivities(NoParams, outcome);
    }

    method ChangePage(newPage: int, outcome: Result<Page>) returns (sent: ActivitiesParams)
      requires Valid()
      modifies list
      ensures sent == Resolve(ChangePageParams(params, newPage), params)
      ensures !list.isLoading
      ensures outcome.Ok? ==> list.items == outcome.value.items && list.pagination == outcome.value.pagination
      ensures outcome.Ok? ==> list.error == None
      ensures outcome.Err? ==> list.items == old(list.items) && list.pagination == old(list.pagination)
      ensures outcome.Err? ==> list.error == Some(MessageOr(outcome.message, FetchFailure))
    {
      sent := FetchActivities(ChangePageParams(params, newPage), outcome);
    }

    method FilterActivities(activityType: Option<string>, outcome: Result<Page>) returns (sent: ActivitiesParams)
      requires Valid()
      modifies list
      ensures sent == Resolve(FilterParams(params, activityType), params)
      ensures !list.isLoading
      ensures outcome.Ok? ==> list.items == outcome.value.items && list.pagination == outcome.value.pagination
      ensures outcome.Ok? ==> list.error == None
      ensures outcome.Err? ==> list.items == old(list.items) && list.pagination == old(list.pagination)
      ensures outcome.Err? ==> list.error == Some(MessageOr(outcome.message, FetchFailure))
    {
      sent := FetchActivities(FilterParams(params, activityType), outcome);
    }
  }
}
