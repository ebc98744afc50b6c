/** `useAnalytics`: the analytics hook, one value or null. */
module UseAnalytics {
  import opened Common
  import opened Json
  import opened Queries
  import opened ListHooks

  const FetchFailure: string := "Failed to fetch analytics"

  const NoParams: AnalyticsParams := AnalyticsParams(None, None)

  /** Each date: the call's when truthy, else the hook's */
  function Resolve(call: AnalyticsParams, hook: AnalyticsParams): (r: AnalyticsParams)
    ensures StrTruthy(call.startDate) ==> r.startDate == call.startDate
    ensures !StrTruthy(call.startDate) ==> r.startDate == hook.startDate
    ensures StrTruthy(call.endDate) ==> r.endDate == call.endDate
    ensures !StrTruthy(call.endDate) ==> r.endDate == hook.endDate
  {
    AnalyticsParams(OrStr(call.startDate, hook.startDate), OrStr(call.endDate, hook.endDate))
  }

  /** `fetchWithDateRange` sends both given dates (an empty one falls back to
      the hook's); `refetch` sends only the hook's, so a range chosen earlier
      is not remembered */
  lemma DateRangeNotRemembered(hook: AnalyticsParams, startDate: string, endDate: string)
    ensures startDate != "" && endDate != "" ==>
              Resolve(AnalyticsParams(Some(startDate), Some(endDate)), hook) ==
              AnalyticsParams(Some(startDate), Some(endDate))
    ensures Resolve(NoParams, hook) == hook
  {
  }

  class AnalyticsHook {
    const params: AnalyticsParams
    const state: ValueHook

    ghost predicate Valid() {
      state.fetchFailure == FetchFailure
    }

    constructor (params: AnalyticsParams)
      ensures Valid() && this.params == params && fresh(state)
      ensures state.value == None && state.isLoading && state.error == None
    {
      this.params := params;
      state := new ValueHook(FetchFailure);
    }

    /** `fetchAnalytics(fetchParams)`: success replaces the analytics,
        failure keeps the previous ones */
    method FetchAnalytics(fetchParams: AnalyticsParams, outcome: Result<Json>) returns (sent: AnalyticsParams)
      requires Valid()
      modifies state
      ensures sent == Resolve(fetchParams, params)
      ensures !state.isLoading
      ensures outcome.Ok? ==> state.value == DataOf(outcome.value) && state.error == None
      ensures outcome.Err? ==> state.value == old(state.value)
      ensures outcome.Err? ==> state.error == Some(MessageOr(outcome.message, FetchFailure))
    {
      sent := Resolve(fetchParams, params);
      state.Fetch(outcome);
    }

    method Refetch(outcome: Result<Json>) returns (sent: AnalyticsParams)
      requires Valid()
      modifies state
      ensures sent == params
      ensures !state.isLoading
      ensures outcome.Ok? ==> state.value == DataOf(outcome.value) && state.error == None
      ensures outcome.Err? ==> state.value == old(state.value)
      ensures outcome.Err? ==> state.error == Some(MessageOr(outcome.message, FetchFailure))
    {
      sent := FetchAnalytics(NoParams, outcome);
    }

    method FetchWithDateRange(startDate: string, endDate: string, outcome: Result<Json>) returns (sent: AnalyticsParams)
      requires Valid()
      modifies state
      ensures sent == Resolve(AnalyticsParams(Some(startDate), Some(endDate)), params)
      ensures !state.isLoading
      ensures outcome.Ok? ==> state.value == DataOf(outcome.value) && state.error == None
      ensures outcome.Err? ==> state.value == old(state.value)
      ensures outcome.Err? ==> state.error == Some(MessageOr(outcome.message, FetchFailure))
    {
      sent := FetchAnalytics(AnalyticsParams(Some(startDate), Some(endDate)), outcome);
    }
  }
}
