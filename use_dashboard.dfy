/** `useDashboard`: the dashboard statistics hook. */
module UseDashboard {
  import opened Common
  import opened Json
  import opened ListHooks

  const FetchFailure: string := "Failed to fetch dashboard data"

  class DashboardHook {
    const state: ValueHook

    ghost predicate Valid() {
      state.fetchFailure == FetchFailure
    }

    constructor ()
      ensures Valid() && fresh(state)
      ensures state.value == None && state.isLoading && state.error == None
    {
      state := new ValueHook(FetchFailure);
    }

    /** `fetchDashboardData`, run by the mount effect and by `refetch` alike:
        success sets the data to the reply's `data` field, failure keeps the
        previous data */
    method FetchDashboardData(outcome: Result<Json>)
      requires Valid()
      modifies state
      ensures !state.isLoading
      ensures outcome.Ok? ==> state.value == DataOf(outcome.value) && state.error == None
      ensures outcome.Err? ==> state.value == old(state.value)
      ensures outcome.Err? ==> state.error == Some(MessageOr(outcome.message, FetchFailure))
    {
      state.Fetch(outcome);
    }
  }
}
