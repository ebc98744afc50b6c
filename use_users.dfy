/** `useUsers`: the user list hook. */
module UseUsers {
  import opened Common
  import opened Json
  import opened Http
  import opened Queries
  import opened ListHooks

  const FetchFailure: string := "Failed to fetch users"

  const NoParams: UsersParams := UsersParams(None, None, None, None, None)

  /** page and limit: first truthy of call, hook and the defaults 1 and 20;
      search: the call's when truthy, else the hook's; `isActive` and
      `isCompleted`: the call's whenever defined, so `false` is kept */
  function Resolve(call: UsersParams, hook: UsersParams): (r: UsersParams)
    ensures r.page.Some? && r.page.value != 0 && r.limit.Some? && r.limit.value != 0
    ensures NumTruthy(call.page) ==> r.page == call.page
    ensures !NumTruthy(call.page) && NumTruthy(hook.page) ==> r.page == hook.page
    ensures !NumTruthy(call.page) && !NumTruthy(hook.page) ==> r.page == Some(1)
    ensures NumTruthy(call.limit) ==> r.limit == call.limit
    ensures !NumTruthy(call.limit) && NumTruthy(hook.limit) ==> r.limit == hook.limit
    ensures !NumTruthy(call.limit) && !NumTruthy(hook.limit) ==> r.limit == Some(20)
    ensures StrTruthy(call.search) ==> r.search == call.search
    ensures !StrTruthy(call.search) ==> r.search == hook.search
    ensures call.isActive.Some? ==> r.isActive == call.isActive
    ensures call.isActive.None? ==> r.isActive == hook.isActive
    ensures call.isCompleted.Some? ==> r.isCompleted == call.isCompleted
    ensures call.isCompleted.None? ==> r.isCompleted == hook.isCompleted
  {
    UsersParams(
      Some(ResolveNum(call.page, hook.page, 1)),
      Some(ResolveNum(call.limit, hook.limit, 20)),
      OrStr(call.search, hook.search),
      Coalesce(call.isActive, hook.isActive),
      Coalesce(call.isCompleted, hook.isCompleted))
  }

  /** `{ ...params, page: newPage }` */
  function ChangePageParams(hook: UsersParams, newPage: int): UsersParams {
    hook.(page := Some(newPage))
  }

  /** `{ ...params, search: searchTerm, page: 1 }` */
  function SearchTermParams(hook: UsersParams, searchTerm: string): UsersParams {
    hook.(search := Some(searchTerm), page := Some(1))
  }

  datatype UserFilters = UserFilters(isActive: Option<bool>, isCompleted: Option<bool>)

  /** `{ ...params, ...filters, page: 1 }` */
  function FilterParams(hook: UsersParams, filters: UserFilters): UsersParams {
    hook.(isActive := filters.isActive, isCompleted := filters.isCompleted, page := Some(1))
  }

  lemma ChangePageKeepsOthers(hook: UsersParams, newPage: int)
    ensures newPage != 0 ==> Resolve(ChangePageParams(hook, newPage), hook) ==
                             Resolve(NoParams, hook).(page := Some(newPage))
    ensures newPage == 0 ==> Resolve(ChangePageParams(hook, newPage), hook) == Resolve(NoParams, hook)
  {
  }

  /** Searching and filtering both restart at page 1; an empty search term
      falls back to the hook's own search */
  lemma SearchAndFilterRequestFirstPage(hook: UsersParams, term: string, filters: UserFilters)
    ensures Resolve(SearchTermParams(hook, term), hook).page == Some(1)
    ensures Resolve(SearchTermParams(hook, term), hook).search ==
            if term != "" then Some(term) else hook.search
    ensures Resolve(FilterParams(hook, filters), hook).page == Some(1)
    ensures Resolve(FilterParams(hook, filters), hook).isActive ==
            if filters.isActive.Some? then filters.isActive else hook.isActive
    ensures Resolve(FilterParams(hook, filters), hook).isCompleted ==
            if filters.isCompleted.Some? then filters.isCompleted else hook.isCompleted
    ensures Resolve(FilterParams(hook, filters), hook).search == Resolve(NoParams, hook).search
  {
  }

  class UsersHook {
    const params: UsersParams
    const list: ListHook

    ghost predicate Valid() {
      list.fetchFailure == FetchFailure
    }

    constructor (params: UsersParams)
      ensures Valid() && this.params == params && fresh(list)
      ensures list.items == [] && list.pagination == InitialPagination
      ensures list.isLoading && list.error == None
    {
      this.params := params;
      list := new ListHook(FetchFailure);
    }

    /** `fetchUsers(fetchParams)`; `sent` is what goes to `usersAPI.getUsers` */
    method FetchUsers(fetchParams: UsersParams, outcome: Result<Page>) returns (sent: UsersParams)
      requires Valid()
      modifies list
      ensures sent == Resolve(fetchParams, params)
      ensures !list.isLoading
      ensures outcome.Ok? ==> list.items == outcome.value.items && list.pagination == outcome.value.pagination
      ensures outcome.Ok? ==> list.error == None
      ensures outcome.Err? ==> list.items == old(list.items) && list.pagination == old(list.pagination)
      ensures outcome.Err? ==> list.error == Some(MessageOr(outcome.message, FetchFailure))
    {
      sent := Resolve(fetchParams, params);
      list.Fetch(outcome);
    }

    method Refetch(outcome: Result<Page>) returns (sent: UsersParams)
      requires Valid()
      modifies list
      ensures sent == Resolve(NoParams, params)
      ensures !list.isLoading
      ensures outcome.Ok? ==> list.items == outcome.value.items && list.pagination == outcome.value.pagination
      ensures outcome.Ok? ==> list.error == None
      ensures outcome.Err? ==> list.items == old(list.items) && list.pagination == old(list.pagination)
      ensures outcome.Err? ==> list.error == Some(MessageOr(outcome.message, FetchFailure))
    {
      sent := FetchUsers(NoParams, outcome);
    }

    method ChangePage(newPage: int, outcome: Result<Page>) returns (sent: UsersParams)
      requires Valid()
      modifies list
      ensures sent == Resolve(ChangePageParams(params, newPage), params)
      ensures !list.isLoading
      ensures outcome.Ok? ==> list.items == outcome.value.items && list.pagination == outcome.value.pagination
      ensures outcome.Ok? ==> list.error == None
      ensures outcome.Err? ==> list.items == old(list.items) && list.pagination == old(list.pagination)
      ensures outcome.Err? ==> list.error == Some(MessageOr(outcome.message, FetchFailure))
    {
      sent := FetchUsers(ChangePageParams(params, newPage), outcome);
    }

    method SearchUsers(searchTerm: string, outcome: Result<Page>) returns (sent: UsersParams)
      requires Valid()
      modifies list
      ensures sent == Resolve(SearchTermParams(params, searchTerm), params)
      ensures !list.isLoading
      ensures outcome.Ok? ==> list.items == outcome.value.items && list.pagination == outcome.value.pagination
      ensures outcome.Ok? ==> list.error == None
      ensures outcome.Err? ==> list.items == old(list.items) && list.pagination == old(list.pagination)
      ensures outcome.Err? ==> list.error == Some(MessageOr(outcome.message, FetchFailure))
    {
      sent := FetchUsers(SearchTermParams(params, searchTerm), outcome);
    }

    method FilterUsers(filters: UserFilters, outcome: Result<Page>) returns (sent: UsersParams)
      requires Valid()
      modifies list
      ensures sent == Resolve(FilterParams(params, filters), params)
      ensures !list.isLoading
      ensures outcome.Ok? ==> list.items == outcome.value.items && list.pagination == outcome.value.pagination
      ensures outcome.Ok? ==> list.error == None
      ensures outcome.Err? ==> list.items == old(list.items) && list.pagination == old(list.pagination)
      ensures outcome.Err? ==> list.error == Some(MessageOr(outcome.message, FetchFailure))
    {
      sent := FetchUsers(FilterParams(params, filters), outcome);
    }
  }
}
