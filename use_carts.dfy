/** `useCarts`: the cart-order list hook (page and limit only). */
module UseCarts {
  import opened Common
  import opened Json
  import opened Queries
  import opened ListHooks

  const FetchFailure: string := "Failed to fetch cart orders"

  const NoParams: CartsParams := CartsParams(None, None)

  /** page and limit: first truthy of the call's, the hook's and 1 / 20 */
  function Resolve(call: CartsParams, hook: CartsParams): (r: CartsParams)
    ensures r.page.Some? && r.page.value != 0 && r.limit.Some? && r.limit.value != 0
    ensures NumTruthy(call.page) ==> r.page == call.page
    ensures !NumTruthy(call.page) && NumTruthy(hook.page) ==> r.page == hook.page
    ensures !NumTruthy(call.page) && !NumTruthy(hook.page) ==> r.page == Some(1)
    ensures NumTruthy(call.limit) ==> r.limit == call.limit
    ensures !NumTruthy(call.limit) && NumTruthy(hook.limit) ==> r.limit == hook.limit
    ensures !NumTruthy(call.limit) && !NumTruthy(hook.limit) ==> r.limit == Some(20)
  {
    CartsParams(Some(ResolveNum(call.page, hook.page, 1)), Some(ResolveNum(call.limit, hook.limit, 20)))
  }

  function ChangePageParams(hook: CartsParams, newPage: int): CartsParams {
    hook.(page := Some(newPage))
  }

  /** With no hook parameters, a refetch asks for page 1 of 20 */
  lemma RefetchDefaults()
    ensures Resolve(NoParams, NoParams) == CartsParams(Some(1), Some(20))
  {
  }

  lemma ChangePageKeepsLimit(hook: CartsParams, newPage: int)
    ensures Resolve(ChangePageParams(hook, newPage), hook).limit == Resolve(NoParams, hook).limit
    ensures newPage != 0 ==> Resolve(ChangePageParams(hook, newPage), hook).page == Some(newPage)
  {
  }

  class CartsHook {
    /** The arguments of the latest render's `useCarts(params)` call */
    var params: CartsParams
    const list: ListHook

    ghost predicate Valid() {
      list.fetchFailure == FetchFailure
    }

    constructor (params: CartsParams)
      ensures Valid() && this.params == params && fresh(list)
      ensures list.items == [] && list.pagination == InitialPagination
      ensures list.isLoading && list.error == None
    {
      this.params := params;
      list := new ListHook(FetchFailure);
    }

    /** `fetchCarts(fetchParams)`; `sent` is what goes to `cartsAPI.getCarts` */
    method FetchCarts(fetchParams: CartsParams, outcome: Result<Page>) returns (sent: CartsParams)
      requires Valid()
      modifies list
      ensures sent == Resolve(fetchParams, params)
      ensures !list.isLoading
      ensures outcome.Ok? ==> list.items == outcome.value.items && list.pagination == outcome.value.pagination
      ensures outcome.Ok? ==> list.error == None
      ensures outcome.Err? ==> list.items == old(list.items) && list.pagination == old(list.pagination)
      ensures outcome.Err? ==> list.error == Some(MessageOr(outcome.message, FetchFailure))
    {
      sent := Resolve(fetchParams, params);
      list.Fetch(outcome);
    }

    /** `refetch`: only the hook's own parameters */
    method Refetch(outcome: Result<Page>) returns (sent: CartsParams)
      requires Valid()
      modifies list
      ensures sent == Resolve(NoParams, params)
      ensures !list.isLoading
      ensures outcome.Ok? ==> list.items == outcome.value.items && list.pagination == outcome.value.pagination
      ensures outcome.Ok? ==> list.error == None
      ensures outcome.Err? ==> list.items == old(list.items) && list.pagination == old(list.pagination)
      ensures outcome.Err? ==> list.error == Some(MessageOr(outcome.message, FetchFailure))
    {
      sent := FetchCarts(NoParams, outcome);
    }

    method ChangePage(newPage: int, outcome: Result<Page>) returns (sent: CartsParams)
      requires Valid()
      modifies list
      ensures sent == Resolve(ChangePageParams(params, newPage), params)
      ensures !list.isLoading
      ensures outcome.Ok? ==> list.items == outcome.value.items && list.pagination == outcome.value.pagination
      ensures outcome.Ok? ==> list.error == None
      ensures outcome.Err? ==> list.items == old(list.items) && list.pagination == old(list.pagination)
      ensures outcome.Err? ==> list.error == Some(MessageOr(outcome.message, FetchFailure))
    {
      sent := FetchCarts(ChangePageParams(params, newPage), outcome);
    }

    /** The component renders again and calls `useCarts` with new arguments;
        the hook's state is kept */
    method Rerender(params: CartsParams)
      modifies this
      ensures this.params == params
    {
      this.params := params;
    }
  }
}
