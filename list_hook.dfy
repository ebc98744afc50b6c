/** The state machine every data hook shares. A list hook holds the last
    page of records, its pagination, a loading flag and an error; a fetch
    first clears the error and raises the flag, then either replaces records
    and pagination wholesale (success) or keeps the stale ones and records
    the message (failure), and lowers the flag on both paths. A value hook
    (analytics, dashboard) does the same with one value in place of a page. */
module ListHooks {
  import opened Common
  import opened Json

  datatype Pagination = Pagination(total: int, page: int, limit: int, pages: int)

  /** `{ total: 0, page: 1, limit: 20, pages: 0 }` */
  const InitialPagination: Pagination := Pagination(0, 1, 20, 0)

  /** `response.data.<records>` and `response.data.pagination` of a reply */
  datatype Page = Page(items: seq<Json>, pagination: Pagination)

  class ListHook {
    var items: seq<Json>
    var pagination: Pagination
    var isLoading: bool
    var error: Option<string>
    /** The text shown when a failed fetch carries no message */
    const fetchFailure: string

    /** The `useState` initial values */
    constructor (fetchFailure: string)
      ensures this.fetchFailure == fetchFailure
      ensures items == [] && pagination == InitialPagination
      ensures isLoading && error == None
    {
      this.fetchFailure := fetchFailure;
      items := [];
      pagination := InitialPagination;
      isLoading := true;
      error := None;
    }

    /** `setIsLoading(true); setError(null)` */
    method Begin()
      modifies this
      ensures isLoading && error == None
      ensures items == old(items) && pagination == old(pagination)
    {
      isLoading := true;
      error := None;
    }

    /** The rest of the `try`/`catch`/`finally` once the call has settled */
    method Settle(outcome: Result<Page>)
      modifies this
      ensures !isLoading
      ensures outcome.Ok? ==> items == outcome.value.items && pagination == outcome.value.pagination
      ensures outcome.Ok? ==> error == old(error)
      ensures outcome.Err? ==> items == old(items) && pagination == old(pagination)
      ensures outcome.Err? ==> error == Some(MessageOr(outcome.message, fetchFailure))
    {
      match outcome {
        case Ok(page) =>
          items := page.items;
          pagination := page.pagination;
        case Err(message) =>
          error := Some(MessageOr(message, fetchFailure));
      }
      isLoading := false;
    }

    /** One whole fetch */
    method Fetch(outcome: Result<Page>)
      modifies this
      ensures !isLoading
      ensures outcome.Ok? ==> items == outcome.value.items && pagination == outcome.value.pagination
      ensures outcome.Ok? ==> error == None
      ensures outcome.Err? ==> items == old(items) && pagination == old(pagination)
      ensures outcome.Err? ==> error == Some(MessageOr(outcome.message, fetchFailure))
    {
      Begin();
      Settle(outcome);
    }

    /** A failed delete: only the error changes */
    method FailDelete(message: string, deleteFailure: string)
      modifies this
      ensures error == Some(MessageOr(message, deleteFailure))
      ensures items == old(items) && pagination == old(pagination) && isLoading == old(isLoading)
    {
      error := Some(MessageOr(message, deleteFailure));
    }
  }

  /** `response.data`; None when the reply has no such field */
  function DataOf(response: Json): (r: Option<Json>)
    ensures r.Some? <==> response.JObj? && "data" in response.fields
    ensures r.Some? ==> r.value == response.fields["data"]
  {
    match response
    case JObj(m) => if "data" in m then Some(m["data"]) else None
    case _ => None
  }

  /** A hook over one value: `setValue(response.data)` on success */
  class ValueHook {
    /** None is `null` (nothing loaded yet) or `undefined` */
    var value: Option<Json>
    var isLoading: bool
    var error: Option<string>
    const fetchFailure: string

    constructor (fetchFailure: string)
      ensures this.fetchFailure == fetchFailure
      ensures value == None && isLoading && error == None
    {
      this.fetchFailure := fetchFailure;
      value := None;
      isLoading := true;
      error := None;
    }

    method Begin()
      modifies this
      ensures isLoading && error == None && value == old(value)
    {
      isLoading := true;
      error := None;
    }

    method Settle(outcome: Result<Json>)
      modifies this
      ensures !isLoading
      ensures outcome.Ok? ==> value == DataOf(outcome.value) && error == old(error)
      ensures outcome.Err? ==> value == old(value)
      ensures outcome.Err? ==> error == Some(MessageOr(outcome.message, fetchFailure))
    {
      match outcome {
        case Ok(response) => value := DataOf(response);
        case Err(message) => error := Some(MessageOr(message, fetchFailure));
      }
      isLoading := false;
    }

    method Fetch(outcome: Result<Json>)
      modifies this
      ensures !isLoading
      ensures outcome.Ok? ==> value == DataOf(outcome.value) && error == None
      ensures outcome.Err? ==> value == old(value)
      ensures outcome.Err? ==> error == Some(MessageOr(outcome.message, fetchFailure))
    {
      Begin();
      Settle(outcome);
    }
  }
}
