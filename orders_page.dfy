/** The orders page: cart orders with a status derived from their age, a
    client-side search, Previous / Next paging, and the order modal's
    timeline. Times are milliseconds since the epoch. */
module OrdersPage {
  import opened Common
  import opened Search
  import opened Paging
  import opened ListHooks
  import opened Queries
  import opened UseCarts

  /** `1000 * 60 * 60 * 24` */
  const DayMs: int := 86400000

  datatype OrderStatus = Processing | Shipped | Delivered

  /** Position along processing → shipped → delivered */
  function Rank(s: OrderStatus): nat {
    match s
    case Processing => 0
    case Shipped => 1
    case Delivered => 2
  }

  function StatusName(s: OrderStatus): string {
    match s
    case Processing => "processing"
    case Shipped => "shipped"
    case Delivered => "delivered"
  }

  function StatusColor(s: OrderStatus): string {
    match s
    case Processing => "bg-yellow-100 text-yellow-800"
    case Shipped => "bg-blue-100 text-blue-800"
    case Delivered => "bg-green-100 text-green-800"
  }

  /** `Math.floor((now - created) / day)`: Dafny's division by a positive
      divisor rounds down, as `Math.floor` does, also for negative spans */
  function ElapsedDays(createdAt: int, now: int): (days: int)
    ensures days * DayMs <= now - createdAt < (days + 1) * DayMs
  {
    (now - createdAt) / DayMs
  }

  /** The status rule, stated on the elapsed milliseconds */
  function StatusAt(createdAt: int, now: int): (s: OrderStatus)
    ensures s == Processing <==> now - createdAt < DayMs
    ensures s == Shipped <==> DayMs <= now - createdAt < 3 * DayMs
    ensures s == Delivered <==> now - createdAt >= 3 * DayMs
  {
    var diffDays := ElapsedDays(createdAt, now);
    if diffDays < 1 then Processing
    else if diffDays < 3 then Shipped
    else Delivered
  }

  /** The list's `getOrderStatus` */
  datatype ListStatus = ListStatus(status: string, color: string)

  function GetOrderStatus(createdAt: int, now: int): (r: ListStatus)
    ensures r.status == StatusName(StatusAt(createdAt, now))
    ensures r.color == StatusColor(StatusAt(createdAt, now))
  {
    var diffDays := ElapsedDays(createdAt, now);
    if diffDays < 1 then ListStatus("processing", "bg-yellow-100 text-yellow-800")
    else if diffDays < 3 then ListStatus("shipped", "bg-blue-100 text-blue-800")
    else ListStatus("delivered", "bg-green-100 text-green-800")
  }

  /** The modal's own `getOrderStatus`, which also carries the icon */
  datatype ModalStatus = ModalStatus(status: string, color: string, icon: string)

  function ModalOrderStatus(createdAt: int, now: int): ModalStatus {
    var diffDays := ElapsedDays(createdAt, now);
    if diffDays < 1 then ModalStatus("processing", "bg-yellow-100 text-yellow-800", ProcessingIconAsWritten)
    else if diffDays < 3 then ModalStatus("shipped", "bg-blue-100 text-blue-800", ShippedIconAsWritten)
    else ModalStatus("delivered", "bg-green-100 text-green-800", DeliveredIconAsWritten)
  }

  /** The two copies agree on status and colour, and the modal's icon is
      the one `getStatusIcon` gives for that status */
  lemma StatusCopiesAgree(createdAt: int, now: int)
    ensures ModalOrderStatus(createdAt, now).status == GetOrderStatus(createdAt, now).status
    ensures ModalOrderStatus(createdAt, now).color == GetOrderStatus(createdAt, now).color
    ensures ModalOrderStatus(createdAt, now).icon == StatusIconAsWritten(GetOrderStatus(createdAt, now).status)
  {
  }

  /** Exactly one day gives shipped, exactly three days delivered; an order
      stamped in the future is still processing */
  lemma StatusBoundaries(createdAt: int)
    ensures StatusAt(createdAt, createdAt + DayMs - 1) == Processing
    ensures StatusAt(createdAt, createdAt + DayMs) == Shipped
    ensures StatusAt(createdAt, createdAt + 3 * DayMs - 1) == Shipped
    ensures StatusAt(createdAt, createdAt + 3 * DayMs) == Delivered
    ensures forall now :: now < createdAt ==> StatusAt(createdAt, now) == Processing
  {
  }

  /** As time passes an order's status never moves backwards */
  lemma StatusMonotone(createdAt: int, now1: int, now2: int)
    requires now1 <= now2
    ensures Rank(StatusAt(createdAt, now1)) <= Rank(StatusAt(createdAt, now2))
  {
  }

  // The four icons as the file spells them: each emoji's UTF-8 bytes read
  // back as Mac OS Roman text.
  const ProcessingIconAsWritten: string := "\U{201A}\U{00E8}\U{2265}"
  const ShippedIconAsWritten: string := "\U{F8FF}\U{00FC}\U{00F6}\U{00F6}"
  const DeliveredIconAsWritten: string := "\U{201A}\U{00FA}\U{00D6}"
  const FallbackIconAsWritten: string := "\U{F8FF}\U{00FC}\U{00EC}\U{00B6}"

  /** `getStatusIcon` as written */
  function StatusIconAsWritten(status: string): (icon: string)
    ensures status !in {"processing", "shipped", "delivered"} ==> icon == FallbackIconAsWritten
  {
    if status == "processing" then ProcessingIconAsWritten
    else if status == "shipped" then ShippedIconAsWritten
    else if status == "delivered" then DeliveredIconAsWritten
    else FallbackIconAsWritten
  }

  /** `getStatusIcon` with the emoji the bytes were meant to be:
      hourglass, delivery truck, check mark, package */
  function StatusIcon(status: string): (icon: string)
    ensures |icon| == 1
    ensures status !in {"processing", "shipped", "delivered"} ==> icon == "\U{1F4E6}"
  {
    if status == "processing" then "\U{23F3}"
    else if status == "shipped" then "\U{1F69A}"
    else if status == "delivered" then "\U{2705}"
    else "\U{1F4E6}"
  }

  /** Every icon as written is several characters of Latin text, not the
      single emoji the corrected lookup gives */
  lemma IconsMisEncoded(status: string)
    ensures |StatusIconAsWritten(status)| >= 3
    ensures StatusIconAsWritten(status) != StatusIcon(status)
    ensures forall i :: 0 <= i < |StatusIconAsWritten(status)| ==>
              StatusIconAsWritten(status)[i] as int < 0x1F000
  {
  }

  /** The four icons of the corrected lookup are distinct */
  lemma StatusIconsDistinct()
    ensures StatusIcon("processing") != StatusIcon("shipped")
    ensures StatusIcon("shipped") != StatusIcon("delivered")
    ensures StatusIcon("processing") != StatusIcon("delivered")
    ensures StatusIcon("delivered") != StatusIcon("unknown")
  {
  }

  // ---------------------------------------------------------------------------
  // The order modal's timeline
  // ---------------------------------------------------------------------------

  datatype TimelineStep = TimelineStep(title: string, at: int)

  /** The timeline entries shown for an order of the given status */
  function Timeline(createdAt: int, status: string): (steps: seq<TimelineStep>)
    ensures |steps| >= 1 && steps[0] == TimelineStep("Order Placed", createdAt)
    ensures TimelineStep("Processing Started", createdAt) in steps <==> status != "processing"
    ensures TimelineStep("Shipped", createdAt + DayMs) in steps <==> status in {"shipped", "delivered"}
    ensures TimelineStep("Delivered", createdAt + 3 * DayMs) in steps <==> status == "delivered"
  {
    [TimelineStep("Order Placed", createdAt)]
    + (if status != "processing" then [TimelineStep("Processing Started", createdAt)] else [])
    + (if status == "shipped" || status == "delivered" then [TimelineStep("Shipped", createdAt + DayMs)] else [])
    + (if status == "delivered" then [TimelineStep("Delivered", createdAt + 3 * DayMs)] else [])
  }

  /** A delivered order shows all four steps, a processing one only the first */
  lemma TimelineLengths(createdAt: int, now: int)
    ensures StatusAt(createdAt, now) == Delivered ==> |Timeline(createdAt, ModalOrderStatus(createdAt, now).status)| == 4
    ensures StatusAt(createdAt, now) == Shipped ==> |Timeline(createdAt, ModalOrderStatus(createdAt, now).status)| == 3
    ensures StatusAt(createdAt, now) == Processing ==> |Timeline(createdAt, ModalOrderStatus(createdAt, now).status)| == 1
  {
  }

  // ---------------------------------------------------------------------------
  // Search and paging
  // ---------------------------------------------------------------------------

  /** The fields of a cart order the page reads */
  datatype Cart = Cart(id: string, userId: string, firstName: string, lastName: string,
                       shippingAddress: string, country: string, productName: string, createdAt: int)

  function CartSearchFields(cart: Cart): seq<Option<string>> {
    [Some(cart.firstName), Some(cart.lastName), Some(cart.shippingAddress),
     Some(cart.country), Some(cart.productName), Some(cart.userId)]
  }

  function FilterCarts(carts: seq<Cart>, query: string): seq<Cart> {
    SearchFilter(carts, query, CartSearchFields)
  }

  /** The search keeps, in order, the carts one of whose six fields holds the query */
  lemma CartSearchSpec(carts: seq<Cart>, query: string)
    ensures query == "" ==> FilterCarts(carts, query) == carts
    ensures query != "" ==> forall c :: c in FilterCarts(carts, query) <==>
              c in carts && MatchesAny(CartSearchFields(c), Lower(query))
    ensures IsSubseq(FilterCarts(carts, query), carts)
  {
    SearchSpec(carts, query, CartSearchFields);
  }

  /** `useCarts({ page: currentPage, limit: 20 })` for a page number */
  function HookParams(currentPage: int): CartsParams {
    CartsParams(Some(currentPage), Some(20))
  }

  /** The page's own page number next to the carts hook it drives; every
      render passes the current page number to the hook */
  class OrdersView {
    var currentPage: int
    const carts: CartsHook

    ghost predicate Valid()
      reads this, carts
    {
      carts.Valid() && carts.params == HookParams(currentPage)
    }

    constructor ()
      ensures Valid() && currentPage == 1
      ensures fresh(carts) && fresh(carts.list)
      ensures carts.list.items == [] && carts.list.isLoading && carts.list.error == None
    {
      currentPage := 1;
      carts := new CartsHook(HookParams(1));
    }

    /** The Refresh button: `refetch`, with the current page's parameters */
    method Refresh(outcome: Result<Page>) returns (sent: CartsParams)
      requires Valid()
      modifies carts.list
      ensures Valid() && currentPage == old(currentPage)
      ensures sent == UseCarts.Resolve(NoParams, HookParams(currentPage))
      ensures !carts.list.isLoading
      ensures outcome.Ok? ==> carts.list.items == outcome.value.items && carts.list.pagination == outcome.value.pagination
      ensures outcome.Ok? ==> carts.list.error == None
      ensures outcome.Err? ==> carts.list.items == old(carts.list.items) && carts.list.pagination == old(carts.list.pagination)
      ensures outcome.Err? ==> carts.list.error == Some(MessageOr(outcome.message, FetchFailure))
    {
      sent := carts.Refetch(outcome);
    }

    /** Previous: `setCurrentPage(page - 1)` and `changePage(page - 1)`; the
        render that follows hands the new page number to the hook */
    method GoPrevious(outcome: Result<Page>) returns (sent: CartsParams)
      requires Valid()
      modifies this, carts, carts.list
      ensures Valid()
      ensures currentPage == PreviousTarget(old(carts.list.pagination))
      ensures sent == UseCarts.Resolve(HookParams(currentPage), old(carts.params))
      ensures !carts.list.isLoading
      ensures outcome.Ok? ==> carts.list.items == outcome.value.items && carts.list.pagination == outcome.value.pagination
      ensures outcome.Ok? ==> carts.list.error == None
      ensures outcome.Err? ==> carts.list.items == old(carts.list.items) && carts.list.pagination == old(carts.list.pagination)
      ensures outcome.Err? ==> carts.list.error == Some(MessageOr(outcome.message, FetchFailure))
    {
      var newPage := PreviousTarget(carts.list.pagination);
      currentPage := newPage;
      sent := carts.ChangePage(newPage, outcome);
      carts.Rerender(HookParams(currentPage));
    }

    /** Next: `setCurrentPage(page + 1)` and `changePage(page + 1)` */
    method GoNext(outcome: Result<Page>) returns (sent: CartsParams)
      requires Valid()
      modifies this, carts, carts.list
      ensures Valid()
      ensures currentPage == NextTarget(old(carts.list.pagination))
      ensures sent == UseCarts.Resolve(HookParams(currentPage), old(carts.params))
      ensures !carts.list.isLoading
      ensures outcome.Ok? ==> carts.list.items == outcome.value.items && carts.list.pagination == outcome.value.pagination
      ensures outcome.Ok? ==> carts.list.error == None
      ensures outcome.Err? ==> carts.list.items == old(carts.list.items) && carts.list.pagination == old(carts.list.pagination)
      ensures outcome.Err? ==> carts.list.error == Some(MessageOr(outcome.message, FetchFailure))
    {
      var newPage := NextTarget(carts.list.pagination);
      currentPage := newPage;
      sent := carts.ChangePage(newPage, outcome);
      carts.Rerender(HookParams(currentPage));
    }
  }

  /** After Next, Refresh asks for the page Next moved to, with limit 20 */
  lemma RefreshFollowsPage(currentPage: int)
    requires currentPage != 0
    ensures UseCarts.Resolve(NoParams, HookParams(currentPage)) == CartsParams(Some(currentPage), Some(20))
  {
  }
}
