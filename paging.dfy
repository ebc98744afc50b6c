/** The Previous / Next controls under the paged lists (orders, events, posts). */
module Paging {
  import opened ListHooks

  /** The controls appear only when there is more than one page */
  predicate ShowsControls(p: Pagination) {
    p.pages > 1
  }

  predicate PreviousDisabled(p: Pagination) {
    p.page == 1
  }

  predicate NextDisabled(p: Pagination) {
    p.page == p.pages
  }

  /** The page Previous asks for */
  function PreviousTarget(p: Pagination): (target: int)
    ensures target < p.page
  {
    p.page - 1
  }

  /** The page Next asks for */
  function NextTarget(p: Pagination): (target: int)
    ensures target > p.page
  {
    p.page + 1
  }

  /** On a consistent pagination an enabled button never leaves the range of pages */
  lemma EnabledTargetsInRange(p: Pagination)
    requires 1 <= p.page <= p.pages
    ensures !PreviousDisabled(p) ==> 1 <= PreviousTarget(p) && PreviousTarget(p) == p.page - 1
    ensures !NextDisabled(p) ==> NextTarget(p) <= p.pages && NextTarget(p) == p.page + 1
  {
  }
}
