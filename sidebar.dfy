/** The navigation sidebar: seven menu entries, an orders badge fed by a
    one-item carts request, and item selection that also closes the
    drawer on small screens. */
module Sidebar {
  import opened Common
  import opened Http
  import opened Queries
  import opened ListHooks
  import opened MainApp

  datatype MenuItem = MenuItem(id: string, caption: string)

  function MenuItems(): (items: seq<MenuItem>)
    ensures |items| == 7
    ensures forall i :: 0 <= i < |items| ==> items[i].id == ["home", "users", "orders", "posts", "events", "referrals", "analytics"][i]
  {
    [MenuItem("home", "Dashboard"), MenuItem("users", "All Users"),
     MenuItem("orders", "Manage Orders"), MenuItem("posts", "Posts"),
     MenuItem("events", "Events"), MenuItem("referrals", "All Referrals"),
     MenuItem("analytics", "Analytics")]
  }

  /** No two entries share an id, and each entry opens its own page */
  lemma MenuIdsDistinct()
    ensures forall i, j :: 0 <= i < j < |MenuItems()| ==> MenuItems()[i].id != MenuItems()[j].id
    ensures forall i, j :: 0 <= i < j < |MenuItems()| ==>
              RenderPage(MenuItems()[i].id) != RenderPage(MenuItems()[j].id)
  {
  }

  /** The orders entry's badge: the count when it is positive */
  function OrdersBadge(count: int): (badge: Option<int>)
    ensures badge.Some? <==> count > 0
    ensures badge.Some? ==> badge.value == count
  {
    if count > 0 then Some(count) else None
  }

  /** The badge caption: '99+' above 99, the count otherwise */
  function BadgeText(badge: nat): (text: string)
    ensures badge > 99 ==> text == "99+"
    ensures badge <= 99 ==> (forall i :: 0 <= i < |text| ==> IsDigit(text[i])) && ParseDigits(text) == badge
  {
    if badge > 99 then "99+"
    else
      NatToStringRoundTrip(badge);
      NatToString(badge)
  }

  /** A shown badge is at most three characters wide */
  lemma BadgeTextShort(badge: nat)
    requires badge > 0
    ensures 1 <= |BadgeText(badge)| <= 3
  {
    if badge <= 99 {
      if badge >= 10 {
        assert NatToString(badge) == NatToString(badge / 10) + [DigitChar(badge % 10)];
      }
    }
  }

  /** The request behind the count: only the limit, set to 1 */
  const CountRequest: CartsParams := CartsParams(None, Some(1))

  lemma CountRequestQuery()
    ensures Serialize(CartsFields(CountRequest)) == [("limit", "1")]
  {
    assert NatToString(1) == "1";
  }

  /** The badge count the sidebar keeps */
  class OrdersCounter {
    var ordersCount: int

    constructor ()
      ensures ordersCount == 0 && OrdersBadge(ordersCount).None?
    {
      ordersCount := 0;
    }

    /** `fetchOrdersCount`: the count becomes the reply's total; a failure
        leaves the previous count (the error is only logged) */
    method Refresh(outcome: Result<Page>) returns (sent: CartsParams)
      modifies this
      ensures sent == CountRequest
      ensures outcome.Ok? ==> ordersCount == outcome.value.pagination.total
      ensures outcome.Err? ==> ordersCount == old(ordersCount)
    {
      sent := CountRequest;
      if outcome.Ok? {
        ordersCount := outcome.value.pagination.total;
      }
    }
  }

  /** Clicking an entry shows its page and closes the drawer */
  method Select(shell: Shell, item: MenuItem)
    modifies shell
    ensures shell.currentPage == item.id && !shell.sidebarOpen
  {
    shell.SetCurrentPage(item.id);
    shell.SetSidebarOpen(false);
  }

  /** The overlay and the close button only close the drawer */
  method Close(shell: Shell)
    modifies shell
    ensures !shell.sidebarOpen && shell.currentPage == old(shell.currentPage)
  {
    shell.SetSidebarOpen(false);
  }

  /** The highlighted entry is the one whose id is the current page */
  predicate IsHighlighted(shell: Shell, item: MenuItem)
    reads shell
  {
    shell.currentPage == item.id
  }
}
