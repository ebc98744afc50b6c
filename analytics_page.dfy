/** The analytics page: the chart series it derives from the analytics
    reply, the growth percentage, the date-range selector's dispatch to the
    analytics hook, the totals and percentages of the distribution panels,
    the top-five platform list, and which screen it shows. */
module AnalyticsPage {
  import opened Common
  import opened Json
  import opened Queries
  import opened ListHooks
  import opened UseAnalytics

  /** `{ _id: { month, year }, count }` */
  datatype GrowthItem = GrowthItem(month: int, year: int, count: int)

  /** `{ _id, count }` of the per-platform and per-type series */
  datatype CountItem = CountItem(id: string, count: int)

  /** The parts of the reply the charts read; None is a missing series */
  datatype Analytics = Analytics(userGrowth: Option<seq<GrowthItem>>,
                                 postsByPlatform: Option<seq<CountItem>>,
                                 eventsByType: Option<seq<CountItem>>)

  /** `{ name, value }` */
  datatype ChartPoint = ChartPoint(name: string, value: int)

  /** `${month}/${year}` */
  function GrowthName(item: GrowthItem): string {
    IntToString(item.month) + "/" + IntToString(item.year)
  }

  /** `formatUserGrowthData`: one point per item, in order */
  function FormatUserGrowth(analytics: Option<Analytics>): (points: seq<ChartPoint>)
    ensures analytics.None? || analytics.value.userGrowth.None? ==> points == []
    ensures analytics.Some? && analytics.value.userGrowth.Some? ==>
              var items := analytics.value.userGrowth.value;
              |points| == |items| &&
              forall i :: 0 <= i < |items| ==>
                points[i] == ChartPoint(GrowthName(items[i]), items[i].count)
  {
    if analytics.None? || analytics.value.userGrowth.None? then []
    else
      var items := analytics.value.userGrowth.value;
      seq(|items|, i requires 0 <= i < |items| => ChartPoint(GrowthName(items[i]), items[i].count))
  }

  lemma IntToStringShape(n: int)
    ensures forall i :: 0 <= i < |IntToString(n)| ==> IntToString(n)[i] == '-' || IsDigit(IntToString(n)[i])
    ensures IsDigit(IntToString(n)[0]) <==> n >= 0
  {
    if n >= 0 {
      assert IntToString(n) == NatToString(n);
      NatToStringFirstDigit(n);
    } else {
      assert IntToString(n)[0] == '-';
    }
  }

  lemma {:induction false} NatToStringFirstDigit(n: nat)
    ensures IsDigit(NatToString(n)[0])
    decreases n
  {
    if n >= 10 {
      NatToStringFirstDigit(n / 10);
      assert NatToString(n)[0] == NatToString(n / 10)[0];
    }
  }

  lemma IntToStringInjective(m: int, n: int)
    requires IntToString(m) == IntToString(n)
    ensures m == n
  {
    IntToStringShape(m);
    IntToStringShape(n);
    if m < 0 && n < 0 {
      assert NatToString(-m) == IntToString(m)[1..];
      assert NatToString(-n) == IntToString(n)[1..];
      NatToStringInjective(-m, -n);
    } else if m >= 0 && n >= 0 {
      NatToStringInjective(m, n);
    }
  }

  /** The slash of a growth label sits right after the month */
  lemma SlashPosition(item: GrowthItem)
    ensures var name := GrowthName(item);
            var k := |IntToString(item.month)|;
            k < |name| && name[k] == '/' && (forall i :: 0 <= i < k ==> name[i] != '/') &&
            name[..k] == IntToString(item.month) && name[k + 1..] == IntToString(item.year)
  {
    IntToStringShape(item.month);
    var name := GrowthName(item);
    var k := |IntToString(item.month)|;
    forall i | 0 <= i < k ensures name[i] != '/' {
      assert name[i] == IntToString(item.month)[i];
    }
  }

  /** Distinct (month, year) pairs get distinct labels, so a label names its month */
  lemma GrowthNameInjective(a: GrowthItem, b: GrowthItem)
    requires GrowthName(a) == GrowthName(b)
    ensures a.month == b.month && a.year == b.year
  {
    SlashPosition(a);
    SlashPosition(b);
    IntToStringInjective(a.month, b.month);
    IntToStringInjective(a.year, b.year);
  }

  /** `s.charAt(0).toUpperCase() + s.slice(1)` */
  function Capitalize(s: string): (r: string)
    ensures |r| == |s|
    ensures |s| > 0 ==> r[0] == UpperChar(s[0]) && r[1..] == s[1..]
  {
    if s == "" then "" else [UpperChar(s[0])] + s[1..]
  }

  /** Capitalizing changes nothing a case-insensitive comparison sees, and
      capitalizing twice is capitalizing once */
  lemma CapitalizeSpec(s: string)
    ensures Lower(Capitalize(s)) == Lower(s)
    ensures Capitalize(Capitalize(s)) == Capitalize(s)
  {
    if s != "" {
      var r := Capitalize(s);
      assert LowerChar(UpperChar(s[0])) == LowerChar(s[0]);
      forall i | 0 <= i < |s| ensures Lower(r)[i] == Lower(s)[i] {
        if i > 0 {
          assert r[i] == s[i];
        }
      }
    }
  }

  /** The shared body of `formatPostsByPlatformData` and `formatEventsByTypeData` */
  function FormatCounts(items: Option<seq<CountItem>>): (points: seq<ChartPoint>)
    ensures items.None? ==> points == []
    ensures items.Some? ==> |points| == |items.value|
    ensures items.Some? ==> forall i :: 0 <= i < |items.value| ==>
              points[i] == ChartPoint(Capitalize(items.value[i].id), items.value[i].count)
  {
    if items.None? then []
    else seq(|items.value|, i requires 0 <= i < |items.value| =>
               ChartPoint(Capitalize(items.value[i].id), items.value[i].count))
  }

  function FormatPostsByPlatform(analytics: Option<Analytics>): seq<ChartPoint> {
    FormatCounts(if analytics.Some? then analytics.value.postsByPlatform else None)
  }

  function FormatEventsByType(analytics: Option<Analytics>): seq<ChartPoint> {
    FormatCounts(if analytics.Some? then analytics.value.eventsByType else None)
  }

  /** The platform chart keeps each platform's count and its name up to case */
  lemma PlatformPointsSpec(analytics: Analytics, i: int)
    requires analytics.postsByPlatform.Some? && 0 <= i < |analytics.postsByPlatform.value|
    ensures var points := FormatPostsByPlatform(Some(analytics));
            var item := analytics.postsByPlatform.value[i];
            i < |points| && points[i].value == item.count && Lower(points[i].name) == Lower(item.id)
  {
    CapitalizeSpec(analytics.postsByPlatform.value[i].id);
  }

  /** `calculateGrowth`, in exact arithmetic */
  function CalculateGrowth(current: real, previous: real): (growth: real)
    ensures previous == 0.0 ==> growth == if current > 0.0 then 100.0 else 0.0
    ensures previous != 0.0 ==> growth * previous == (current - previous) * 100.0
  {
    if previous == 0.0 then (if current > 0.0 then 100.0 else 0.0)
    else ((current - previous) / previous) * 100.0
  }

  /** For a positive baseline the growth is positive exactly when the value
      rose, and the new value can be read back from the growth */
  lemma GrowthSign(current: real, previous: real)
    requires previous > 0.0
    ensures CalculateGrowth(current, previous) > 0.0 <==> current > previous
    ensures CalculateGrowth(current, previous) == 0.0 <==> current == previous
    ensures current == previous + previous * CalculateGrowth(current, previous) / 100.0
  {
    var g := CalculateGrowth(current, previous);
    assert g * previous == (current - previous) * 100.0;
  }

  /** What `handleDateRangeChange` asks of the hook */
  datatype RangeAction = FetchRange(startDate: string, endDate: string) | Refetch

  /** The dispatch; `weekAgo`, `monthAgo` and `today` are the ISO dates the
      clock gives */
  function DateRangeAction(range: string, weekAgo: string, monthAgo: string, today: string): (action: RangeAction)
    ensures action.FetchRange? <==>
              (range == "week" && weekAgo != "" && today != "") ||
              (range == "month" && monthAgo != "" && today != "")
    ensures action.FetchRange? ==> action.endDate == today
    ensures action.FetchRange? && range == "week" ==> action.startDate == weekAgo
    ensures action.FetchRange? && range == "month" ==> action.startDate == monthAgo
  {
    var startDate := if range == "week" then weekAgo else if range == "month" then monthAgo else "";
    var endDate := if range == "week" || range == "month" then today else "";
    if startDate != "" && endDate != "" then FetchRange(startDate, endDate) else Refetch
  }

  /** With the dates a clock gives, exactly 'week' and 'month' fetch a range */
  lemma RangeDispatch(range: string, weekAgo: string, monthAgo: string, today: string)
    requires weekAgo != "" && monthAgo != "" && today != ""
    ensures DateRangeAction(range, weekAgo, monthAgo, today).FetchRange? <==>
              range == "week" || range == "month"
  {
  }

  class AnalyticsView {
    var dateRange: string
    const hook: AnalyticsHook

    ghost predicate Valid() {
      hook.Valid()
    }

    constructor (hook: AnalyticsHook)
      requires hook.Valid()
      ensures Valid() && this.hook == hook && dateRange == "all"
    {
      this.hook := hook;
      dateRange := "all";
    }

    /** `handleDateRangeChange(range)`: remember the range, then fetch with
        the range's dates or refetch with the hook's own parameters */
    method HandleDateRangeChange(range: string, weekAgo: string, monthAgo: string, today: string,
                                 outcome: Result<Json>)
      returns (sent: AnalyticsParams)
      requires Valid()
      modifies this, hook.state
      ensures Valid() && dateRange == range
      ensures var action := DateRangeAction(range, weekAgo, monthAgo, today);
              sent == if action.FetchRange?
                      then UseAnalytics.Resolve(AnalyticsParams(Some(action.startDate), Some(action.endDate)), hook.params)
                      else hook.params
      ensures !hook.state.isLoading
      ensures outcome.Ok? ==> hook.state.value == DataOf(outcome.value) && hook.state.error == None
      ensures outcome.Err? ==> hook.state.value == old(hook.state.value)
      ensures outcome.Err? ==> hook.state.error == Some(MessageOr(outcome.message, UseAnalytics.FetchFailure))
    {
      dateRange := range;
      var action := DateRangeAction(range, weekAgo, monthAgo, today);
      if action.FetchRange? {
        sent := hook.FetchWithDateRange(action.startDate, action.endDate, outcome);
      } else {
        sent := hook.Refetch(outcome);
      }
    }
  }

  function Sum(xs: seq<int>): int {
    if xs == [] then 0 else xs[0] + Sum(xs[1..])
  }

  lemma {:induction false} SumAppend(xs: seq<int>, ys: seq<int>)
    ensures Sum(xs + ys) == Sum(xs) + Sum(ys)
  {
    if xs != [] {
      assert (xs + ys)[1..] == xs[1..] + ys;
      SumAppend(xs[1..], ys);
    } else {
      assert xs + ys == ys;
    }
  }

  function CountsOf(items: seq<CountItem>): (counts: seq<int>)
    ensures |counts| == |items|
    ensures forall i :: 0 <= i < |items| ==> counts[i] == items[i].count
  {
    seq(|items|, i requires 0 <= i < |items| => items[i].count)
  }

  /** `items?.reduce((sum, item) => sum + item.count, 0) || 0` */
  function Total(items: Option<seq<CountItem>>): (total: int)
    ensures items.None? ==> total == 0
  {
    if items.None? then 0 else Sum(CountsOf(items.value))
  }

  /** Adding a row adds its count to the total */
  lemma TotalSnoc(items: seq<CountItem>, item: CountItem)
    ensures Total(Some(items + [item])) == Total(Some(items)) + item.count
  {
    assert CountsOf(items + [item]) == CountsOf(items) + [item.count];
    SumAppend(CountsOf(items), [item.count]);
  }

  /** With no negative counts, no single count exceeds the total */
  lemma {:induction false} CountWithinSum(xs: seq<int>, i: int)
    requires forall j :: 0 <= j < |xs| ==> xs[j] >= 0
    requires 0 <= i < |xs|
    ensures 0 <= xs[i] <= Sum(xs)
  {
    if i > 0 {
      CountWithinSum(xs[1..], i - 1);
    } else {
      SumNonNegative(xs[1..]);
    }
  }

  lemma {:induction false} SumNonNegative(xs: seq<int>)
    requires forall j :: 0 <= j < |xs| ==> xs[j] >= 0
    ensures Sum(xs) >= 0
  {
    if xs != [] {
      SumNonNegative(xs[1..]);
    }
  }

  /** `(total || 1)`: the divisor of the percentages is never 0 */
  function Divisor(total: int): (d: int)
    ensures d != 0
    ensures total != 0 ==> d == total
  {
    if total == 0 then 1 else total
  }

  /** `Math.round((count / divisor) * 100)`, in exact arithmetic */
  function Percent(count: int, divisor: int): (p: int)
    requires divisor != 0
    ensures (p as real) - 0.5 <= (count as real / divisor as real) * 100.0 < (p as real) + 0.5
  {
    ((count as real / divisor as real) * 100.0 + 0.5).Floor
  }

  /** With non-negative counts every row's share is between 0% and 100% */
  lemma PercentInRange(items: seq<CountItem>, i: int)
    requires forall j :: 0 <= j < |items| ==> items[j].count >= 0
    requires 0 <= i < |items|
    ensures 0 <= Percent(items[i].count, Divisor(Total(Some(items)))) <= 100
  {
    CountWithinSum(CountsOf(items), i);
    var c := items[i].count as real;
    var d := Divisor(Total(Some(items))) as real;
    assert 0.0 <= c <= d && d > 0.0;
    assert c / d * 100.0 <= 100.0 by {
      assert c / d <= 1.0;
    }
  }

  /** `postsByPlatform?.slice(0, 5)` */
  function TopPlatforms(analytics: Option<Analytics>): (top: seq<CountItem>)
    ensures |top| <= 5
    ensures analytics.Some? && analytics.value.postsByPlatform.Some? ==>
              var items := analytics.value.postsByPlatform.value;
              |top| <= |items| && top == items[..|top|]
  {
    if analytics.None? || analytics.value.postsByPlatform.None? then []
    else SliceTo(analytics.value.postsByPlatform.value, 5)
  }

  /** "+N more platforms", shown only past five */
  function MoreCount(analytics: Option<Analytics>): (more: Option<int>)
    ensures more.Some? ==> more.value > 0
  {
    if analytics.Some? && analytics.value.postsByPlatform.Some? && |analytics.value.postsByPlatform.value| > 5
    then Some(|analytics.value.postsByPlatform.value| - 5)
    else None
  }

  /** The listed platforms and the "+N more" count account for every platform */
  lemma PlatformsAccounted(analytics: Analytics)
    requires analytics.postsByPlatform.Some?
    ensures |TopPlatforms(Some(analytics))| +
            (if MoreCount(Some(analytics)).Some? then MoreCount(Some(analytics)).value else 0) ==
            |analytics.postsByPlatform.value|
    ensures MoreCount(Some(analytics)).Some? <==> |analytics.postsByPlatform.value| > 5
  {
  }

  /** The screens of the page */
  datatype Screen = Skeleton | FullError(message: string) | Content(banner: Option<string>)

  /** `isLoading` first; the full-screen error only while nothing has loaded;
      otherwise the content, with the error as a banner over it */
  function ScreenOf(isLoading: bool, error: Option<string>, analytics: Option<Json>): (screen: Screen)
    ensures screen.Skeleton? <==> isLoading
    ensures screen.FullError? <==>
              !isLoading && StrTruthy(error) && !(analytics.Some? && Truthy(analytics.value))
    ensures screen.FullError? ==> screen.message == error.value
    ensures screen.Content? ==> (screen.banner.Some? <==> StrTruthy(error))
    ensures screen.Content? && screen.banner.Some? ==> screen.banner == error
  {
    if isLoading then Skeleton
    else if StrTruthy(error) && !(analytics.Some? && Truthy(analytics.value)) then FullError(error.value)
    else Content(if StrTruthy(error) then error else None)
  }

  /** A failed reload over loaded analytics keeps them on screen, under a banner */
  lemma FailedReloadKeepsContent(loaded: Json, message: string)
    requires Truthy(loaded) && message != ""
    ensures ScreenOf(false, Some(message), Some(loaded)) == Content(Some(message))
  {
  }
}
