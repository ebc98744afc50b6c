/** The query strings of the list endpoints. Each builder mirrors a run of
    guarded `queryParams.append(...)` calls: numbers and search strings are
    appended only when truthy (so 0 and '' are dropped), booleans whenever
    they are defined (so `false` is sent). The same runs occur in the shared
    admin client and in the per-resource services. */
module Queries {
  import opened Common
  import opened Http

  datatype UsersParams = UsersParams(page: Option<int>, limit: Option<int>, search: Option<string>, isActive: Option<bool>, isCompleted: Option<bool>)

  function UsersFields(p: UsersParams): seq<Field> {
    [TruthyNum("page", p.page), TruthyNum("limit", p.limit), TruthyStr("search", p.search), DefinedBool("isActive", p.isActive), DefinedBool("isCompleted", p.isCompleted)]
  }

  lemma UsersQueryFacts(p: UsersParams)
    ensures SendsTruthyNum(Serialize(UsersFields(p)), "page", p.page)
    ensures SendsTruthyNum(Serialize(UsersFields(p)), "limit", p.limit)
    ensures SendsTruthyStr(Serialize(UsersFields(p)), "search", p.search)
    ensures SendsDefinedBool(Serialize(UsersFields(p)), "isActive", p.isActive)
    ensures SendsDefinedBool(Serialize(UsersFields(p)), "isCompleted", p.isCompleted)
    ensures IsSubseq(Keys(Serialize(UsersFields(p))), ["page", "limit", "search", "isActive", "isCompleted"])
  {
    var fs := UsersFields(p);
    assert DistinctKeys(fs);
    GetSerialize(fs, 0);
    GetSerialize(fs, 1);
    GetSerialize(fs, 2);
    GetSerialize(fs, 3);
    GetSerialize(fs, 4);
    SerializeKeepsOrder(fs);
    assert FieldKeys(fs) == ["page", "limit", "search", "isActive", "isCompleted"];
  }

  /** The users query: page, limit, search, isActive, isCompleted, each key at most once and in that order */
  method BuildUsersQuery(p: UsersParams) returns (q: Query)
    ensures q == Serialize(UsersFields(p))
    ensures SendsTruthyNum(q, "page", p.page)
    ensures SendsTruthyNum(q, "limit", p.limit)
    ensures SendsTruthyStr(q, "search", p.search)
    ensures SendsDefinedBool(q, "isActive", p.isActive)
    ensures SendsDefinedBool(q, "isCompleted", p.isCompleted)
    ensures IsSubseq(Keys(q), ["page", "limit", "search", "isActive", "isCompleted"])
  {
    var fs := UsersFields(p);
    var queryParams := new SearchParams();
    if NumTruthy(p.page) { queryParams.Append("page", IntToString(p.page.value)); }
    assert queryParams.pairs == Entry(fs[0]);
    if NumTruthy(p.limit) { queryParams.Append("limit", IntToString(p.limit.value)); }
    assert queryParams.pairs == Entry(fs[0]) + Entry(fs[1]);
    if StrTruthy(p.search) { queryParams.Append("search", p.search.value); }
    assert queryParams.pairs == Entry(fs[0]) + Entry(fs[1]) + Entry(fs[2]);
    if p.isActive.Some? { queryParams.Append("isActive", BoolToString(p.isActive.value)); }
    assert queryParams.pairs == Entry(fs[0]) + Entry(fs[1]) + Entry(fs[2]) + Entry(fs[3]);
    if p.isCompleted.Some? { queryParams.Append("isCompleted", BoolToString(p.isCompleted.value)); }
    assert queryParams.pairs == Entry(fs[0]) + Entry(fs[1]) + Entry(fs[2]) + Entry(fs[3]) + Entry(fs[4]);
    q := queryParams.pairs;
    Serialize5(fs);
    UsersQueryFacts(p);
  }

  datatype ProductsParams = ProductsParams(page: Option<int>, limit: Option<int>, search: Option<string>)

  function ProductsFields(p: ProductsParams): seq<Field> {
    [TruthyNum("page", p.page), TruthyNum("limit", p.limit), TruthyStr("search", p.search)]
  }

  lemma ProductsQueryFacts(p: ProductsParams)
    ensures SendsTruthyNum(Serialize(ProductsFields(p)), "page", p.page)
    ensures SendsTruthyNum(Serialize(ProductsFields(p)), "limit", p.limit)
    ensures SendsTruthyStr(Serialize(ProductsFields(p)), "search", p.search)
    ensures IsSubseq(Keys(Serialize(ProductsFields(p))), ["page", "limit", "search"])
  {
    var fs := ProductsFields(p);
    assert DistinctKeys(fs);
    GetSerialize(fs, 0);
    GetSerialize(fs, 1);
    GetSerialize(fs, 2);
    SerializeKeepsOrder(fs);
    assert FieldKeys(fs) == ["page", "limit", "search"];
  }

  /** The products query: page, limit, search, each key at most once and in that order */
  method BuildProductsQuery(p: ProductsParams) returns (q: Query)
    ensures q == Serialize(ProductsFields(p))
    ensures SendsTruthyNum(q, "page", p.page)
    ensures SendsTruthyNum(q, "limit", p.limit)
    ensures SendsTruthyStr(q, "search", p.search)
    ensures IsSubseq(Keys(q), ["page", "limit", "search"])
  {
    var fs := ProductsFields(p);
    var queryParams := new SearchParams();
    if NumTruthy(p.page) { queryParams.Append("page", IntToString(p.page.value)); }
    assert queryParams.pairs == Entry(fs[0]);
    if NumTruthy(p.limit) { queryParams.Append("limit", IntToString(p.limit.value)); }
    assert queryParams.pairs == Entry(fs[0]) + Entry(fs[1]);
    if StrTruthy(p.search) { queryParams.Append("search", p.search.value); }
    assert queryParams.pairs == Entry(fs[0]) + Entry(fs[1]) + Entry(fs[2]);
    q := queryParams.pairs;
    Serialize3(fs);
    ProductsQueryFacts(p);
  }

  datatype CartsParams = CartsParams(page: Option<int>, limit: Option<int>)

  function CartsFields(p: CartsParams): seq<Field> {
    [TruthyNum("page", p.page), TruthyNum("limit", p.limit)]
  }

  lemma CartsQueryFacts(p: CartsParams)
    ensures SendsTruthyNum(Serialize(CartsFields(p)), "page", p.page)
    ensures SendsTruthyNum(Serialize(CartsFields(p)), "limit", p.limit)
    ensures IsSubseq(Keys(Serialize(CartsFields(p))), ["page", "limit"])
  {
    var fs := CartsFields(p);
    assert DistinctKeys(fs);
    GetSerialize(fs, 0);
    GetSerialize(fs, 1);
    SerializeKeepsOrder(fs);
    assert FieldKeys(fs) == ["page", "limit"];
  }

  /** The carts query: page, limit, each key at most once and in that order */
  method BuildCartsQuery(p: CartsParams) returns (q: Query)
    ensures q == Serialize(CartsFields(p))
    ensures SendsTruthyNum(q, "page", p.page)
    ensures SendsTruthyNum(q, "limit", p.limit)
    ensures IsSubseq(Keys(q), ["page", "limit"])
  {
    var fs := CartsFields(p);
    var queryParams := new SearchParams();
    if NumTruthy(p.page) { queryParams.Append("page", IntToString(p.page.value)); }
    assert queryParams.pairs == Entry(fs[0]);
    if NumTruthy(p.limit) { queryParams.Append("limit", IntToString(p.limit.value)); }
    assert queryParams.pairs == Entry(fs[0]) + Entry(fs[1]);
    q := queryParams.pairs;
    Serialize2(fs);
    CartsQueryFacts(p);
  }

  datatype AnalyticsParams = AnalyticsParams(startDate: Option<string>, endDate: Option<string>)

  function AnalyticsFields(p: AnalyticsParams): seq<Field> {
    [TruthyStr("startDate", p.startDate), TruthyStr("endDate", p.endDate)]
  }

  lemma AnalyticsQueryFacts(p: AnalyticsParams)
    ensures SendsTruthyStr(Serialize(AnalyticsFields(p)), "startDate", p.startDate)
    ensures SendsTruthyStr(Serialize(AnalyticsFields(p)), "endDate", p.endDate)
    ensures IsSubseq(Keys(Serialize(AnalyticsFields(p))), ["startDate", "endDate"])
  {
    var fs := AnalyticsFields(p);
    assert DistinctKeys(fs);
    GetSerialize(fs, 0);
    GetSerialize(fs, 1);
    SerializeKeepsOrder(fs);
    assert FieldKeys(fs) == ["startDate", "endDate"];
  }

  /** The analytics query: startDate, endDate, each key at most once and in that order */
  method BuildAnalyticsQuery(p: AnalyticsParams) returns (q: Query)
    ensures q == Serialize(AnalyticsFields(p))
    ensures SendsTruthyStr(q, "startDate", p.startDate)
    ensures SendsTruthyStr(q, "endDate", p.endDate)
    ensures IsSubseq(Keys(q), ["startDate", "endDate"])
  {
    var fs := AnalyticsFields(p);
    var queryParams := new SearchParams();
    if StrTruthy(p.startDate) { queryParams.Append("startDate", p.startDate.value); }
    assert queryParams.pairs == Entry(fs[0]);
    if StrTruthy(p.endDate) { queryParams.Append("endDate", p.endDate.value); }
    assert queryParams.pairs == Entry(fs[0]) + Entry(fs[1]);
    q := queryParams.pairs;
    Serialize2(fs);
    AnalyticsQueryFacts(p);
  }

  datatype PostsParams = PostsParams(page: Option<int>, limit: Option<int>, platform: Option<string>, isPublished: Option<bool>)

  function PostsFields(p: PostsParams): seq<Field> {
    [TruthyNum("page", p.page), TruthyNum("limit", p.limit), TruthyStr("platform", p.platform), DefinedBool("isPublished", p.isPublished)]
  }

  lemma PostsQueryFacts(p: PostsParams)
    ensures SendsTruthyNum(Serialize(PostsFields(p)), "page", p.page)
    ensures SendsTruthyNum(Serialize(PostsFields(p)), "limit", p.limit)
    ensures SendsTruthyStr(Serialize(PostsFields(p)), "platform", p.platform)
    ensures SendsDefinedBool(Serialize(PostsFields(p)), "isPublished", p.isPublished)
    ensures IsSubseq(Keys(Serialize(PostsFields(p))), ["page", "limit", "platform", "isPublished"])
  {
    var fs := PostsFields(p);
    assert DistinctKeys(fs);
    GetSerialize(fs, 0);
    GetSerialize(fs, 1);
    GetSerialize(fs, 2);
    GetSerialize(fs, 3);
    SerializeKeepsOrder(fs);
    assert FieldKeys(fs) == ["page", "limit", "platform", "isPublished"];
  }

  /** The posts query: page, limit, platform, isPublished, each key at most once and in that order */
  method BuildPostsQuery(p: PostsParams) returns (q: Query)
    ensures q == Serialize(PostsFields(p))
    ensures SendsTruthyNum(q, "page", p.page)
    ensures SendsTruthyNum(q, "limit", p.limit)
    ensures SendsTruthyStr(q, "platform", p.platform)
    ensures SendsDefinedBool(q, "isPublished", p.isPublished)
    ensures IsSubseq(Keys(q), ["page", "limit", "platform", "isPublished"])
  {
    var fs := PostsFields(p);
    var queryParams := new SearchParams();
    if NumTruthy(p.page) { queryParams.Append("page", IntToString(p.page.value)); }
    assert queryParams.pairs == Entry(fs[0]);
    if NumTruthy(p.limit) { queryParams.Append("limit", IntToString(p.limit.value)); }
    assert queryParams.pairs == Entry(fs[0]) + Entry(fs[1]);
    if StrTruthy(p.platform) { queryParams.Append("platform", p.platform.value); }
    assert queryParams.pairs == Entry(fs[0]) + Entry(fs[1]) + Entry(fs[2]);
    if p.isPublished.Some? { queryParams.Append("isPublished", BoolToString(p.isPublished.value)); }
    assert queryParams.pairs == Entry(fs[0]) + Entry(fs[1]) + Entry(fs[2]) + Entry(fs[3]);
    q := queryParams.pairs;
    Serialize4(fs);
    PostsQueryFacts(p);
  }

  datatype EventsParams = EventsParams(page: Option<int>, limit: Option<int>, eventType: Option<string>, isActive: Option<bool>)

  function EventsFields(p: EventsParams): seq<Field> {
    [TruthyNum("page", p.page), TruthyNum("limit", p.limit), TruthyStr("type", p.eventType), DefinedBool("isActive", p.isActive)]
  }

  lemma EventsQueryFacts(p: EventsParams)
    ensures SendsTruthyNum(Serialize(EventsFields(p)), "page", p.page)
    ensures SendsTruthyNum(Serialize(EventsFields(p)), "limit", p.limit)
    ensures SendsTruthyStr(Serialize(EventsFields(p)), "type", p.eventType)
    ensures SendsDefinedBool(Serialize(EventsFields(p)), "isActive", p.isActive)
    ensures IsSubseq(Keys(Serialize(EventsFields(p))), ["page", "limit", "type", "isActive"])
  {
    var fs := EventsFields(p);
    assert DistinctKeys(fs);
    GetSerialize(fs, 0);
    GetSerialize(fs, 1);
    GetSerialize(fs, 2);
    GetSerialize(fs, 3);
    SerializeKeepsOrder(fs);
    assert FieldKeys(fs) == ["page", "limit", "type", "isActive"];
  }

  /** The events query: page, limit, type, isActive, each key at most once and in that order */
  method BuildEventsQuery(p: EventsParams) returns (q: Query)
    ensures q == Serialize(EventsFields(p))
    ensures SendsTruthyNum(q, "page", p.page)
    ensures SendsTruthyNum(q, "limit", p.limit)
    ensures SendsTruthyStr(q, "type", p.eventType)
    ensures SendsDefinedBool(q, "isActive", p.isActive)
    ensures IsSubseq(Keys(q), ["page", "limit", "type", "isActive"])
  {
    var fs := EventsFields(p);
    var queryParams := new SearchParams();
    if NumTruthy(p.page) { queryParams.Append("page", IntToString(p.page.value)); }
    assert queryParams.pairs == Entry(fs[0]);
    if NumTruthy(p.limit) { queryParams.Append("limit", IntToString(p.limit.value)); }
    assert queryParams.pairs == Entry(fs[0]) + Entry(fs[1]);
    if StrTruthy(p.eventType) { queryParams.Append("type", p.eventType.value); }
    assert queryParams.pairs == Entry(fs[0]) + Entry(fs[1]) + Entry(fs[2]);
    if p.isActive.Some? { queryParams.Append("isActive", BoolToString(p.isActive.value)); }
    assert queryParams.pairs == Entry(fs[0]) + Entry(fs[1]) + Entry(fs[2]) + Entry(fs[3]);
    q := queryParams.pairs;
    Serialize4(fs);
    EventsQueryFacts(p);
  }

  datatype ActivitiesParams = ActivitiesParams(page: Option<int>, limit: Option<int>, activityType: Option<string>)

  function ActivitiesFields(p: ActivitiesParams): seq<Field> {
    [TruthyNum("page", p.page), TruthyNum("limit", p.limit), TruthyStr("type", p.activityType)]
  }

  lemma ActivitiesQueryFacts(p: ActivitiesParams)
    ensures SendsTruthyNum(Serialize(ActivitiesFields(p)), "page", p.page)
    ensures SendsTruthyNum(Serialize(ActivitiesFields(p)), "limit", p.limit)
    ensures SendsTruthyStr(Serialize(ActivitiesFields(p)), "type", p.activityType)
    ensures IsSubseq(Keys(Serialize(ActivitiesFields(p))), ["page", "limit", "type"])
  {
    var fs := ActivitiesFields(p);
    assert DistinctKeys(fs);
    GetSerialize(fs, 0);
    GetSerialize(fs, 1);
    GetSerialize(fs, 2);
    SerializeKeepsOrder(fs);
    assert FieldKeys(fs) == ["page", "limit", "type"];
  }

  /** The activities query: page, limit, type, each key at most once and in that order */
  method BuildActivitiesQuery(p: ActivitiesParams) returns (q: Query)
    ensures q == Serialize(ActivitiesFields(p))
    ensures SendsTruthyNum(q, "page", p.page)
    ensures SendsTruthyNum(q, "limit", p.limit)
    ensures SendsTruthyStr(q, "type", p.activityType)
    ensures IsSubseq(Keys(q), ["page", "limit", "type"])
  {
    var fs := ActivitiesFields(p);
    var queryParams := new SearchParams();
    if NumTruthy(p.page) { queryParams.Append("page", IntToString(p.page.value)); }
    assert queryParams.pairs == Entry(fs[0]);
    if NumTruthy(p.limit) { queryParams.Append("limit", IntToString(p.limit.value)); }
    assert queryParams.pairs == Entry(fs[0]) + Entry(fs[1]);
    if StrTruthy(p.activityType) { queryParams.Append("type", p.activityType.value); }
    assert queryParams.pairs == Entry(fs[0]) + Entry(fs[1]) + Entry(fs[2]);
    q := queryParams.pairs;
    Serialize3(fs);
    ActivitiesQueryFacts(p);
  }
}
