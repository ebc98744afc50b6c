# Exhiibot admin client — a verified model

This project models the client-side logic of the Exhiibot admin single-page
application. The server, the browser and React are not part of it. What is
modelled:

- **Service layer.** Bearer-token lookup in browser storage. The request
  headers. The two `handleResponse` variants that turn a response into a value
  or an error message. The query strings of every list endpoint, as ordered
  key/value lists where numbers and search strings are sent only when truthy
  and booleans whenever defined. The request paths. The environment check
  that the authentication service performs on import.
- **Data hooks.** One list-hook state machine (records, pagination, loading
  flag, error), shared by the posts, events, users, carts and activities
  hooks. A value-hook variant for analytics and the dashboard. Each hook
  resolves its request parameters with `||` or `??` as its source does. A
  fetch takes its outcome as an argument.
- **Sign-in.** The email validator, proved equal to the regular expression
  `^[^\s@]+@[^\s@]+\.[^\s@]+$` it uses. The email form. The four-box OTP form
  with its paste, submit and resend-countdown rules. The two-step login page.
  The session store over browser storage.
- **Shell.** Toast notifications, the sidebar's orders badge and menu, and
  the page title and subtitle lookup.
- **Pages.** Order status by age and the order timeline. The
  case-insensitive client-side searches. Selector-to-parameter mappings.
  Text truncation and icon lookups. Previous / Next paging. The delete
  flows. The users table's row conversion, status badge and row limit. The
  referral modal's fallback chains. The analytics page's chart series,
  totals, percentages, top-five list and screen choice.

Modelling choices:

- Time, browser storage, the environment, server responses and user
  confirmations are parameters.
- `JSON.parse` / `JSON.stringify` are a supplied pair of functions. Where a
  proof needs it, they are assumed to round-trip (`Json.Lawful`).
- Times are integer milliseconds.
- Imperative parts are classes whose methods change their fields: hooks,
  forms, the session and toast stores, the sidebar counter, the users
  table's state, and the orders and analytics views. Rules that only compute
  are functions with lemmas.

## Model

| member | source | states |
|---|---|---|
| Common.Lookup | src/utils/env.ts:5-6 | a dictionary read (an environment variable, a `localStorage` key) is defined exactly for the keys that are present, and gives their value |
| Env.Missing | src/utils/env.ts:23-24 | the missing list has at most the two required names |
| Env.MissingExactly | src/utils/env.ts:23-24 | the missing list is the base-URL variable (if unset or empty) followed by the target variable (if unset or empty), in that order |
| Env.MissingMembership | src/utils/env.ts:23-24 | a name is reported missing iff it is required and unset or empty |
| Env.ValidateEnv | src/utils/env.ts:22-36 | validation fails iff a required variable is unset or empty, the message names exactly the missing ones joined by ", ", and success returns true |
| Env.AppSetting | src/utils/env.ts:11-13 | an application setting is the variable when it is set and non-empty, otherwise its default |
| Env.AppSettingsNonEmpty | src/utils/env.ts:11-13 | the application name, version and environment are never empty |
| Env.BaseUrl | src/service/usersApi.ts:102 | the base URL is the configured variable when it is set |
| Json.GetAuthToken | src/service/usersApi.ts:62-73 | the token is empty when nothing is stored or the record does not parse, and non-empty exactly when the parsed record has a non-empty string token, which it then is |
| Json.StoredTokenReadBack | src/service/usersApi.ts:62-73 | storing a record whose token is a string makes every service read that token back |
| Json.RemovedTokenIsEmpty | src/service/usersApi.ts:62-73 | with the session key removed the token is empty |
| Http.MessageOf | src/service/api.ts:29 | an error body's message is used exactly when the body is an object whose `message` is truthy, and then it is that value converted to text as `new Error` converts it |
| Http.MessageTexts | src/service/api.ts:29 | a non-empty string message is thrown as it is, a non-zero number in decimal, a list of messages joined by ',', an empty list as the empty text, and an empty string falls back |
| Json.EmptyTextOfTruthy | src/service/api.ts:29 | among truthy values only an array converts to the empty text, and `[]` does |
| Http.AdminHandleResponse | src/service/api.ts:26-32 | an ok reply yields its body (or the parse error when it has none); a failed one throws its message, 'Unknown error' when the body does not parse, the TypeError of reading a property of `null` when the body is `null`, or the status text when the message is missing or falsy |
| Http.ServiceHandleResponse | src/service/usersApi.ts:75-83 | an ok reply yields its body; a failed one throws its message, the status text when the body does not parse, the TypeError of reading a property of `null` when the body is `null`, or 'Request failed' when the message is missing or falsy |
| Http.HandleResponseVariantsAgree | src/service/api.ts:26-32 | the two response handlers agree on ok replies, on `null` error bodies and on failures with a message, and differ on failures whose body does not parse or has no usable message |
| Http.ThrownMessageEmptyOnlyForEmptyArrays | src/service/api.ts:29 | either response handler throws an empty message exactly when the failed reply's message is an array that converts to the empty text |
| Http.SearchParams.constructor | src/service/api.ts:53 | a new query has no pairs |
| Http.SearchParams.Append | src/service/api.ts:54 | appending adds the pair at the end and changes nothing else |
| Http.Get | src/service/api.ts:53-58 | a query lookup is absent iff no pair has the key, and otherwise gives the value of a pair with that key |
| Http.Serialize | src/service/api.ts:53-58 | a query built from fields holds at most one pair per field |
| Http.SerializePrefix | src/service/api.ts:53-58 | building a query field by field appends at most one pair per field |
| Http.GetSerialize | src/service/api.ts:53-58 | with distinct keys, looking up a field's key in the built query gives exactly that field's value |
| Http.GetSerializeAbsent | src/service/api.ts:53-58 | a key no field uses is absent from the built query |
| Http.SerializeKeepsOrder | src/service/api.ts:53-58 | the keys of the built query keep the order of the fields |
| Http.BoolToString | src/service/api.ts:57 | a boolean renders as "true" exactly when it is true |
| Http.TruthyNum | src/service/api.ts:54-55 | a number parameter is sent exactly when it is truthy, as its decimal text |
| Http.TruthyStr | src/service/api.ts:56 | a string parameter is sent exactly when it is truthy, as itself |
| Http.DefinedBool | src/service/api.ts:57-58 | a boolean parameter is sent exactly when it is defined, even when false |
| Http.RenderQuery | src/service/api.ts:60 | the rendered query is empty exactly when there are no pairs |
| Http.EmptyQueryEndsWithMark | src/service/api.ts:60 | a request without parameters still ends in '?' |
| Http.BearerHeaders | src/service/usersApi.ts:106-109 | the services send exactly Accept and a 'Bearer ' Authorization, even for an empty token |
| Http.BearerJsonHeaders | src/service/usersApi.ts:134-138 | the update call also sends the JSON Content-Type |
| Http.ItemPath | src/service/api.ts:68 | an item path is the collection, a slash and the id |
| Http.ItemPathInjective | src/service/api.ts:68 | distinct ids give distinct item paths |
| AdminApi.AdminHeaders | src/service/api.ts:5-24 | the shared headers always carry JSON Content-Type and Accept, and carry 'Bearer ' + token exactly when the stored token is non-empty |
| AdminApi.GetHeaders | src/service/api.ts:5-24 | building the headers step by step gives the shared headers |
| AdminApi.NoSessionNoAuthorization | src/service/api.ts:11-12 | with no stored session there is no Authorization header at all |
| AdminApi.GetStats | src/service/api.ts:36-42 | the stats call is a GET to /admin/dashboard with the shared headers |
| AdminApi.GetUsers | src/service/api.ts:46-65 | the admin users call GETs /admin/users with page and limit when truthy and the flags when defined |
| AdminApi.UserPath | src/service/api.ts:68-93 | per-user calls go to /admin/users/{id}, the toggle to /admin/users/{id}/toggle-status |
| AdminApi.UserRequest | src/service/api.ts:67-98 | each per-user call uses its verb and path, the shared headers, and a body only for the update |
| AdminApi.GetProducts | src/service/api.ts:102-117 | the products call GETs /admin/products and sends the search exactly when truthy |
| AdminApi.ProductRequest | src/service/api.ts:119-148 | create POSTs to /admin/products, update PUTs and delete DELETEs /admin/products/{id}; only delete has no body |
| AdminApi.GetPlatformAnalytics | src/service/api.ts:152-165 | the admin analytics call GETs /admin/analytics with each date exactly when truthy |
| AdminApi.GetCarts | src/service/api.ts:169-182 | the admin carts call GETs /admin/carts with page and limit exactly when truthy |
| UsersApi.GetUsers | src/service/usersApi.ts:86-113 | the users call GETs the configured /admin/users with page, limit and search when truthy, the flags when defined, and the bearer headers |
| UsersApi.UserRequest | src/service/usersApi.ts:115-170 | each per-user call uses the shared verb and path on the configured base, always sends an Authorization header, and sends a body and Content-Type only for the update |
| UsersApi.UserClientsAgree | src/service/usersApi.ts:115-170 | the two user clients issue the same verb and path for every call, and differ in headers only when no token is stored |
| PostsApi.GetPosts | src/service/postsApi.ts:81-106 | the posts call GETs /admin/posts with page, limit and platform when truthy and isPublished when defined |
| PostsApi.DeletePost | src/service/postsApi.ts:108-120 | a post delete is a body-less DELETE of /admin/posts/{id} with the bearer headers |
| EventsApi.GetEvents | src/service/eventsApi.ts:64-89 | the events call GETs /admin/events, sending the event type under the key 'type' when truthy and isActive when defined |
| EventsApi.DeleteEvent | src/service/eventsApi.ts:91-103 | an event delete is a body-less DELETE of /admin/events/{id} |
| CartsApi.GetCarts | src/service/cartsApi.ts:63-82 | the carts call GETs /admin/carts with page and limit when truthy, and an empty query when neither is |
| ActivitiesApi.GetActivities | src/service/activitiesApi.ts:66-88 | the activities call GETs /admin/activities with page, limit and type each exactly when truthy |
| AnalyticsApi.GetPlatformAnalytics | src/service/analyticsApi.ts:65-85 | the analytics call GETs /admin/analytics with each date exactly when truthy |
| DashboardApi.GetDashboardStats | src/service/dashboardApi.ts:30-42 | the dashboard call is a GET with exactly Accept and Authorization, 'Bearer ' with nothing after it when no session is stored |
| AuthApi.AuthBody | src/service/authApi.ts:45-95 | each auth body is an object holding the email, plus the otp for verification only |
| AuthApi.AuthRequest | src/service/authApi.ts:45-95 | every auth call fails with the validation error when the environment is incomplete, and is otherwise a POST with JSON headers and its body |
| AuthApi.AuthCallsUnauthenticated | src/service/authApi.ts:45-95 | no auth call carries Authorization, and the four calls go to four different paths |
| ReferralsApi.AllApplicationsPath | src/service/referralsApi.ts:25-27 | the status filter is appended as ?status=… exactly when it is truthy |
| ReferralsApi.StatusQueryRoundTrip | src/service/referralsApi.ts:26-27 | the status can be read back from the path exactly when it was sent |
| ReferralsApi.ReferralRequest | src/service/referralsApi.ts:6-50 | each referral call uses its verb and path, the shared headers, and a JSON body for submit and review only |
| Queries.UsersQueryFacts | src/service/usersApi.ts:94-100 | page, limit and search are sent exactly when truthy, the flags exactly when defined, in that key order |
| Queries.BuildUsersQuery | src/service/usersApi.ts:94-100 | appending the users parameters one by one yields the users query and its facts |
| Queries.ProductsQueryFacts | src/service/api.ts:107-110 | page, limit and search are sent exactly when truthy, in that order |
| Queries.BuildProductsQuery | src/service/api.ts:107-110 | appending the products parameters yields the products query and its facts |
| Queries.CartsQueryFacts | src/service/cartsApi.ts:69-71 | page and limit are sent exactly when truthy, in that order |
| Queries.BuildCartsQuery | src/service/cartsApi.ts:69-71 | appending the carts parameters yields the carts query and its facts |
| Queries.AnalyticsQueryFacts | src/service/analyticsApi.ts:71-73 | each date is sent exactly when truthy, start before end |
| Queries.BuildAnalyticsQuery | src/service/analyticsApi.ts:71-73 | appending the dates yields the analytics query and its facts |
| Queries.PostsQueryFacts | src/service/postsApi.ts:88-93 | page, limit and platform are sent when truthy, isPublished when defined, in that order |
| Queries.BuildPostsQuery | src/service/postsApi.ts:88-93 | appending the posts parameters yields the posts query and its facts |
| Queries.EventsQueryFacts | src/service/eventsApi.ts:71-76 | page, limit and type are sent when truthy, isActive when defined, in that order |
| Queries.BuildEventsQuery | src/service/eventsApi.ts:71-76 | appending the events parameters yields the events query and its facts |
| Queries.ActivitiesQueryFacts | src/service/activitiesApi.ts:73-76 | page, limit and type are sent exactly when truthy, in that order |
| Queries.BuildActivitiesQuery | src/service/activitiesApi.ts:73-76 | appending the activities parameters yields the activities query and its facts |
| ListHooks.ListHook.constructor | src/hooks/usePosts.ts:13-21 | a list hook starts empty, with pagination {0, 1, 20, 0}, loading and without error |
| ListHooks.ListHook.Begin | src/hooks/usePosts.ts:25-26 | starting a fetch sets loading, clears the error and keeps the rows |
| ListHooks.ListHook.Settle | src/hooks/usePosts.ts:35-42 | a settled fetch stops loading; success replaces rows and pagination, failure keeps them and records the message or the fallback |
| ListHooks.ListHook.Fetch | src/hooks/usePosts.ts:23-43 | a whole fetch ends not loading; success replaces rows and pagination and leaves no error, failure keeps the stale rows and reports the message or the fallback |
| ListHooks.ListHook.FailDelete | src/hooks/usePosts.ts:66-68 | a failed delete only records its message or the delete fallback |
| ListHooks.DataOf | src/hooks/useAnalytics.ts:25 | the reply's data is present exactly when the reply is an object with a data field |
| ListHooks.ValueHook.constructor | src/hooks/useAnalytics.ts:11-13 | a value hook starts with no value, loading and without error |
| ListHooks.ValueHook.Begin | src/hooks/useAnalytics.ts:17-18 | starting a fetch sets loading, clears the error and keeps the value |
| ListHooks.ValueHook.Settle | src/hooks/useAnalytics.ts:25-31 | success stores the reply's data, failure keeps the old value and records the message or the fallback |
| ListHooks.ValueHook.Fetch | src/hooks/useAnalytics.ts:15-32 | a whole fetch ends not loading, success stores the data with no error, failure keeps the stale value |
| UsePosts.Resolve | src/hooks/usePosts.ts:28-33 | page and limit are the first truthy of the call's, the hook's and 1 / 20; platform falls back when not truthy; isPublished only when undefined |
| UsePosts.ChangePageKeepsOthers | src/hooks/usePosts.ts:53-55 | changing to a non-zero page requests that page and otherwise what a refetch requests; page 0 is a plain refetch |
| UsePosts.FilterRequestsFirstPage | src/hooks/usePosts.ts:57-59 | filtering always requests page 1 and the given filters, falling back to the hook's when cleared |
| UsePosts.FetchSendsPageAndLimit | src/hooks/usePosts.ts:28-30 | every hook fetch sends page and limit |
| UsePosts.PostsHook.constructor | src/hooks/usePosts.ts:12-21 | a posts hook starts with its parameters, empty and loading |
| UsePosts.PostsHook.FetchPosts | src/hooks/usePosts.ts:23-43 | a fetch sends the resolved parameters and then updates the list as a hook fetch does |
| UsePosts.PostsHook.Refetch | src/hooks/usePosts.ts:45-51 | a refetch sends only the hook's own parameters; loading ends and the list takes the outcome's records and pagination with no error, or keeps them and records the message or the fetch fallback |
| UsePosts.PostsHook.ChangePage | src/hooks/usePosts.ts:53-55 | a page change sends the hook's parameters with the new page; loading ends and the list takes the outcome's records and pagination with no error, or keeps them and records the message or the fetch fallback |
| UsePosts.PostsHook.FilterPosts | src/hooks/usePosts.ts:57-59 | a filter sends the hook's parameters, the filters and page 1; loading ends and the list takes the outcome's records and pagination with no error, or keeps them and records the message or the fetch fallback |
| UsePosts.PostsHook.DeletePost | src/hooks/usePosts.ts:61-70 | delete reports true exactly when the delete call succeeds; a failed delete records its message or the delete fallback and keeps the list; a successful one refetches, and the list takes the refresh's records and pagination with no error or keeps them and records its error |
| UseCarts.Resolve | src/hooks/useCarts.ts:26-29 | page and limit are the first truthy of the call's, the hook's and 1 / 20 |
| UseCarts.RefetchDefaults | src/hooks/useCarts.ts:26-29 | with no parameters anywhere a refetch asks for page 1 of 20 |
| UseCarts.ChangePageKeepsLimit | src/hooks/useCarts.ts:49-51 | a page change keeps the limit and requests a non-zero target page |
| UseCarts.CartsHook.constructor | src/hooks/useCarts.ts:10-19 | a carts hook starts empty and loading |
| UseCarts.CartsHook.FetchCarts | src/hooks/useCarts.ts:21-39 | a fetch sends the resolved parameters, success replaces rows and pagination, failure keeps them and reports 'Failed to fetch cart orders' when the message is empty |
| UseCarts.CartsHook.Refetch | src/hooks/useCarts.ts:45-47 | a refetch sends only the hook's parameters; loading ends and the list takes the outcome's records and pagination with no error, or keeps them and records the message or the fetch fallback |
| UseCarts.CartsHook.ChangePage | src/hooks/useCarts.ts:49-51 | a page change sends the hook's parameters with the new page; loading ends and the list takes the outcome's records and pagination with no error, or keeps them and records the message or the fetch fallback |
| UseUsers.Resolve | src/hooks/useUsers.ts:29-35 | page and limit fall back through the hook's to 1 / 20, search falls back when not truthy, the flags only when undefined |
| UseUsers.ChangePageKeepsOthers | src/hooks/useUsers.ts:55-57 | a non-zero page change requests that page and otherwise what a refetch requests |
| UseUsers.SearchAndFilterRequestFirstPage | src/hooks/useUsers.ts:59-65 | searching and filtering request page 1; a search sends its term (or the hook's when empty); a filter keeps the hook's search |
| UseUsers.UsersHook.constructor | src/hooks/useUsers.ts:13-22 | a users hook starts empty and loading |
| UseUsers.UsersHook.FetchUsers | src/hooks/useUsers.ts:24-45 | a fetch sends the resolved parameters and updates the list as a hook fetch does |
| UseUsers.UsersHook.Refetch | src/hooks/useUsers.ts:51-53 | a refetch sends only the hook's parameters; loading ends and the list takes the outcome's records and pagination with no error, or keeps them and records the message or the fetch fallback |
| UseUsers.UsersHook.ChangePage | src/hooks/useUsers.ts:55-57 | a page change sends the hook's parameters with the new page; loading ends and the list takes the outcome's records and pagination with no error, or keeps them and records the message or the fetch fallback |
| UseUsers.UsersHook.SearchUsers | src/hooks/useUsers.ts:59-61 | a search sends the term and page 1; loading ends and the list takes the outcome's records and pagination with no error, or keeps them and records the message or the fetch fallback |
| UseUsers.UsersHook.FilterUsers | src/hooks/useUsers.ts:63-65 | a filter sends the flags and page 1; loading ends and the list takes the outcome's records and pagination with no error, or keeps them and records the message or the fetch fallback |
| UseEvents.Resolve | src/hooks/useEvents.ts:28-33 | page and limit fall back through the hook's to 1 / 20, the type falls back when not truthy, isActive only when undefined |
| UseEvents.ChangePageKeepsOthers | src/hooks/useEvents.ts:53-55 | a non-zero page change requests that page and otherwise what a refetch requests |
| UseEvents.FilterRequestsFirstPage | src/hooks/useEvents.ts:57-59 | filtering requests page 1 with the given type and isActive, falling back to the hook's |
| UseEvents.FetchSendsPageAndLimit | src/hooks/useEvents.ts:28-30 | every hook fetch sends page and limit |
| UseEvents.EventsHook.constructor | src/hooks/useEvents.ts:12-21 | an events hook starts empty and loading |
| UseEvents.EventsHook.FetchEvents | src/hooks/useEvents.ts:23-43 | a fetch sends the resolved parameters and updates the list as a hook fetch does |
| UseEvents.EventsHook.Refetch | src/hooks/useEvents.ts:49-51 | a refetch sends only the hook's parameters; loading ends and the list takes the outcome's records and pagination with no error, or keeps them and records the message or the fetch fallback |
| UseEvents.EventsHook.ChangePage | src/hooks/useEvents.ts:53-55 | a page change sends the hook's parameters with the new page; loading ends and the list takes the outcome's records and pagination with no error, or keeps them and records the message or the fetch fallback |
| UseEvents.EventsHook.FilterEvents | src/hooks/useEvents.ts:57-59 | a filter sends the filters and page 1; loading ends and the list takes the outcome's records and pagination with no error, or keeps them and records the message or the fetch fallback |
| UseEvents.EventsHook.DeleteEvent | src/hooks/useEvents.ts:61-70 | delete reports true exactly when the delete call succeeds; a failed delete records its message or the delete fallback and keeps the list; a successful one refetches, and the list takes the refresh's records and pagination with no error or keeps them and records its error |
| UseActivities.Resolve | src/hooks/useActivities.ts:26-30 | page and limit fall back through the hook's to 1 / 20, the type falls back when not truthy |
| UseActivities.FilterRequestsFirstPage | src/hooks/useActivities.ts:54-56 | filtering requests page 1, the hook's limit and the given type or the hook's |
| UseActivities.ChangePageKeepsOthers | src/hooks/useActivities.ts:50-52 | a non-zero page change requests that page and otherwise what a refetch requests |
| UseActivities.ActivitiesHook.constructor | src/hooks/useActivities.ts:10-19 | an activities hook starts empty and loading |
| UseActivities.ActivitiesHook.FetchActivities | src/hooks/useActivities.ts:21-40 | a fetch sends the resolved parameters and updates the list as a hook fetch does |
| UseActivities.ActivitiesHook.Refetch | src/hooks/useActivities.ts:46-48 | a refetch sends only the hook's parameters; loading ends and the list takes the outcome's records and pagination with no error, or keeps them and records the message or the fetch fallback |
| UseActivities.ActivitiesHook.ChangePage | src/hooks/useActivities.ts:50-52 | a page change sends the hook's parameters with the new page; loading ends and the list takes the outcome's records and pagination with no error, or keeps them and records the message or the fetch fallback |
| UseActivities.ActivitiesHook.FilterActivities | src/hooks/useActivities.ts:54-56 | a filter sends the type and page 1; loading ends and the list takes the outcome's records and pagination with no error, or keeps them and records the message or the fetch fallback |
| UseAnalytics.Resolve | src/hooks/useAnalytics.ts:20-23 | each date is the call's when truthy, otherwise the hook's |
| UseAnalytics.DateRangeNotRemembered | src/hooks/useAnalytics.ts:38-44 | a date-range fetch sends both given dates, while a later refetch sends only the hook's own dates again |
| UseAnalytics.AnalyticsHook.constructor | src/hooks/useAnalytics.ts:10-13 | the analytics hook starts with no analytics, loading |
| UseAnalytics.AnalyticsHook.FetchAnalytics | src/hooks/useAnalytics.ts:15-32 | a fetch sends the resolved dates; success stores the data, failure keeps the stale analytics and reports the message or 'Failed to fetch analytics' |
| UseAnalytics.AnalyticsHook.Refetch | src/hooks/useAnalytics.ts:38-40 | a refetch sends the hook's own dates; loading ends and the state takes the outcome's data with no error, or keeps its data and records the message or the fetch fallback |
| UseAnalytics.AnalyticsHook.FetchWithDateRange | src/hooks/useAnalytics.ts:42-44 | a date-range fetch sends the given dates; loading ends and the state takes the outcome's data with no error, or keeps its data and records the message or the fetch fallback |
| UseDashboard.DashboardHook.constructor | src/hooks/useDashboard.ts:7-9 | the dashboard hook starts with no data, loading |
| UseDashboard.DashboardHook.FetchDashboardData | src/hooks/useDashboard.ts:11-31 | a fetch (mount or refetch) stores the data on success and keeps the stale data on failure, with the message or 'Failed to fetch dashboard data' |
| AuthContext.UserWithToken | src/context/AuthContext.tsx:35-38 | the stored record holds every field of the reply's user, with the token field set to the reply's token, and nothing else |
| AuthContext.AuthSession.constructor | src/context/AuthContext.tsx:9-10 | a session starts with no user and loading |
| AuthContext.AuthSession.Restore | src/context/AuthContext.tsx:12-24 | restoring adopts a stored record that parses, removes one that does not, leaves everything when nothing is stored, and always ends loading |
| AuthContext.AuthSession.Login | src/context/AuthContext.tsx:26-28 | a login request fails exactly when the call fails, with its message, and changes nothing |
| AuthContext.AuthSession.ResendOtp | src/context/AuthContext.tsx:43-45 | a resend fails exactly when the call fails, with its message, and changes nothing |
| AuthContext.AuthSession.VerifyOtp | src/context/AuthContext.tsx:30-41 | a verified code makes the reply's user (without the token) the session user and stores the user with the token; a failure changes nothing |
| AuthContext.AuthSession.Logout | src/context/AuthContext.tsx:47-50 | logout clears the user, so the session is not authenticated, and removes only the session key |
| AuthContext.UseAuth | src/context/AuthContext.tsx:69-75 | the hook fails outside the provider with 'useAuth must be used within an AuthProvider' and otherwise returns the session |
| AuthContext.VerifiedSessionReadBack | src/context/AuthContext.tsx:35-40 | after verification every service reads back the reply's token, and the stored record parses back to the user with the token |
| AuthContext.VerifyThenLogout | src/context/AuthContext.tsx:47-56 | a verified user is authenticated, and after logout no token is sent |
| AuthContext.StoredNullIsSignedOut | src/context/AuthContext.tsx:14-23 | a stored 'null' restores to a signed-out session |
| ToastContext.WithoutSpec | src/context/ToastContext.tsx:27-29 | removing keeps, in order, exactly the toasts with another id, and removing an unknown id changes nothing |
| ToastContext.AddThenRemove | src/context/ToastContext.tsx:22-29 | adding a toast with a fresh id and then removing it restores the list |
| ToastContext.AppendWithout | src/context/ToastContext.tsx:24-28 | removing after an append is removing first and then appending the new toast when its id differs |
| ToastContext.ToastStore.constructor | src/context/ToastContext.tsx:20 | the provider starts with no toasts |
| ToastContext.ToastStore.AddToast | src/context/ToastContext.tsx:22-25 | a new toast is appended at the end |
| ToastContext.ToastStore.Remove | src/context/ToastContext.tsx:27-29 | removal keeps exactly the toasts with another id |
| ToastContext.ToastStore.Success | src/context/ToastContext.tsx:31 | success appends a success toast |
| ToastContext.ToastStore.Error | src/context/ToastContext.tsx:32 | error appends an error toast |
| ToastContext.ToastStore.Info | src/context/ToastContext.tsx:33 | info appends an info toast |
| ToastContext.UseToast | src/context/ToastContext.tsx:51-57 | the hook fails outside the provider with 'useToast must be used within a ToastProvider' and otherwise returns the store |
| MainApp.PageTitle | src/MainApp.tsx:19-28 | a known page gets its title and every other page 'Exhiibot Admin'; the title is never empty |
| MainApp.PageSubtitle | src/MainApp.tsx:30-39 | a known page gets its subtitle, the home page greets the user's name or 'Admin', and every other page gets 'Platform Management' |
| MainApp.RenderPage | src/MainApp.tsx:41-60 | the dashboard is shown exactly for 'home' and for unknown pages; each other known page shows its own view |
| MainApp.PostsAndEventsUseDefaults | src/MainApp.tsx:19-60 | posts and events render their pages but keep the default title and subtitle |
| MainApp.TitledPagesAreSubtitled | src/MainApp.tsx:20-37 | the titled pages are exactly the subtitled ones |
| MainApp.Shell.constructor | src/MainApp.tsx:15-16 | the shell starts on 'home', which renders the dashboard, with the sidebar closed |
| MainApp.Shell.SetCurrentPage | src/MainApp.tsx:15 | changing page leaves the sidebar as it was |
| MainApp.Shell.SetSidebarOpen | src/MainApp.tsx:16 | opening or closing the sidebar leaves the page as it was |
| LoginPage.LoginFlow.constructor | src/pages/LoginPage.tsx:7-8 | the login page starts on the email step with no email |
| LoginPage.LoginFlow.Shown | src/pages/LoginPage.tsx:27-36 | the email form shows exactly on the email step, otherwise the code form for the remembered email |
| LoginPage.LoginFlow.EmailSucceeded | src/pages/LoginPage.tsx:10-13 | a sent code moves to the code step for that email |
| LoginPage.LoginFlow.BackToEmail | src/pages/LoginPage.tsx:20-23 | going back returns to the email step and forgets the email |
| Sidebar.MenuItems | src/components/layout/Sidebar.tsx:31-44 | the menu has seven entries, whose ids are home, users, orders, posts, events, referrals and analytics in that order |
| Sidebar.MenuIdsDistinct | src/components/layout/Sidebar.tsx:31-44 | the menu ids are distinct and each entry renders a different page |
| Sidebar.OrdersBadge | src/components/layout/Sidebar.tsx:38 | the orders entry has a badge exactly when the count is positive, showing that count |
| Sidebar.BadgeText | src/components/layout/Sidebar.tsx:92 | counts above 99 show '99+', others their decimal digits, which read back as the count |
| Sidebar.BadgeTextShort | src/components/layout/Sidebar.tsx:90-92 | a shown badge has one to three characters |
| Sidebar.CountRequestQuery | src/components/layout/Sidebar.tsx:17 | the count request asks only for limit=1 |
| Sidebar.OrdersCounter.constructor | src/components/layout/Sidebar.tsx:11 | the count starts at 0, so no badge is shown |
| Sidebar.OrdersCounter.Refresh | src/components/layout/Sidebar.tsx:15-22 | a refresh sends the count request and adopts the reply's total, keeping the old count on failure |
| Sidebar.Select | src/components/layout/Sidebar.tsx:74-77 | choosing an entry switches to its page and closes the sidebar |
| Sidebar.Close | src/components/layout/Sidebar.tsx:48-52 | the overlay closes the sidebar and keeps the page |
| EmailLogin.PatternImpliesValid | src/components/auth/EmailLogin.tsx:33-36 | local@host.tld with non-empty parts free of spaces and '@' is accepted |
| EmailLogin.SplitIsPattern | src/components/auth/EmailLogin.tsx:34 | an '@' split whose domain contains an inner '.' matches the pattern |
| EmailLogin.ValidImpliesPattern | src/components/auth/EmailLogin.tsx:34 | every accepted address is local@host.tld with non-empty parts free of spaces and '@' |
| EmailLogin.ValidIffPattern | src/components/auth/EmailLogin.tsx:33-36 | the check accepts exactly the addresses matching /^[^\s@]+@[^\s@]+\.[^\s@]+$/ |
| EmailLogin.ValidEmailShape | src/components/auth/EmailLogin.tsx:34 | an accepted address has no whitespace and exactly one '@' |
| EmailLogin.NoDotInvalid | src/components/auth/EmailLogin.tsx:34 | an address without a dot is refused |
| EmailLogin.AcceptedExample | src/components/auth/EmailLogin.tsx:34 | 'admin@exhiibot.com' is accepted |
| EmailLogin.RefusedExample | src/components/auth/EmailLogin.tsx:34 | 'admin@exhiibot' is refused |
| EmailLogin.EmailForm.constructor | src/components/auth/EmailLogin.tsx:12-14 | the form starts empty, idle and without error |
| EmailLogin.EmailForm.SetEmail | src/components/auth/EmailLogin.tsx:12 | typing changes only the email |
| EmailLogin.EmailForm.BeginSubmit | src/components/auth/EmailLogin.tsx:17-23 | submitting clears the error, starts loading and sends the typed email |
| EmailLogin.EmailForm.EndSubmit | src/components/auth/EmailLogin.tsx:22-29 | the email is handed on exactly when the code was sent; a failure shows its message or 'Failed to send OTP. Please try again.'; loading ends |
| OtpVerification.FilledCount | src/components/auth/OTPVerification.tsx:73 | at most one filled box per box |
| OtpVerification.JoinedLength | src/components/auth/OTPVerification.tsx:73 | the joined code is as long as the number of filled boxes |
| OtpVerification.FilledCountFull | src/components/auth/OTPVerification.tsx:73-75 | every box is filled exactly when the filled count is the box count |
| OtpVerification.CompleteIffAllFilled | src/components/auth/OTPVerification.tsx:73-78 | the code is complete exactly when all four boxes are filled |
| OtpVerification.JoinedDigits | src/components/auth/OTPVerification.tsx:43-73 | the joined code consists of digits only |
| OtpVerification.PastedDigits | src/components/auth/OTPVerification.tsx:62-63 | pasting keeps the first four digits of the text, one per box, dropping everything else |
| OtpVerification.ResendLabel | src/components/auth/OTPVerification.tsx:205 | the button reads 'Resend OTP' exactly when no countdown runs, otherwise 'Resend in Ns' |
| OtpVerification.CountdownClosedForm | src/components/auth/OTPVerification.tsx:23-28 | after k ticks the countdown has gone down by k, stopping at 0 |
| OtpVerification.ResendLockedSixtySeconds | src/components/auth/OTPVerification.tsx:98-112 | after a resend the button stays locked for exactly 60 ticks |
| OtpVerification.OtpForm.constructor | src/components/auth/OTPVerification.tsx:13-18 | the form starts with four empty boxes, idle, no messages and no countdown |
| OtpVerification.OtpForm.Change | src/components/auth/OTPVerification.tsx:42-52 | only an empty value or one digit is written into its box; focus moves right after a digit in any but the last box |
| OtpVerification.OtpForm.KeyDown | src/components/auth/OTPVerification.tsx:54-58 | Backspace in an empty box other than the first moves focus left, and nothing else changes |
| OtpVerification.OtpForm.Paste | src/components/auth/OTPVerification.tsx:60-69 | a paste with at least four digits fills the boxes with the first four and focuses the last; otherwise nothing changes |
| OtpVerification.OtpForm.BeginSubmit | src/components/auth/OTPVerification.tsx:71-81 | an incomplete code shows 'Please enter the complete 4-digit OTP' and sends nothing; a complete one clears the error, starts loading and sends the four digits |
| OtpVerification.OtpForm.EndSubmit | src/components/auth/OTPVerification.tsx:83-96 | success shows the redirect notice and leads on; failure shows the message or 'Invalid OTP. Please try again.' and clears the boxes; loading ends |
| OtpVerification.OtpForm.BeginResend | src/components/auth/OTPVerification.tsx:98-100 | a resend starts and clears the error |
| OtpVerification.OtpForm.EndResend | src/components/auth/OTPVerification.tsx:102-111 | a sent code starts the 60 second lock with the notice; failure shows the message or 'Failed to resend OTP. Please try again.' |
| OtpVerification.OtpForm.Tick | src/components/auth/OTPVerification.tsx:23-28 | each second takes one off a running countdown and changes nothing else |
| Common.MessageOr | src/hooks/usePosts.ts:38 | `err.message \|\| fallback` keeps a non-empty message and gives the fallback for an empty one |
| Common.ResolveNum | src/service/api.ts:54-55 | `a \|\| b \|\| d` with a non-zero default is never 0: the first truthy of the three wins |
| Common.OrStrDropsEmpty | src/components/users/UsersTable.tsx:11 | `a \|\| b` on strings is truthy iff either side is; a truthy left side wins and an empty string falls through to the right |
| Common.LowerIdempotent | src/pages/OrdersPage.tsx:20 | lower-casing twice is lower-casing once |
| Common.IncludesIff | src/pages/OrdersPage.tsx:22-27 | the left-to-right `includes` scan succeeds iff the needle occurs at some position of the string |
| Common.SliceTo | src/pages/AnalyticsPage.tsx:346 | `slice(0, n)` is a prefix of at most the input's length, exactly `min(n, length)` long for non-negative `n` |
| Common.Utf16Length | src/pages/EventsPage.tsx:71 | `text.length` counts between one and two UTF-16 units per character |
| Common.Utf16Units | src/pages/EventsPage.tsx:71 | a character takes two UTF-16 units iff it lies above U+FFFF, one otherwise |
| Common.Utf16LengthAppend | src/pages/EventsPage.tsx:72 | the UTF-16 length of two joined strings is the sum of their lengths |
| Common.SubstringTo | src/pages/PostsPage.tsx:36 | `substring(0, n)` is a prefix of at most `n` UTF-16 units, empty for `n <= 0`, the whole string when it fits, and otherwise stops only where the next character would not fit |
| Common.Truncate | src/pages/EventsPage.tsx:69-73 | empty text gives the placeholder, text of at most `maxLength` UTF-16 units is kept, longer text is its cut to `maxLength` units followed by '...' |
| Common.TruncateKeepsPrefix | src/pages/PostsPage.tsx:78-82 | a cut text is a proper prefix of the original followed by '...'; the prefix fills exactly `maxLength` UTF-16 units, or one less when the next character is a surrogate pair, and the whole is three units longer than the prefix |
| Common.SurrogatePairsCut | src/pages/PostsPage.tsx:81 | text made only of characters above U+FFFF is twice as long in UTF-16 units, and `substring(0, n)` keeps `n / 2` of its characters |
| Common.CameraCaptionCut | src/pages/PostsPage.tsx:78-82 | sixty camera emoji (120 UTF-16 units) are cut to fifty emoji followed by '...' |
| Common.Filter | src/pages/OrdersPage.tsx:17 | `filter` keeps no more rows than it is given, each of them a kept input row |
| Common.FilterKeepsOrder | src/pages/OrdersPage.tsx:17 | the filtered rows are a subsequence of the input, in the input's order |
| Common.FilterMembership | src/pages/OrdersPage.tsx:17 | a row is in the result iff it is in the input and passes the test |
| Common.NatToStringRoundTrip | src/service/api.ts:54 | reading back the decimal digits `toString` writes gives the number again |
| Common.NatToStringInjective | src/service/api.ts:54 | two different page numbers are never written as the same query value |
| Search.SearchSpec | src/pages/EventsPage.tsx:23-34 | an empty query keeps every row; otherwise a row is kept iff one of its defined fields, lower-cased, contains the lower-cased query; the kept rows keep their order |
| Search.SearchIgnoresCase | src/pages/EventsPage.tsx:26 | searching for the lower-cased query gives the same rows as the query itself |
| Paging.PreviousTarget | src/pages/EventsPage.tsx:290 | Previous asks for a page before the current one |
| Paging.NextTarget | src/pages/EventsPage.tsx:297 | Next asks for a page after the current one |
| Paging.EnabledTargetsInRange | src/pages/EventsPage.tsx:283-299 | on a consistent pagination an enabled Previous asks for `page - 1 >= 1` and an enabled Next for `page + 1 <= pages` |
| OrdersPage.ElapsedDays | src/pages/OrdersPage.tsx:53 | the whole days elapsed are the floor of the span in days, also for a span that is negative |
| OrdersPage.StatusAt | src/pages/OrdersPage.tsx:53-57 | processing iff less than one day has passed, shipped iff one to three days, delivered iff three days or more |
| OrdersPage.GetOrderStatus | src/pages/OrdersPage.tsx:49-57 | the list's status and colour are the name and colour of the age rule's status |
| OrdersPage.StatusCopiesAgree | src/pages/OrdersPage.tsx:312-320 | the modal's copy of the rule agrees with the list's on status and colour, and its icon is the list's icon for that status |
| OrdersPage.StatusBoundaries | src/pages/OrdersPage.tsx:55-56 | the status changes exactly at one day and at three days, and an order stamped in the future is processing |
| OrdersPage.StatusMonotone | src/pages/OrdersPage.tsx:53-57 | as time passes an order's status never moves back |
| OrdersPage.StatusIconAsWritten | src/pages/OrdersPage.tsx:60-66 | any status other than the three known ones gets the fallback icon, as the file spells it |
| OrdersPage.StatusIcon | src/pages/OrdersPage.tsx:60-66 | each icon is a single emoji character; unknown statuses get the package |
| OrdersPage.IconsMisEncoded | src/pages/OrdersPage.tsx:60-66 | every icon as written is at least three characters, each below the emoji range, and differs from the intended emoji |
| OrdersPage.StatusIconsDistinct | src/pages/OrdersPage.tsx:60-66 | the corrected icons of the statuses are pairwise distinct and distinct from the fallback |
| OrdersPage.Timeline | src/pages/OrdersPage.tsx:418-457 | the timeline always starts with "Order Placed" at creation; "Processing Started" unless processing; "Shipped" one day later when shipped or delivered; "Delivered" three days later only when delivered |
| OrdersPage.TimelineLengths | src/pages/OrdersPage.tsx:418-457 | a delivered order shows four steps, a shipped one three and a processing one one |
| OrdersPage.CartSearchSpec | src/pages/OrdersPage.tsx:17-29 | the search keeps, in order, exactly the carts whose name, last name, address, country, product or user id contains the query |
| OrdersPage.OrdersView.constructor | src/pages/OrdersPage.tsx:10-15 | the page starts on page 1, the carts hook is rendered with page 1 and limit 20, and it starts empty and loading |
| OrdersPage.OrdersView.Refresh | src/pages/OrdersPage.tsx:116 | Refresh re-requests the hook's current parameters, which are the page shown and limit 20, and the list takes the outcome's records and pagination or keeps them and records the error |
| OrdersPage.RefreshFollowsPage | src/pages/OrdersPage.tsx:12-15 | the request Refresh sends after paging carries the page shown and limit 20 |
| UseCarts.CartsHook.Rerender | src/pages/OrdersPage.tsx:12-15 | a render with new arguments makes them the hook's parameters |
| OrdersPage.OrdersView.GoPrevious | src/pages/OrdersPage.tsx:250-255 | Previous records the page before the current one, sends it to the hook with the other parameters kept, re-renders the hook with that page, and the list takes the outcome or records the error |
| OrdersPage.OrdersView.GoNext | src/pages/OrdersPage.tsx:261-266 | Next records the page after the current one, sends it to the hook with the other parameters kept, re-renders the hook with that page, and the list takes the outcome or records the error |
| EventsPage.PageParams | src/pages/EventsPage.tsx:13-18 | page and limit 20; no type for 'all', otherwise the chosen type; no status for 'all', otherwise whether 'active' was picked |
| EventsPage.MountQuery | src/pages/EventsPage.tsx:13-18 | the first request carries a `type` iff a type is picked, and `isActive` is absent, "true" or "false" for all, active and inactive |
| EventsPage.IsEventActive | src/pages/EventsPage.tsx:63-67 | an event is active iff it is flagged active and ends strictly after now |
| EventsPage.TruncateTextSpec | src/pages/EventsPage.tsx:69-73 | a missing description reads "No description", one of at most `maxLength` UTF-16 units is kept, a longer one is a prefix of it followed by '...' and two or three units over the limit |
| EventsPage.EventTypeIcon | src/pages/EventsPage.tsx:47-53 | any type other than event and announcement gets the calendar |
| EventsPage.EventSearchSpec | src/pages/EventsPage.tsx:23-34 | the search keeps, in order, exactly the events whose title, description, user name, email or type contains the query; an absent title or description matches nothing |
| EventsPage.GoPrevious | src/pages/EventsPage.tsx:290 | Previous sends the hook the page before the current one; loading ends and the list takes the outcome's records and pagination with no error, or keeps them and records the message or the fetch fallback |
| EventsPage.GoNext | src/pages/EventsPage.tsx:297 | Next sends the hook the page after the current one; loading ends and the list takes the outcome's records and pagination with no error, or keeps them and records the message or the fetch fallback |
| EventsPage.DeletePrompt | src/pages/EventsPage.tsx:36 | the prompt is the question followed by the whole title between double quotes |
| EventsPage.DeletePromptInjective | src/pages/EventsPage.tsx:36 | two different titles never give the same prompt |
| EventsPage.HandleDelete | src/pages/EventsPage.tsx:36-45 | nothing changes unless the prompt is confirmed; the alert is raised iff a confirmed delete fails, which records the message or the delete fallback and keeps the list; a delete that succeeds refetches, and the list takes the refresh's records and pagination or keeps them and records its error |
| PostsPage.PageParams | src/pages/PostsPage.tsx:13-18 | page and limit 20; no platform for 'all', otherwise the chosen one; no status for 'all', otherwise whether 'published' was picked |
| PostsPage.MountQuery | src/pages/PostsPage.tsx:13-18 | the first request carries a `platform` iff one is picked, and `isPublished` is absent, "true" or "false" for all, published and unpublished |
| PostsPage.TruncateTextSpec | src/pages/PostsPage.tsx:78-82 | missing content reads "No content", content of at most `maxLength` UTF-16 units is kept, longer content is a prefix of it followed by '...' and two or three units over the limit |
| PostsPage.LookupIcon | src/pages/PostsPage.tsx:46-66 | a key with a non-empty icon gets it; a key not in the table gets the page fallback |
| PostsPage.IconTables | src/pages/PostsPage.tsx:46-66 | every platform the selector offers has its own icon; unknown platforms and media types get the fallback |
| PostsPage.PostSearchSpec | src/pages/PostsPage.tsx:23-33 | the search keeps, in order, exactly the posts whose content, user name, email or platform contains the query; absent content matches nothing |
| PostsPage.GoPrevious | src/pages/PostsPage.tsx:305 | Previous sends the hook the page before the current one; loading ends and the list takes the outcome's records and pagination with no error, or keeps them and records the message or the fetch fallback |
| PostsPage.GoNext | src/pages/PostsPage.tsx:312 | Next sends the hook the page after the current one; loading ends and the list takes the outcome's records and pagination with no error, or keeps them and records the message or the fetch fallback |
| PostsPage.DeletePrompt | src/pages/PostsPage.tsx:36 | the prompt quotes a prefix of the content of at most 100 UTF-16 units (all of it when it fits, at least 99 units when cut) and always ends with '...' |
| PostsPage.HandleDelete | src/pages/PostsPage.tsx:35-44 | nothing changes unless the prompt is confirmed; the alert is raised iff a confirmed delete fails, which records the message or the delete fallback and keeps the list; a delete that succeeds refetches, and the list takes the refresh's records and pagination or keeps them and records its error |
| UsersTable.ConvertApiUser | src/components/users/UsersTable.tsx:9-31 | the row keeps id, email and user name; the name falls back to the user name when empty; the bracelet and status follow `isActive`; the fields the API lacks are blank or 0 |
| UsersTable.ConvertUsers | src/components/users/UsersTable.tsx:73 | every user is converted, one row each, in order |
| UsersTable.GetStatusBadge | src/components/users/UsersTable.tsx:133-151 | incomplete iff the profile is not completed; active iff completed and with a bracelet |
| UsersTable.BadgeOfApiUser | src/components/users/UsersTable.tsx:133-151 | a converted user's badge is incomplete, active or inactive from `isCompleted` and `isActive` |
| UsersTable.FetchParams | src/components/users/UsersTable.tsx:51-69 | no page; the limit or 50; a search only for a non-empty query; the filter sets at most one flag, as the four filter names say |
| UsersTable.FetchQuery | src/components/users/UsersTable.tsx:51-71 | with the 'all' filter the query has a limit, no page, no flags, and a search iff the query is non-empty |
| UsersTable.UsersTableState.constructor | src/components/users/UsersTable.tsx:40-42 | the table starts empty, loading and without an error |
| UsersTable.UsersTableState.FetchUsers | src/components/users/UsersTable.tsx:46-88 | a successful reply replaces the rows and reports their number; an unsuccessful one leaves them; a thrown error empties them and stores its message; loading ends in every case |
| UsersTable.DisplayedUsers | src/components/users/UsersTable.tsx:208 | the shown rows are a prefix of the rows: all of them without a limit, exactly `min(limit, length)` of them for a positive limit |
| UsersTable.LimitedTable | src/components/users/UsersTable.tsx:208-229 | a limited table shows at most `limit` rows and no action buttons |
| ReferralsPage.ReferrerSearchSpec | src/pages/ReferralsPage.tsx:11-15 | an empty query keeps every referrer; otherwise a referrer is kept iff its name or code contains the query, case-insensitively, in order |
| ReferralsPage.RankColor | src/pages/ReferralsPage.tsx:17-24 | gold, silver and bronze colours for ranks 1 to 3; black iff the rank is any other |
| ReferralsPage.AvgPerMonth | src/pages/ReferralsPage.tsx:150 | the monthly average is the floor of the referrals over six months |
| ReferralDetailsModal.Member | src/components/common/ReferralDetailsModal.tsx:23 | `v?.key` is the field when `v` is an object that has it, otherwise undefined |
| ReferralDetailsModal.FirstTruthy | src/components/common/ReferralDetailsModal.tsx:25-29 | the `\|\|` chain gives nothing iff every candidate is falsy, and otherwise the first truthy candidate |
| ReferralDetailsModal.NestedCodeWins | src/components/common/ReferralDetailsModal.tsx:25-29 | a non-empty code nested under `referralCodeData` is the code selected, and the panel shows exactly that code |
| ReferralDetailsModal.FlatCodeOrder | src/components/common/ReferralDetailsModal.tsx:25-29 | without nested data a non-empty `approvedCode` is used before the other flat fields, and the panel shows it |
| ReferralDetailsModal.ZeroDiscountIsMissing | src/components/common/ReferralDetailsModal.tsx:31-35 | a discount that is 0 or absent in every field counts as missing |
| ReferralDetailsModal.StatusColor | src/components/common/ReferralDetailsModal.tsx:37-43 | green for approved, red for rejected, yellow iff any other status |
| ReferralDetailsModal.Panel | src/components/common/ReferralDetailsModal.tsx:99-112 | no code shows 'N/A' and a selected code is shown as React renders it; the discount shows 'N/A' iff missing, otherwise its text followed by '%' |
| ReferralDetailsModal.Render | src/components/common/ReferralDetailsModal.tsx:16 | nothing is rendered iff the modal is closed or has no application; the code panel appears iff approved; the notes appear iff non-empty |
| AnalyticsPage.FormatUserGrowth | src/pages/AnalyticsPage.tsx:15-22 | no growth data gives no points; otherwise one point per item named "month/year" with the item's count |
| AnalyticsPage.IntToStringShape | src/pages/AnalyticsPage.tsx:19 | a written integer is digits and minus signs, starting with a digit iff non-negative |
| AnalyticsPage.IntToStringInjective | src/pages/AnalyticsPage.tsx:19 | different integers are written differently |
| AnalyticsPage.SlashPosition | src/pages/AnalyticsPage.tsx:19 | the first '/' of a growth label sits right after the month |
| AnalyticsPage.GrowthNameInjective | src/pages/AnalyticsPage.tsx:19 | two growth items with the same label have the same month and year |
| AnalyticsPage.Capitalize | src/pages/AnalyticsPage.tsx:29 | only the first letter is upper-cased; the length and the rest are kept |
| AnalyticsPage.CapitalizeSpec | src/pages/AnalyticsPage.tsx:29 | capitalizing changes nothing but case and is idempotent |
| AnalyticsPage.FormatCounts | src/pages/AnalyticsPage.tsx:25-42 | no data gives no points; otherwise one point per item with the capitalized id and its count |
| AnalyticsPage.PlatformPointsSpec | src/pages/AnalyticsPage.tsx:25-32 | the i-th platform point is named by the capitalized platform id and carries its count |
| AnalyticsPage.CalculateGrowth | src/pages/AnalyticsPage.tsx:45-48 | from zero: 100 for growth, else 0; otherwise the relative change in percent |
| AnalyticsPage.GrowthSign | src/pages/AnalyticsPage.tsx:45-48 | for a positive base the growth is positive iff the value rose, zero iff unchanged, and applying it to the base gives the current value |
| AnalyticsPage.DateRangeAction | src/pages/AnalyticsPage.tsx:50-84 | week and month fetch from the week-ago or month-ago date up to today; every other range refetches without dates |
| AnalyticsPage.RangeDispatch | src/pages/AnalyticsPage.tsx:50-84 | a dated fetch happens iff the range is 'week' or 'month' |
| AnalyticsPage.AnalyticsView.constructor | src/pages/AnalyticsPage.tsx:11-12 | the page starts on range 'all' over the analytics hook |
| AnalyticsPage.AnalyticsView.HandleDateRangeChange | src/pages/AnalyticsPage.tsx:50-84 | the range is stored, the dated fetch or the refetch is sent as the range says, and the hook ends loaded, with the new data and no error on success, and the old data and the message or the fetch fallback on failure |
| AnalyticsPage.SumAppend | src/pages/AnalyticsPage.tsx:261 | the `reduce` sum of two lists laid end to end is the sum of the sums |
| AnalyticsPage.CountsOf | src/pages/AnalyticsPage.tsx:238 | the counts are the items' counts, one per item, in order |
| AnalyticsPage.Total | src/pages/AnalyticsPage.tsx:238 | no data totals 0 (that the total is the `reduce` sum of the counts is stated step by step by TotalSnoc) |
| AnalyticsPage.TotalSnoc | src/pages/AnalyticsPage.tsx:238 | adding one item adds its count to the total |
| AnalyticsPage.CountWithinSum | src/pages/AnalyticsPage.tsx:285 | with non-negative counts each count lies between 0 and the total |
| AnalyticsPage.SumNonNegative | src/pages/AnalyticsPage.tsx:261 | non-negative counts have a non-negative total |
| AnalyticsPage.Divisor | src/pages/AnalyticsPage.tsx:285 | `total \|\| 1` is never zero and is the total when that is non-zero |
| AnalyticsPage.Percent | src/pages/AnalyticsPage.tsx:356 | `Math.round` of the share in percent: within one half of the exact percentage |
| AnalyticsPage.PercentInRange | src/pages/AnalyticsPage.tsx:285 | with non-negative counts each item's share is between 0 and 100 percent |
| AnalyticsPage.TopPlatforms | src/pages/AnalyticsPage.tsx:346 | at most five platforms are listed, the first ones of the data |
| AnalyticsPage.MoreCount | src/pages/AnalyticsPage.tsx:362-365 | the "+N more" note, when shown, names a positive number |
| AnalyticsPage.PlatformsAccounted | src/pages/AnalyticsPage.tsx:346-365 | listed platforms plus the "more" number account for every platform, and the note appears iff there are more than five |
| AnalyticsPage.ScreenOf | src/pages/AnalyticsPage.tsx:86-168 | the skeleton iff loading; the full error iff not loading, with an error and no data; otherwise the content, with the partial-data banner iff there is an error |
| AnalyticsPage.FailedReloadKeepsContent | src/pages/AnalyticsPage.tsx:105-168 | a failed reload over loaded data keeps the content and shows the error as a banner |

## Left out

- HTTP transport, `fetch` and the reading of response bodies. A response is a status plus the body as parsed, or a parse failure.
- Checking that reply bodies have the declared shape. Hooks and pages receive decoded records, and the users table and the OTP form read replies only in their declared shape.
- The wording of the `TypeError` thrown when an error body is JSON `null`. It is a fixed placeholder message, as the browser's text is not part of the program.
- User-defined conversions of an error message. An object message converts to "[object Object]", as it does for every object that JSON can produce.
- Stored tokens that are truthy but not strings. They count as no token.
- The text of the `SyntaxError` that `response.json()` raises on an ok but unparsable body. It is a fixed placeholder message.
- Percent-encoding by `URLSearchParams`. A query is its ordered list of pairs, joined as `key=value` with '&'.
- Common.SubstringTo, Common.Truncate, Common.TruncateKeepsPrefix: when the cut ends inside a surrogate pair, JavaScript keeps the pair's first half, which is a lone surrogate and not a character. The model drops the whole character, so such a cut is one UTF-16 unit shorter than the source's. A Dafny string cannot hold a lone surrogate.
- Unicode case mapping. `toLowerCase` / `toUpperCase` act on ASCII letters only.
- Floating point. Numbers are integers, and NaN is not modelled. The non-zero branch of `calculateGrowth` is exact `real` arithmetic. `Math.round` is `floor(x + 0.5)`, which is how JavaScript defines it.
- The engagement and conversion ratios and the stat cards of the analytics page (src/pages/AnalyticsPage.tsx:172-196, 300-331). These are floating-point display only; the chart components are also left out.
- Date parsing and locale formatting (`new Date(string)`, `toLocaleDateString`, `Intl.NumberFormat`, `toISOString`). Timestamps are integers.
- The calendar arithmetic that finds the week-ago and month-ago dates. Those dates and today's date are parameters of the date-range handler.
- Timers. The scheduling of the OTP countdown is left out (`Tick` is one step of it). Also left out: the sidebar's 30-second polling, the toast auto-dismiss and the redirect delay after a verified OTP.
- Browser navigation after sign-in (`window.location.href`).
- DOM focus. Only the index of the box to focus is modelled.
- `window.confirm` and `alert` as UI. The confirmation is a boolean parameter and the alert is a returned message.
- Concurrency and React scheduling. Fetches are taken one at a time. When the orders page's `setCurrentPage` re-renders `useCarts`, the model records the new parameters (`UseCarts.CartsHook.Rerender`). The second fetch of the same page, which the hook's effect on `params.page` starts, is left out.
- Toast ids come from `Math.random`. They are a parameter of `AddToast`.
- Lookup tables keyed by arbitrary strings (`typeIcons[type]`). Only the listed keys are present, so inherited object properties such as `constructor` are not modelled.
- An API user whose `name` is not a string. `name` is an optional string.
- Objects and arrays used as React children in the referral modal. They render as nothing. Inside the discount's template literal they convert as JavaScript converts them (`Json.ToJsString`).
- The users table's toggle-status, delete and detail-modal actions (src/components/users/UsersTable.tsx:94-130). They call the users service, which is modelled, and change no state the table's model keeps.
- Mock data, the dashboard page, and presentational components with no rules of their own.
- Sidebar.OrdersCounter.Refresh takes the carts reply already decoded to its `pagination.total`.

## Findings

| source | as written | input that shows it | evidently intended | confidence | as-written member | corrected member |
|---|---|---|---|---|---|---|
| src/pages/OrdersPage.tsx:60-66 | the four status icons are literal strings of three or four characters (among them U+2265 and the private-use U+F8FF): each emoji's UTF-8 bytes decoded as Mac OS Roman (for example '‚è≥' for the hourglass). The modal's copy at lines 317-319 repeats them | any order: status 'processing' renders the three characters U+201A U+00E8 U+2265 | one emoji per status: hourglass, delivery truck, check mark, and a package as fallback | not executed | OrdersPage.StatusIconAsWritten, OrdersPage.IconsMisEncoded | OrdersPage.StatusIcon |
