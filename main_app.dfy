/** The signed-in shell: which page is shown, its header title and subtitle,
    and whether the mobile sidebar is open. */
module MainApp {
  import opened Common
  import opened Json

  /** The page components `renderCurrentPage` can return */
  datatype PageView =
    | DashboardView
    | UsersView
    | OrdersView
    | ReferralsView
    | AnalyticsView
    | PostsView
    | EventsView

  const DefaultTitle: string := "Exhiibot Admin"
  const DefaultSubtitle: string := "Platform Management"

  /** The `titles` table: posts and events have no entry */
  function Titles(): map<string, string> {
    map["home" := "Exhiibot Admin", "users" := "All Users", "orders" := "Manage Orders",
        "referrals" := "Referrals", "analytics" := "Analytics"]
  }

  /** `titles[currentPage] || 'Exhiibot Admin'` */
  function PageTitle(page: string): (title: string)
    ensures page in Titles() ==> title == Titles()[page]
    ensures page !in Titles() ==> title == DefaultTitle
    ensures title != ""
  {
    if page in Titles() && Titles()[page] != "" then Titles()[page] else DefaultTitle
  }

  /** `user?.name`, when it is a non-empty string */
  function UserName(user: Json): Option<string> {
    if user.JObj? && "name" in user.fields && user.fields["name"].JStr? && user.fields["name"].s != ""
    then Some(user.fields["name"].s)
    else None
  }

  /** The `subtitles` table, whose home entry greets the user */
  function Subtitles(user: Json): map<string, string> {
    var name := if UserName(user).Some? then UserName(user).value else "Admin";
    map["home" := "Welcome back, " + name, "users" := "Manage and view all platform users",
        "orders" := "View and manage all customer orders",
        "referrals" := "View top referrers and their performance",
        "analytics" := "Detailed analytics and insights"]
  }

  /** `subtitles[currentPage] || 'Platform Management'` */
  function PageSubtitle(page: string, user: Json): (subtitle: string)
    ensures page in Subtitles(user) ==> subtitle == Subtitles(user)[page]
    ensures page !in Subtitles(user) ==> subtitle == DefaultSubtitle
    ensures page == "home" && UserName(user).Some? ==> subtitle == "Welcome back, " + UserName(user).value
    ensures page == "home" && UserName(user).None? ==> subtitle == "Welcome back, Admin"
  {
    var table := Subtitles(user);
    if page in table && table[page] != "" then table[page] else DefaultSubtitle
  }

  /** `renderCurrentPage`: unknown ids fall back to the dashboard */
  function RenderPage(page: string): (view: PageView)
    ensures view == DashboardView <==>
              page !in {"users", "orders", "referrals", "analytics", "posts", "events"}
  {
    if page == "users" then UsersView
    else if page == "orders" then OrdersView
    else if page == "referrals" then ReferralsView
    else if page == "analytics" then AnalyticsView
    else if page == "posts" then PostsView
    else if page == "events" then EventsView
    else DashboardView
  }

  /** The header of the posts and events pages is the generic one */
  lemma PostsAndEventsUseDefaults(user: Json)
    ensures PageTitle("posts") == DefaultTitle && PageTitle("events") == DefaultTitle
    ensures PageSubtitle("posts", user) == DefaultSubtitle
    ensures PageSubtitle("events", user) == DefaultSubtitle
    ensures RenderPage("posts") == PostsView && RenderPage("events") == EventsView
  {
  }

  /** A page with a title of its own also has a subtitle of its own, and the
      other way round */
  lemma TitledPagesAreSubtitled(page: string, user: Json)
    ensures page in Titles() <==> page in Subtitles(user)
  {
  }

  /** The shell's state: the current page and whether the sidebar is open */
  class Shell {
    var currentPage: string
    var sidebarOpen: bool

    constructor ()
      ensures currentPage == "home" && !sidebarOpen
      ensures RenderPage(currentPage) == DashboardView
    {
      currentPage := "home";
      sidebarOpen := false;
    }

    /** `setCurrentPage`, as passed to the sidebar and to the dashboard */
    method SetCurrentPage(page: string)
      modifies this
      ensures currentPage == page && sidebarOpen == old(sidebarOpen)
    {
      currentPage := page;
    }

    /** `setSidebarOpen` */
    method SetSidebarOpen(open: bool)
      modifies this
      ensures sidebarOpen == open && currentPage == old(currentPage)
    {
      sidebarOpen := open;
    }
  }
}
