/** The users table: the request it builds from its search, filter and
    limit props, the conversion of API users to table rows, its own
    fetch state, the status badge and row limiting. */
module UsersTable {
  import opened Common
  import opened Http
  import opened Queries

  /** The fields of an API user the table reads */
  datatype ApiUser = ApiUser(id: string, userName: string, name: Option<string>, email: string,
                             isActive: bool, isCompleted: bool)

  datatype TableUser = TableUser(id: string, name: string, email: string, hasBracelet: bool,
                                 status: string, phone: string, referralCode: string,
                                 totalReferrals: int, totalTaps: int,
                                 isCompleted: bool, userName: string)

  /** `convertApiUserToTableUser` */
  function ConvertApiUser(u: ApiUser): (t: TableUser)
    ensures t.id == u.id && t.email == u.email && t.userName == u.userName
    ensures t.name == if StrTruthy(u.name) then u.name.value else u.userName
    ensures t.hasBracelet == u.isActive && t.isCompleted == u.isCompleted
    ensures t.status == "active" <==> u.isActive
    ensures t.phone == "" && t.referralCode == "" && t.totalReferrals == 0 && t.totalTaps == 0
  {
    TableUser(u.id, if StrTruthy(u.name) then u.name.value else u.userName, u.email, u.isActive,
              if u.isActive then "active" else "inactive", "", "", 0, 0, u.isCompleted, u.userName)
  }

  /** `users.map(convertApiUserToTableUser)` */
  function ConvertUsers(us: seq<ApiUser>): (ts: seq<TableUser>)
    ensures |ts| == |us|
    ensures forall i :: 0 <= i < |us| ==> ts[i] == ConvertApiUser(us[i])
  {
    seq(|us|, i requires 0 <= i < |us| => ConvertApiUser(us[i]))
  }

  datatype StatusBadge = IncompleteBadge | ActiveBadge | InactiveBadge

  /** `getStatusBadge`: an incomplete profile is 'Incomplete' whatever its bracelet */
  function GetStatusBadge(t: TableUser): (badge: StatusBadge)
    ensures badge == IncompleteBadge <==> !t.isCompleted
    ensures badge == ActiveBadge <==> t.isCompleted && t.hasBracelet
  {
    if !t.isCompleted then IncompleteBadge
    else if t.hasBracelet then ActiveBadge
    else InactiveBadge
  }

  /** The badge of a converted row, read off the API user */
  lemma BadgeOfApiUser(u: ApiUser)
    ensures GetStatusBadge(ConvertApiUser(u)) ==
            if !u.isCompleted then IncompleteBadge else if u.isActive then ActiveBadge else InactiveBadge
  {
  }

  const DefaultLimit: int := 50

  /** The `params` object `fetchUsers` builds: the limit prop or 50, the
      search only when non-empty, and at most one of the two flags */
  function FetchParams(searchQuery: string, filter: string, limit: Option<int>): (p: UsersParams)
    ensures p.page.None?
    ensures p.limit == Some(if NumTruthy(limit) then limit.value else DefaultLimit)
    ensures p.search == if searchQuery != "" then Some(searchQuery) else None
    ensures !(p.isActive.Some? && p.isCompleted.Some?)
    ensures p.isActive == if filter == "active" then Some(true) else if filter == "inactive" then Some(false) else None
    ensures p.isCompleted == if filter == "completed" then Some(true) else if filter == "incomplete" then Some(false) else None
  {
    var base := UsersParams(None, Some(if NumTruthy(limit) then limit.value else DefaultLimit),
                            if searchQuery != "" then Some(searchQuery) else None, None, None);
    if filter == "active" then base.(isActive := Some(true))
    else if filter == "inactive" then base.(isActive := Some(false))
    else if filter == "completed" then base.(isCompleted := Some(true))
    else if filter == "incomplete" then base.(isCompleted := Some(false))
    else base
  }

  /** The query the table sends: never a page, always a limit, a search
      only for a non-empty query, and no flag for 'all' */
  lemma FetchQuery(searchQuery: string, limit: Option<int>)
    ensures var q := Serialize(UsersFields(FetchParams(searchQuery, "all", limit)));
            Get(q, "page").None? && Get(q, "limit").Some? &&
            (Get(q, "search").Some? <==> searchQuery != "") &&
            Get(q, "isActive").None? && Get(q, "isCompleted").None?
  {
    UsersQueryFacts(FetchParams(searchQuery, "all", limit));
  }

  /** The reply of the users endpoint, in its declared shape */
  datatype UsersReply = UsersReply(success: bool, users: seq<ApiUser>)

  class UsersTableState {
    var users: seq<TableUser>
    var loading: bool
    var error: Option<string>

    constructor ()
      ensures users == [] && loading && error == None
    {
      users := [];
      loading := true;
      error := None;
    }

    /** `fetchUsers`: `sent` goes to `usersAPI.getUsers`, `notified` to
        `onUsersUpdate`. A successful reply replaces the rows; one with
        `success` false leaves them; a failure empties them (unlike the
        hooks, which keep stale rows) */
    method FetchUsers(searchQuery: string, filter: string, limit: Option<int>, outcome: Result<UsersReply>)
      returns (sent: UsersParams, notified: Option<int>)
      modifies this
      ensures sent == FetchParams(searchQuery, filter, limit)
      ensures !loading
      ensures outcome.Ok? ==> error == None
      ensures outcome.Ok? && outcome.value.success ==>
                users == ConvertUsers(outcome.value.users) && notified == Some(|outcome.value.users|)
      ensures outcome.Ok? && !outcome.value.success ==> users == old(users) && notified.None?
      ensures outcome.Err? ==> users == [] && error == Some(outcome.message) && notified.None?
    {
      loading := true;
      error := None;
      sent := FetchParams(searchQuery, filter, limit);
      notified := None;
      match outcome {
        case Ok(response) =>
          if response.success {
            var tableUsers := ConvertUsers(response.users);
            users := tableUsers;
            notified := Some(|tableUsers|);
          }
        case Err(message) =>
          error := Some(message);
          users := [];
      }
      loading := false;
    }
  }

  /** `limit ? users.slice(0, limit) : users` */
  function DisplayedUsers(users: seq<TableUser>, limit: Option<int>): (shown: seq<TableUser>)
    ensures |shown| <= |users| && shown == users[..|shown|]
    ensures !NumTruthy(limit) ==> shown == users
    ensures NumTruthy(limit) && limit.value > 0 ==> |shown| == if limit.value < |users| then limit.value else |users|
  {
    if NumTruthy(limit) then SliceTo(users, limit.value) else users
  }

  /** The actions column is left out whenever a limit is given */
  predicate ShowsActions(limit: Option<int>) {
    !NumTruthy(limit)
  }

  /** A limited table shows at most `limit` rows and no actions */
  lemma LimitedTable(users: seq<TableUser>, limit: int)
    requires limit > 0
    ensures |DisplayedUsers(users, Some(limit))| <= limit
    ensures !ShowsActions(Some(limit))
  {
  }
}
