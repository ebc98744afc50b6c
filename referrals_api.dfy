/** The referral-application service, on top of the shared admin client's
    base URL and `getHeaders` (and its `handleResponse`). */
module ReferralsApi {
  import opened Common
  import opened Json
  import opened Http
  import opened AdminApi

  datatype ReferralCall =
    | SubmitApplication(data: Json)
    | GetMyApplications
    | GetAllApplications(status: Option<string>)
    | ReviewApplication(applicationId: string, review: Json)
    | DeleteApplication(id: string)

  const AdminApplications: string := "/referral-applications/admin"

  /** `/referral-applications/admin${status ? `?status=${status}` : ''}` */
  function AllApplicationsPath(status: Option<string>): (path: string)
    ensures StrTruthy(status) ==> path == AdminApplications + "?status=" + status.value
    ensures !StrTruthy(status) ==> path == AdminApplications
  {
    AdminApplications + if StrTruthy(status) then "?status=" + status.value else ""
  }

  /** A status filter is sent exactly when it is truthy, and it is read back
      from the path unchanged */
  lemma StatusQueryRoundTrip(status: Option<string>)
    ensures |AllApplicationsPath(status)| > |AdminApplications| <==> StrTruthy(status)
    ensures StrTruthy(status) ==>
              AllApplicationsPath(status)[|AdminApplications| + 8..] == status.value
  {
  }

  function ReferralPath(call: ReferralCall): string {
    match call
    case SubmitApplication(_) => "/referral-applications"
    case GetMyApplications => "/referral-applications/my-applications"
    case GetAllApplications(status) => AllApplicationsPath(status)
    case ReviewApplication(id, _) => ItemPath(AdminApplications, id) + "/review"
    case DeleteApplication(id) => ItemPath("/admin/referrals", id)
  }

  function ReferralVerb(call: ReferralCall): Verb {
    match call
    case SubmitApplication(_) => POST
    case GetMyApplications => GET
    case GetAllApplications(_) => GET
    case ReviewApplication(_, _) => PUT
    case DeleteApplication(_) => DELETE
  }

  /** Every referral call: its verb and path, the shared headers, and a JSON
      body exactly for submission and review */
  method ReferralRequest(st: Storage, codec: Codec, call: ReferralCall) returns (req: Request)
    ensures req.verb == ReferralVerb(call)
    ensures req.url == Url(ApiBaseUrl, ReferralPath(call), None)
    ensures req.headers == AdminHeaders(st, codec)
    ensures req.body.Some? <==> call.SubmitApplication? || call.ReviewApplication?
    ensures call.SubmitApplication? ==> req.body == Some(call.data)
    ensures call.ReviewApplication? ==> req.body == Some(call.review)
  {
    var headers := GetHeaders(st, codec);
    var body := match call
      case SubmitApplication(data) => Some(data)
      case ReviewApplication(_, review) => Some(review)
      case _ => None;
    req := Request(ReferralVerb(call), Url(ApiBaseUrl, ReferralPath(call), None), headers, body);
  }
}
