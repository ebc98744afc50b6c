/** The authentication service: four unauthenticated POSTs with JSON bodies.
    Importing the module runs `validateEnv`, so when a required variable is
    missing no call can be made at all. */
module AuthApi {
  import opened Common
  import opened Json
  import opened Http
  import opened Env

  datatype AuthCall =
    | Login(email: string)
    | VerifyOtp(email: string, otp: string)
    | ResendOtp(email: string)
    | CheckEmail(email: string)

  function AuthPath(call: AuthCall): string {
    match call
    case Login(_) => "/auth/login"
    case VerifyOtp(_, _) => "/auth/verify-login-otp"
    case ResendOtp(_) => "/auth/resend-otp"
    case CheckEmail(_) => "/auth/check-email"
  }

  /** The object passed to `JSON.stringify` */
  function AuthBody(call: AuthCall): (body: Json)
    ensures body.JObj? && "email" in body.fields && body.fields["email"] == JStr(call.email)
    ensures call.VerifyOtp? ==> body.fields.Keys == {"email", "otp"} && body.fields["otp"] == JStr(call.otp)
    ensures !call.VerifyOtp? ==> body.fields.Keys == {"email"}
  {
    match call
    case VerifyOtp(email, otp) => JObj(map["email" := JStr(email), "otp" := JStr(otp)])
    case _ => JObj(map["email" := JStr(call.email)])
  }

  /** The request a call sends, or the error thrown when the module was
      imported with an incomplete environment */
  function AuthRequest(env: EnvVars, call: AuthCall): (r: Result<Request>)
    ensures r.Err? <==> ValidateEnv(env).Err?
    ensures r.Err? ==> r.message == ValidateEnv(env).message
    ensures r.Ok? ==> r.value.verb == POST
    ensures r.Ok? ==> r.value.url == Url(BaseUrl(env), AuthPath(call), None)
    ensures r.Ok? ==> r.value.headers.Keys == {"Content-Type", "Accept"}
    ensures r.Ok? ==> r.value.headers["Content-Type"] == JsonType && r.value.headers["Accept"] == JsonType
    ensures r.Ok? ==> r.value.body == Some(AuthBody(call))
  {
    match ValidateEnv(env)
    case Err(message) => Err(message)
    case Ok(_) =>
      Ok(Request(POST, Url(BaseUrl(env), AuthPath(call), None),
                 map["Content-Type" := JsonType, "Accept" := JsonType], Some(AuthBody(call))))
  }

  /** No authentication call carries a credential, and the four calls go to
      four different endpoints */
  lemma AuthCallsUnauthenticated(env: EnvVars, call: AuthCall, other: AuthCall)
    ensures AuthRequest(env, call).Ok? ==> "Authorization" !in AuthRequest(env, call).value.headers
    ensures AuthPath(call) == AuthPath(other) <==>
              (call.Login? == other.Login? && call.VerifyOtp? == other.VerifyOtp? &&
               call.ResendOtp? == other.ResendOtp?)
  {
    if AuthPath(call) == AuthPath(other) {
      assert AuthPath(call)[6] == AuthPath(other)[6];
      assert AuthPath(call)[7] == AuthPath(other)[7];
    }
  }
}
