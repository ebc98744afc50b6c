/** Build-time configuration (`import.meta.env`) and its validation. */
module Env {
  import opened Common

  /** `import.meta.env`: variable names to their values; an absent name is `undefined` */
  type EnvVars = map<string, string>

  const BaseUrlVar: string := "VITE_API_BASE_URL"
  const TargetVar: string := "VITE_API_TARGET"

  /** The variables the client cannot start without */
  const Required: seq<string> := [BaseUrlVar, TargetVar]

  /** `key => !import.meta.env[key]` */
  function IsMissing(env: EnvVars): string -> bool {
    (name: string) => !StrTruthy(Lookup(env, name))
  }

  /** `required.filter(key => !import.meta.env[key])` */
  function Missing(env: EnvVars): (m: seq<string>)
    ensures |m| <= 2
  {
    Filter(Required, IsMissing(env))
  }

  /** The missing list names the unset or empty required variables, each
      once, in the order they are required */
  lemma MissingExactly(env: EnvVars)
    ensures Missing(env) == (if StrTruthy(Lookup(env, BaseUrlVar)) then [] else [BaseUrlVar]) +
                            (if StrTruthy(Lookup(env, TargetVar)) then [] else [TargetVar])
  {
    FilterPair(BaseUrlVar, TargetVar, IsMissing(env));
  }

  lemma MissingMembership(env: EnvVars, name: string)
    ensures name in Missing(env) <==> name in Required && !StrTruthy(Lookup(env, name))
  {
    FilterMembership(Required, IsMissing(env), name);
  }

  const MissingPrefix: string := "Missing environment variables: "

  /** `validateEnv`: throws naming every missing variable, otherwise returns true */
  function ValidateEnv(env: EnvVars): (r: Result<bool>)
    ensures r.Err? <==> !StrTruthy(Lookup(env, BaseUrlVar)) || !StrTruthy(Lookup(env, TargetVar))
    ensures r.Ok? ==> r.value
    ensures !StrTruthy(Lookup(env, BaseUrlVar)) && !StrTruthy(Lookup(env, TargetVar)) ==>
              r == Err(MissingPrefix + "VITE_API_BASE_URL, VITE_API_TARGET")
    ensures !StrTruthy(Lookup(env, BaseUrlVar)) && StrTruthy(Lookup(env, TargetVar)) ==>
              r == Err(MissingPrefix + "VITE_API_BASE_URL")
    ensures StrTruthy(Lookup(env, BaseUrlVar)) && !StrTruthy(Lookup(env, TargetVar)) ==>
              r == Err(MissingPrefix + "VITE_API_TARGET")
  {
    MissingExactly(env);
    assert [BaseUrlVar, TargetVar][1..] == [TargetVar];
    var missing := Missing(env);
    assert Join([BaseUrlVar, TargetVar], ", ") == BaseUrlVar + ", " + Join([TargetVar], ", ");
    assert !StrTruthy(Lookup(env, BaseUrlVar)) && !StrTruthy(Lookup(env, TargetVar)) ==>
             missing == [BaseUrlVar, TargetVar];
    if |missing| > 0 then Err(MissingPrefix + Join(missing, ", ")) else Ok(true)
  }

  /** `env.app.name`, `env.app.version`, `env.app.environment`: the variable
      when it is set and non-empty, otherwise the default */
  function AppSetting(env: EnvVars, name: string, default: string): (r: string)
    ensures StrTruthy(Lookup(env, name)) ==> r == env[name]
    ensures !StrTruthy(Lookup(env, name)) ==> r == default
  {
    match OrStr(Lookup(env, name), Some(default))
    case Some(v) => v
    case None => default
  }

  function AppName(env: EnvVars): string { AppSetting(env, "VITE_APP_NAME", "Exhiibot Admin") }
  function AppVersion(env: EnvVars): string { AppSetting(env, "VITE_APP_VERSION", "1.0.0") }
  function AppEnvironment(env: EnvVars): string { AppSetting(env, "VITE_APP_ENV", "development") }

  /** A configured application setting is never empty */
  lemma AppSettingsNonEmpty(env: EnvVars)
    ensures AppName(env) != "" && AppVersion(env) != "" && AppEnvironment(env) != ""
  {
  }

  /** `${env.api.baseUrl}`: an unset variable is rendered as "undefined" */
  function BaseUrl(env: EnvVars): (r: string)
    ensures BaseUrlVar in env ==> r == env[BaseUrlVar]
  {
    match Lookup(env, BaseUrlVar)
    case Some(v) => v
    case None => "undefined"
  }
}
