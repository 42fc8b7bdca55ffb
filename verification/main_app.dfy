/**
 * Model of the decisions in src/main/main.py: the production-only header
 * check every route depends on, and the runtime flags the CLI entry point
 * derives from the settings before starting the server.
 */
module MainApp {
  import opened Wrappers
  import opened PyStr
  import Config

  /** `HTTPException(status_code, detail)`. */
  datatype HttpError = HttpError(statusCode: int, detail: string)

  const BadRequest := 400
  const MissingPrefix := "Missing required header(s): "

  /** `not val` for an optional header value: absent or empty. */
  predicate Missing(value: Option<string>) {
    value.None? || value.value == ""
  }

  /** The names of the missing headers, in the order `header_1`, `header_2`. */
  function MissingNames(header1: Option<string>, header2: Option<string>): (names: seq<string>)
    ensures "header_1" in names <==> Missing(header1)
    ensures "header_2" in names <==> Missing(header2)
    ensures |names| <= 2 && (|names| == 2 ==> names == ["header_1", "header_2"])
  {
    (if Missing(header1) then ["header_1"] else []) + (if Missing(header2) then ["header_2"] else [])
  }

  /** The headers as the dependency returns them. */
  function HeaderMap(header1: Option<string>, header2: Option<string>): map<string, Option<string>> {
    map["header_1" := header1, "header_2" := header2]
  }

  /** `required_headers(header_1, header_2)` under `settings.app_env == appEnv`. */
  function RequiredHeaders(appEnv: string, header1: Option<string>, header2: Option<string>)
    : (r: Result<map<string, Option<string>>, HttpError>)
    ensures appEnv != Config.ProductionProfile ==> r == Ok(HeaderMap(header1, header2))
    ensures appEnv == Config.ProductionProfile ==> (r.Err? <==> Missing(header1) || Missing(header2))
    ensures r.Ok? ==> r.value == HeaderMap(header1, header2)
    ensures r.Err? ==> r.error == HttpError(BadRequest, MissingPrefix + Join(MissingNames(header1, header2), ", "))
  {
    var missing := if appEnv == Config.ProductionProfile then MissingNames(header1, header2) else [];
    if missing != [] then Err(HttpError(BadRequest, MissingPrefix + Join(missing, ", ")))
    else Ok(HeaderMap(header1, header2))
  }

  /** The three possible details, by which headers are missing. */
  lemma MissingDetails(header1: Option<string>, header2: Option<string>)
    requires Missing(header1) || Missing(header2)
    ensures var r := RequiredHeaders(Config.ProductionProfile, header1, header2);
            && r.Err?
            && (Missing(header1) && Missing(header2) ==> r.error.detail == MissingPrefix + "header_1, header_2")
            && (Missing(header1) && !Missing(header2) ==> r.error.detail == MissingPrefix + "header_1")
            && (!Missing(header1) && Missing(header2) ==> r.error.detail == MissingPrefix + "header_2")
  {
    if Missing(header1) && Missing(header2) {
      assert MissingNames(header1, header2) == ["header_1", "header_2"];
      assert Join(["header_1", "header_2"], ", ") == "header_1" + ", " + Join(["header_2"], ", ");
    }
  }

  /** The profile is read stripped, but `Settings.app_env` holds `APP_ENV` as
      it was given: a padded `production` turns the secret check on while the
      header check, which compares `app_env` exactly, stays off. */
  lemma PaddedProductionSkipsHeaders(env: Config.Env, nested: Config.NestedVariable, t: Config.Table,
                                     header1: Option<string>, header2: Option<string>)
    requires Config.ProfileVariable in env && env[Config.ProfileVariable] != Config.ProductionProfile
    requires Config.ActiveProfile(env) == Config.ProductionProfile
    ensures Config.SecretGate(Config.ActiveProfile(env), None).Some?
    ensures var s := Config.BuildSettings(env, nested, t);
            s.Ok? ==> RequiredHeaders(s.value.appEnv, header1, header2).Ok?
  {
  }

  /** Such values exist: a profile name with a space in front of it, such as
      `" production"`, selects that profile but differs from it. */
  lemma PaddedProfile(name: string, env: Config.Env)
    requires NoEdgeSpace(PythonSpace, name)
    requires Config.ProfileVariable in env && env[Config.ProfileVariable] == [' '] + name
    ensures env[Config.ProfileVariable] != name
    ensures Config.ActiveProfile(env) == name
  {
    var value := env[Config.ProfileVariable];
    assert |value| == |name| + 1;
    StripLeadingSpace(PythonSpace, ' ', name);
    StripKeepsTrimmed(PythonSpace, name);
    assert Config.ActiveProfile(env) == Strip(PythonSpace, value);
  }

  // ---------------------------------------------------------------------
  // Runtime flags
  // ---------------------------------------------------------------------

  /** The server attributes `getattr` may find on the settings object. */
  datatype ServerAttrs = ServerAttrs(host: Option<string>, port: Option<int>, workers: Option<int>, logLevel: Option<string>)

  /** `Settings` declares none of them. */
  const NoServerAttrs := ServerAttrs(None, None, None, None)

  /** The arguments given to `uvicorn.run`. */
  datatype RunConfig = RunConfig(host: string, port: int, workers: int, reload: bool, logLevel: string)

  /** `settings.app_env.lower() == "development"`. */
  predicate IsDev(appEnv: string): (dev: bool)
    ensures dev <==> |appEnv| == |Config.DefaultProfile|
                     && forall i :: 0 <= i < |appEnv| ==> LowerChar(appEnv[i]) == Config.DefaultProfile[i]
  {
    Lower(appEnv) == Config.DefaultProfile
  }

  /** The flag derivation of the CLI entry point: development runs one
      reloading worker; otherwise the configured worker count, no reload;
      each absent attribute takes its literal fallback. */
  function RuntimeFlags(appEnv: string, attrs: ServerAttrs): (c: RunConfig)
    ensures c.reload <==> IsDev(appEnv)
    ensures c.reload ==> c.workers == 1
    ensures !c.reload ==> c.workers == (if attrs.workers.Some? then attrs.workers.value else 2)
    ensures c.host == (if attrs.host.Some? then attrs.host.value else "0.0.0.0")
    ensures c.port == (if attrs.port.Some? then attrs.port.value else 8000)
    ensures IsLower(c.logLevel)
    ensures attrs.logLevel.Some? ==> c.logLevel == Lower(attrs.logLevel.value)
  {
    var isDev := IsDev(appEnv);
    var host := if attrs.host.Some? then attrs.host.value else "0.0.0.0";
    var port := if attrs.port.Some? then attrs.port.value else 8000;
    var workers := if attrs.workers.Some? then attrs.workers.value else 2;
    LowerIsLower(if attrs.logLevel.Some? then attrs.logLevel.value else "info");
    var logLevel := Lower(if attrs.logLevel.Some? then attrs.logLevel.value else "info");
    RunConfig(host, port, if !isDev then workers else 1, isDev, logLevel)
  }

  /** For the settings this code base builds, the server runs on 0.0.0.0:8000
      at log level "info", with one reloading worker in development and two
      workers otherwise. */
  lemma DefaultRuntime(appEnv: string)
    ensures var c := RuntimeFlags(appEnv, NoServerAttrs);
            && c.host == "0.0.0.0" && c.port == 8000 && c.logLevel == "info"
            && c.workers == (if IsDev(appEnv) then 1 else 2)
  {
    assert IsLower("info");
    LowerOfLower("info");
  }

  /** The default profile counts as development. */
  lemma DefaultProfileIsDev()
    ensures IsDev(Config.DefaultProfile)
  {
    assert IsLower(Config.DefaultProfile);
    LowerOfLower(Config.DefaultProfile);
  }
}
