/**
 * Model of src/main/schemas/base.py and src/main/schemas/router1/responsemodels.py:
 * the two-valued result status, the version fallback chain, and the four
 * response envelopes with their per-model defaults and validation.
 */
module Schemas {
  import opened Wrappers
  import opened PyStr
  import Json
  import Config

  // ---------------------------------------------------------------------
  // Result status
  // ---------------------------------------------------------------------

  /** `ResultStatusEm`: `ok` is "0", `ng` is "1". */
  datatype ResultStatus = StatusOk | StatusNg {
    function Code(): string {
      if StatusOk? then "0" else "1"
    }
  }

  /** `ResultStatusEm(code)`: the member whose value is `code`, if any. */
  function StatusOf(code: string): (r: Option<ResultStatus>)
    ensures r.Some? <==> code == "0" || code == "1"
    ensures r.Some? ==> r.value.Code() == code
  {
    if code == "0" then Some(StatusOk)
    else if code == "1" then Some(StatusNg)
    else None
  }

  /** The two members have distinct codes, and each code names its member. */
  lemma StatusCodes(s: ResultStatus)
    ensures StatusOf(s.Code()) == Some(s)
    ensures StatusOk.Code() != StatusNg.Code()
  {
  }

  // ---------------------------------------------------------------------
  // Version
  // ---------------------------------------------------------------------

  /** What `getattr(get_settings(), "app_version", None)` gave: the lookup
      raised, or it produced a value (`None` when the attribute is absent). */
  datatype VersionLookup = LookupRaised | AttrValue(value: Option<string>)

  const VersionVariable := "APP_VERSION"
  const FallbackVersion := "1.0.0"

  /** `os.getenv("APP_VERSION", "1.0.0")`: a variable that is set but empty gives "". */
  function EnvVersion(env: Config.Env): (v: string)
    ensures VersionVariable in env ==> v == env[VersionVariable]
    ensures VersionVariable !in env ==> v == FallbackVersion
  {
    if VersionVariable in env then env[VersionVariable] else FallbackVersion
  }

  /** `_resolve_version()`: a truthy settings value wins; anything else,
      including a raised lookup, falls back to the environment. */
  function ResolveVersion(lookup: VersionLookup, env: Config.Env): (v: string)
    ensures lookup.AttrValue? && lookup.value.Some? && lookup.value.value != "" ==> v == lookup.value.value
    ensures !(lookup.AttrValue? && lookup.value.Some? && lookup.value.value != "") ==> v == EnvVersion(env)
    ensures v == "" ==> VersionVariable in env && env[VersionVariable] == ""
  {
    match lookup
    case AttrValue(Some(version)) =>
      if version != "" then version else EnvVersion(env)
    case _ => EnvVersion(env)
  }

  /** The settings lookup as the code base has it: `Settings` declares no
      `app_version`, and a failing `get_settings()` raises. */
  function SettingsVersion(settings: Result<Config.Settings, Config.StartupError>): VersionLookup {
    if settings.Ok? then AttrValue(None) else LookupRaised
  }

  /** In practice the version is `APP_VERSION`, else "1.0.0", whatever the settings are. */
  lemma VersionInPractice(settings: Result<Config.Settings, Config.StartupError>, env: Config.Env)
    ensures ResolveVersion(SettingsVersion(settings), env) == EnvVersion(env)
  {
  }

  // ---------------------------------------------------------------------
  // Envelopes
  // ---------------------------------------------------------------------

  /** The four response models. */
  datatype Model = BaseModel | SuccessModel | InternalErrorModel | Router1Model {

    /** The `status_code` default: `ng` only for the error model. */
    function DefaultStatus(): ResultStatus {
      if InternalErrorModel? then StatusNg else StatusOk
    }

    /** The `msg` default; `Router1ResponseModel` inherits the base model's "". */
    function DefaultMsg(): string {
      match this
      case SuccessModel => "normal end"
      case InternalErrorModel => "exception msg"
      case _ => ""
    }
  }

  /** A validated envelope. */
  datatype Envelope =
    | BaseResponse(status: ResultStatus, version: string, msg: string)
    | SuccessResponse(status: ResultStatus, version: string, msg: string, data: Option<map<string, Json.Value>>)
    | InternalServerError(status: ResultStatus, version: string, msg: string)
    | Router1Response(status: ResultStatus, version: string, msg: string, items: seq<Json.Value>)
  {
    function ModelOf(): Model {
      match this
      case BaseResponse(_, _, _) => BaseModel
      case SuccessResponse(_, _, _, _) => SuccessModel
      case InternalServerError(_, _, _) => InternalErrorModel
      case Router1Response(_, _, _, _) => Router1Model
    }
  }

  /** The keyword arguments given to a model's constructor; `None` means not given. */
  datatype Args = Args(status: Option<string>, version: Option<string>, msg: Option<string>, data: Option<Json.Value>)

  const NoArgs := Args(None, None, None, None)

  /** The fields that failed validation, in declaration order. */
  datatype ValidationError = ValidationError(fields: seq<string>)

  /** A `StrictStr` field under `str_strip_whitespace=True`: a given value is
      stripped of Unicode White_Space (the set pydantic's validator trims,
      not Python's `str.isspace()` set); the default is used as it is, since
      defaults are not validated. */
  function StrField(given: Option<string>, default: string): (v: string)
    ensures given.None? ==> v == default
    ensures given.Some? ==> NoEdgeSpace(UnicodeWhiteSpace, v) && exists i :: TrimmedSlice(UnicodeWhiteSpace, given.value, v, i)
  {
    if given.Some? then Strip(UnicodeWhiteSpace, given.value) else default
  }

  /** Whether `data` passes the model's `data` field: a dict or null for the
      success model, a list for Router1; the other models ignore it. */
  predicate DataAccepted(model: Model, data: Option<Json.Value>) {
    match model
    case SuccessModel => data.None? || data.value.Null? || data.value.Object?
    case Router1Model => data.None? || data.value.Array?
    case _ => true
  }

  predicate StatusAccepted(status: Option<string>) {
    status.None? || StatusOf(status.value).Some?
  }

  /** The fields that fail, in declaration order (`status_code`, `version`, `msg`, `data`). */
  function Failures(model: Model, args: Args): seq<string> {
    (if StatusAccepted(args.status) then [] else ["status_code"])
    + (if DataAccepted(model, args.data) then [] else ["data"])
  }

  /** `Model(**args)`: the envelope, or the validation error pydantic raises.
      `defaultVersion` is what `_resolve_version()` gives at that moment. */
  function Construct(model: Model, args: Args, defaultVersion: string): (r: Result<Envelope, ValidationError>)
    ensures r.Ok? <==> StatusAccepted(args.status) && DataAccepted(model, args.data)
    ensures r.Err? ==> ("status_code" in r.error.fields <==> !StatusAccepted(args.status))
    ensures r.Err? ==> ("data" in r.error.fields <==> !DataAccepted(model, args.data))
    ensures r.Ok? ==> r.value.ModelOf() == model
    ensures r.Ok? && args.status.None? ==> r.value.status == model.DefaultStatus()
    ensures r.Ok? && args.status.Some? ==> r.value.status.Code() == args.status.value
    ensures r.Ok? ==> r.value.version == StrField(args.version, defaultVersion)
    ensures r.Ok? ==> r.value.msg == StrField(args.msg, model.DefaultMsg())
    ensures r.Ok? && r.value.SuccessResponse? ==>
              (r.value.data.Some? <==> args.data.Some? && args.data.value.Object?)
              && (r.value.data.Some? ==> args.data == Some(Json.Object(r.value.data.value)))
    ensures r.Ok? && r.value.Router1Response? ==>
              (args.data.None? ==> r.value.items == [])
              && (args.data.Some? ==> args.data.value == Json.Array(r.value.items))
  {
    var failures := Failures(model, args);
    if failures != [] then Err(ValidationError(failures))
    else
      var status := if args.status.Some? then StatusOf(args.status.value).value else model.DefaultStatus();
      var version := StrField(args.version, defaultVersion);
      var msg := StrField(args.msg, model.DefaultMsg());
      match model
      case BaseModel => Ok(BaseResponse(status, version, msg))
      case SuccessModel =>
        Ok(SuccessResponse(status, version, msg,
             if args.data.Some? && args.data.value.Object? then Some(args.data.value.fields) else None))
      case InternalErrorModel => Ok(InternalServerError(status, version, msg))
      case Router1Model =>
        Ok(Router1Response(status, version, msg, if args.data.Some? then args.data.value.items else []))
  }

  /** The defaults of each model when no argument is given. */
  lemma Defaults(version: string)
    ensures Construct(BaseModel, NoArgs, version) == Ok(BaseResponse(StatusOk, version, ""))
    ensures Construct(SuccessModel, NoArgs, version) == Ok(SuccessResponse(StatusOk, version, "normal end", None))
    ensures Construct(InternalErrorModel, NoArgs, version) == Ok(InternalServerError(StatusNg, version, "exception msg"))
    ensures Construct(Router1Model, NoArgs, version) == Ok(Router1Response(StatusOk, version, "", []))
  {
  }

  /** The error envelope with only a message always builds: status `ng`, the message stripped. */
  lemma ErrorEnvelopeBuilds(msg: string, version: string)
    ensures Construct(InternalErrorModel, Args(None, None, Some(msg), None), version)
            == Ok(InternalServerError(StatusNg, version, Strip(UnicodeWhiteSpace, msg)))
  {
  }

  /** Router1's `data` is a list: an object or null is rejected. */
  lemma Router1DataIsList(args: Args, version: string)
    requires args.data == Some(Json.Null) || (args.data.Some? && args.data.value.Object?)
    ensures Construct(Router1Model, args, version).Err?
    ensures "data" in Construct(Router1Model, args, version).error.fields
  {
  }

  // ---------------------------------------------------------------------
  // Responses
  // ---------------------------------------------------------------------

  const HttpOk := 200
  const HttpInternalServerError := 500

  /** `handle_resp(model, status_code)`: the envelope and the HTTP status; the
      JSON encoding is the framework's. */
  datatype Response = Response(body: Envelope, statusCode: int)
}
