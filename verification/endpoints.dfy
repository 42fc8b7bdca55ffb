/**
 * The two handler bodies of src/main/routers/monitor.py and
 * src/main/routers/router1.py, from the point where they build their
 * envelope, under the `handle_except` wrapper. The calls before that point
 * (the health probe, the services, the database) are summarised by how they
 * ended.
 */
module Endpoints {
  import opened Wrappers
  import Json
  import Schemas
  import Decorator
  import Config

  type Reply = Decorator.Outcome<Decorator.Reply<Schemas.Response>>

  /** `handle_resp(model)`: the envelope with the default HTTP status 200. */
  function HandleResp(e: Schemas.Envelope): (r: Schemas.Response)
    ensures r.body == e && r.statusCode == Schemas.HttpOk
  {
    Schemas.Response(e, Schemas.HttpOk)
  }

  /** Building `model(**args)` inside a handler: the response, or the
      `ValidationError` pydantic raises (an `Exception`), carrying `frames`
      and pydantic's rendering `text` of the error. */
  function Build(model: Schemas.Model, args: Schemas.Args, version: string,
                 frames: seq<Decorator.Frame>, text: string): (o: Decorator.Outcome<Schemas.Response>)
    ensures Schemas.Construct(model, args, version).Ok? ==>
              o == Decorator.Returned(HandleResp(Schemas.Construct(model, args, version).value))
    ensures Schemas.Construct(model, args, version).Err? ==>
              o.Raised? && o.fault.isException && o.fault.className == "ValidationError"
  {
    match Schemas.Construct(model, args, version)
    case Ok(e) => Decorator.Returned(HandleResp(e))
    case Err(_) => Decorator.Raised(Decorator.Fault("ValidationError", [text], frames, true))
  }

  /** The calls before the return are followed by the envelope construction. */
  function AndThen(before: Decorator.Outcome<()>, after: Decorator.Outcome<Schemas.Response>)
    : Decorator.Outcome<Schemas.Response>
  {
    match before
    case Returned(_) => after
    case Raised(f) => Decorator.Raised(f)
  }

  /** `MonitorAPI.healthy`: the probe, then `handle_resp(SuccessResponseModel())`. */
  function Healthy(probe: Decorator.Outcome<()>, site: Decorator.CallSite): (r: Reply)
    ensures probe.Returned? ==>
              r.Returned? && r.value.HandlerValue? && r.value.value.statusCode == Schemas.HttpOk
              && r.value.value.body.SuccessResponse? && r.value.value.body.version == site.version
    ensures probe.Raised? && probe.fault.isException ==>
              r.Returned? && r.value.ErrorResponse? && r.value.response.statusCode == Schemas.HttpInternalServerError
    ensures r.Raised? <==> probe.Raised? && !probe.fault.isException
    ensures r.Raised? ==> r.fault == probe.fault
  {
    Schemas.Defaults(site.version);
    Decorator.HandleExcept(
      AndThen(probe, Build(Schemas.Model.SuccessModel, Schemas.NoArgs, site.version, [], "")), site)
  }

  /** A passing probe answers 200 with the success envelope's defaults. */
  lemma HealthyAnswer(site: Decorator.CallSite)
    ensures Healthy(Decorator.Returned(()), site)
            == Decorator.Returned(Decorator.HandlerValue(HandleResp(
                 Schemas.Envelope.SuccessResponse(Schemas.ResultStatus.StatusOk, site.version, "normal end", None))))
  {
    Schemas.Defaults(site.version);
  }

  /** With the version the code base resolves, the health answer carries
      `APP_VERSION`, or "1.0.0" when it is unset, whatever the settings are. */
  lemma HealthyVersion(settings: Result<Config.Settings, Config.StartupError>, env: Config.Env, frame: Decorator.Frame)
    ensures var site := Decorator.CallSite(frame, Schemas.ResolveVersion(Schemas.SettingsVersion(settings), env));
            var r := Healthy(Decorator.Returned(()), site);
            && r.Returned? && r.value.HandlerValue?
            && r.value.value.body.version == Schemas.EnvVersion(env)
            && (Schemas.VersionVariable !in env ==> r.value.value.body.version == Schemas.FallbackVersion)
  {
    var site := Decorator.CallSite(frame, Schemas.ResolveVersion(Schemas.SettingsVersion(settings), env));
    Schemas.VersionInPractice(settings, env);
    HealthyAnswer(site);
  }

  /** The payload `router1_post` returns: `{"message": "success"}`. */
  const SuccessPayload := Json.Object(map["message" := Json.Str("success")])

  /** `Router1API.router1_post` as written: the payload is passed as a dict. */
  function Router1PostAsWritten(before: Decorator.Outcome<()>, site: Decorator.CallSite,
                                frames: seq<Decorator.Frame>, text: string): (r: Reply)
    ensures r.Returned? ==> r.value.ErrorResponse? && r.value.response.statusCode == Schemas.HttpInternalServerError
    ensures r.Raised? <==> before.Raised? && !before.fault.isException
  {
    Schemas.Router1DataIsList(Schemas.Args(None, None, None, Some(SuccessPayload)), site.version);
    Decorator.HandleExcept(
      AndThen(before, Build(Schemas.Model.Router1Model, Schemas.Args(None, None, None, Some(SuccessPayload)),
                            site.version, frames, text)), site)
  }

  /** Even when every call before it succeeds, the handler as written answers
      500: the dict fails `Router1ResponseModel`'s list-typed `data`, and the
      wrapper turns the `ValidationError` into the failure envelope. */
  lemma Router1AlwaysFails(site: Decorator.CallSite, frames: seq<Decorator.Frame>, text: string)
    ensures var r := Router1PostAsWritten(Decorator.Returned(()), site, frames, text);
            && r.Returned? && r.value.ErrorResponse?
            && r.value.response.statusCode == Schemas.HttpInternalServerError
            && r.value.response.body.InternalServerError?
  {
    Schemas.Router1DataIsList(Schemas.Args(None, None, None, Some(SuccessPayload)), site.version);
  }

  /** The handler with the payload wrapped in a list, as the response model requires. */
  function Router1Post(before: Decorator.Outcome<()>, site: Decorator.CallSite): (r: Reply)
    ensures before.Returned? ==>
              r.Returned? && r.value.HandlerValue? && r.value.value.statusCode == Schemas.HttpOk
              && r.value.value.body.Router1Response? && r.value.value.body.items == [SuccessPayload]
    ensures before.Raised? && before.fault.isException ==>
              r.Returned? && r.value.ErrorResponse? && r.value.response.statusCode == Schemas.HttpInternalServerError
    ensures r.Raised? <==> before.Raised? && !before.fault.isException
  {
    assert Schemas.DataAccepted(Schemas.Model.Router1Model, Some(Json.Array([SuccessPayload])));
    Decorator.HandleExcept(
      AndThen(before, Build(Schemas.Model.Router1Model, Schemas.Args(None, None, None, Some(Json.Array([SuccessPayload]))),
                            site.version, [], "")), site)
  }

  /** Corrected, a successful run answers 200 with status ok, the model's
      empty default message and the payload as the single item. */
  lemma Router1Succeeds(site: Decorator.CallSite)
    ensures Router1Post(Decorator.Returned(()), site)
            == Decorator.Returned(Decorator.HandlerValue(HandleResp(
                 Schemas.Envelope.Router1Response(Schemas.ResultStatus.StatusOk, site.version, "", [SuccessPayload]))))
  {
    var args := Schemas.Args(None, None, None, Some(Json.Array([SuccessPayload])));
    assert Schemas.DataAccepted(Schemas.Model.Router1Model, args.data);
  }

  /** In both versions a fault from the calls before the return is handled
      alike: an `Exception` gives the same 500 response, anything else propagates. */
  lemma EarlierFaultsAlike(f: Decorator.Fault, site: Decorator.CallSite, frames: seq<Decorator.Frame>, text: string)
    ensures Router1PostAsWritten(Decorator.Raised(f), site, frames, text) == Router1Post(Decorator.Raised(f), site)
    ensures f.isException ==> Router1Post(Decorator.Raised(f), site).Returned?
    ensures !f.isException ==> Router1Post(Decorator.Raised(f), site) == Decorator.Raised(f)
  {
  }
}
