/**
 * The request gate (FeedbackController.getFeedback): validate the document,
 * reject an invalid one with BAD_REQUEST, and hand a valid one unchanged to the
 * feedback orchestrator.
 */
module FeedbackController {
  import opened Wrappers
  import opened Dto
  import Validation = RenovateSchemaValidationService
  import Service = RenovateFeedbackService

  /** The request body: the Renovate configuration document as raw JSON text. */
  datatype FeedbackRequest = FeedbackRequest(renovateJson: string)

  /** HTTP 400. */
  const BadRequest: int := 400
  const InvalidConfigPrefix: string := "Invalid Renovate configuration: "

  /** The endpoint's answer: an error status with its reason, or the orchestrator's run. */
  datatype Reply = Rejected(status: int, reason: string) | Delivered(run: Service.Run)

  /** The remote calls the request caused. */
  function RemoteCalls(reply: Reply): seq<Service.Call> {
    match reply
    case Rejected(_, _) => []
    case Delivered(run) => run.calls
  }

  /**
   * getFeedback: the validation of exactly the request's document decides; an
   * invalid document is rejected with BAD_REQUEST and the fixed prefix before
   * the validator's message, a valid one goes to the orchestrator unchanged.
   */
  function GetFeedback(
    request: FeedbackRequest,
    engine: string -> Validation.SchemaCheck,
    configuredMaxOutputTokens: int,
    script: Service.Script
  ): (r: Reply)
    ensures var v := Validation.Validate(request.renovateJson, engine);
      && (r.Rejected? <==> !v.valid)
      && (r.Rejected? ==> r.status == BadRequest && r.reason == InvalidConfigPrefix + v.errorMessage.value)
    ensures r.Delivered? ==>
      r.run == Service.GetFeedback(request.renovateJson, configuredMaxOutputTokens, script)
  {
    var validationResult := Validation.Validate(request.renovateJson, engine);
    if !validationResult.valid then
      Rejected(BadRequest, InvalidConfigPrefix + validationResult.errorMessage.GetOr("null"))
    else
      Delivered(Service.GetFeedback(request.renovateJson, configuredMaxOutputTokens, script))
  }

  /**
   * The orchestrator is called iff the schema reports no messages for the
   * document, and then the first call's prompt is built from that document.
   */
  lemma {:induction false} ModelCalledOnlyForValidDocuments(
    request: FeedbackRequest,
    engine: string -> Validation.SchemaCheck,
    configured: int,
    script: Service.Script)
    ensures var calls := RemoteCalls(GetFeedback(request, engine, configured, script));
      && (calls != [] <==> engine(request.renovateJson) == Validation.Checked([]))
      && |calls| <= 2
      && (calls != [] ==> calls[0].prompt == Service.BuildPrompt(request.renovateJson))
  {
  }

  /**
   * End to end: a request is rejected with BAD_REQUEST, or answered with a
   * structured output of the model, or with a fallback that echoes the document.
   */
  lemma {:induction false} EveryRequestGetsOneAnswer(
    request: FeedbackRequest,
    engine: string -> Validation.SchemaCheck,
    configured: int,
    script: Service.Script)
    ensures var r := GetFeedback(request, engine, configured, script);
      || (r.Rejected? && r.status == BadRequest &&
          Service.StartsWith(r.reason, InvalidConfigPrefix))
      || (r.Delivered? &&
          (|| Service.IsFallback(r.run.feedback, request.renovateJson)
           || Service.ProviderPayload(script.first, r.run.feedback)
           || Service.ProviderPayload(script.retry, r.run.feedback)))
  {
    var r := GetFeedback(request, engine, configured, script);
    if r.Rejected? {
      assert r.reason[..|InvalidConfigPrefix|] == InvalidConfigPrefix;
    } else {
      Service.FeedbackIsFallbackOrPayload(request.renovateJson, configured, script);
    }
  }
}
