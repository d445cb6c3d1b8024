/**
 * The summarization endpoint (pages/api/summarize.ts, handler): an ordered
 * chain of request checks, each answered with a status code and a message,
 * then the combination of the two settled adapter outcomes into one
 * response. The adapters are not called here: `Validate` says with which
 * arguments they would be called, and their settled outcomes are parameters.
 */
module Gateway {
  import opened Types

  /** Short model ids accepted for the closed-model side, mapped to provider ids. */
  const ClosedSourceModels: map<string, string> := map[
    "gpt-3.5-turbo" := "gpt-3.5-turbo",
    "gpt-4" := "gpt-4",
    "gpt-4-turbo" := "gpt-4-turbo-preview"]

  /** Short model ids accepted for the open-model side, mapped to hosted model ids. */
  const OpenSourceModels: map<string, string> := map[
    "bart-large-cnn" := "facebook/bart-large-cnn",
    "pegasus-xsum" := "google/pegasus-xsum",
    "flan-t5-base" := "google/flan-t5-base"]

  /** The closed-model ids the model selector offers (components/ModelSelector.tsx). */
  const SelectorClosedIds: set<string> := {"gpt-3.5-turbo", "gpt-4", "gpt-4-turbo"}
  /** The open-model ids the model selector offers, with the hosted model id it lists for each. */
  const SelectorOpenModels: map<string, string> := map[
    "bart-large-cnn" := "facebook/bart-large-cnn",
    "pegasus-xsum" := "google/pegasus-xsum",
    "flan-t5-base" := "google/flan-t5-base"]

  const MinTextLength: nat := 50
  const MaxTextLength: nat := 10000

  const ClosedFailurePlaceholder := "Failed to generate summary. Please check your API key and try again."
  const OpenFailurePlaceholder := "Failed to generate summary. Please try again or select a different model."

  datatype ApiError = ApiError(status: nat, message: string)

  const MethodNotAllowed := ApiError(405, "Method not allowed")
  const MissingFields := ApiError(400, "Missing required fields")
  const TextTooShort := ApiError(400, "Text must be at least 50 characters long")
  const TextTooLong := ApiError(400, "Text must be less than 10,000 characters")
  const InvalidModel := ApiError(400, "Invalid model selection")

  /**
   * How `registry[key]` is looked up. The source indexes a plain object
   * literal, so names inherited from Object.prototype are found as well
   * (`PrototypeChain`); the registry is meant to hold only its own entries
   * (`OwnProperty`).
   */
  datatype LookupRule = OwnProperty | PrototypeChain

  /** Some of the members every plain JavaScript object inherits; each one is a truthy value. */
  const InheritedNames: set<string> := {
    "constructor", "toString", "toLocaleString", "valueOf", "hasOwnProperty",
    "isPrototypeOf", "propertyIsEnumerable", "__proto__"}

  /**
   * Whether `registry[key]` is truthy under the given lookup rule. A registered
   * id with a non-empty value resolves under either rule; an unregistered id
   * resolves only through the prototype chain, and only if it is inherited.
   */
  function Resolves(registry: map<string, string>, key: string, rule: LookupRule): (found: bool)
    ensures rule == OwnProperty ==> (found <==> key in registry && registry[key] != "")
    ensures key in registry && registry[key] != "" ==> found
    ensures found && key !in registry ==> rule == PrototypeChain && key in InheritedNames
  {
    (key in registry && registry[key] != "") || (rule == PrototypeChain && key !in registry && key in InheritedNames)
  }

  /** The checks of the handler, in order; `None` when the request passes all of them. */
  function RequestError(httpMethod: string, req: SummarizationRequest, rule: LookupRule): (e: Option<ApiError>)
    ensures e.None? <==>
              httpMethod == "POST" && Truthy(req.text) && Truthy(req.closedModel) && Truthy(req.openModel) &&
              MinTextLength <= |req.text.value| <= MaxTextLength &&
              Resolves(ClosedSourceModels, req.closedModel.value, rule) &&
              Resolves(OpenSourceModels, req.openModel.value, rule)
    ensures e.Some? ==> (e.value.status == 405 <==> httpMethod != "POST")
    ensures e.Some? ==> e.value in {MethodNotAllowed, MissingFields, TextTooShort, TextTooLong, InvalidModel}
  {
    if httpMethod != "POST" then Some(MethodNotAllowed)
    else if !Truthy(req.text) || !Truthy(req.closedModel) || !Truthy(req.openModel) then Some(MissingFields)
    else if |req.text.value| < MinTextLength then Some(TextTooShort)
    else if |req.text.value| > MaxTextLength then Some(TextTooLong)
    else if !Resolves(ClosedSourceModels, req.closedModel.value, rule)
         || !Resolves(OpenSourceModels, req.openModel.value, rule) then Some(InvalidModel)
    else None
  }

  /** The arguments the two adapters are called with. */
  datatype Dispatch = Dispatch(text: string, closedModelId: string, openModelId: string)

  datatype Decision = Reject(error: ApiError) | Proceed(call: Dispatch)

  /** The validation chain with own-property lookups: an error reply, or the adapter calls to make. */
  function Validate(httpMethod: string, req: SummarizationRequest): (d: Decision)
    ensures d.Reject? <==> RequestError(httpMethod, req, OwnProperty).Some?
    ensures d.Proceed? ==>
              req.text == Some(d.call.text) &&
              req.closedModel.Some? && req.closedModel.value in ClosedSourceModels &&
              req.openModel.Some? && req.openModel.value in OpenSourceModels &&
              d.call.closedModelId == ClosedSourceModels[req.closedModel.value] &&
              d.call.openModelId == OpenSourceModels[req.openModel.value]
  {
    match RequestError(httpMethod, req, OwnProperty)
    case Some(e) => Reject(e)
    case None => Proceed(Dispatch(req.text.value,
                                  ClosedSourceModels[req.closedModel.value],
                                  OpenSourceModels[req.openModel.value]))
  }

  /**
   * A settled adapter outcome, or that side's placeholder when the adapter threw;
   * the result is non-empty whenever both the placeholder and a fulfilled value are.
   */
  function SummaryOr(outcome: Settled<string>, placeholder: string): (summary: string)
    ensures outcome.Fulfilled? ==> summary == outcome.value
    ensures outcome.Rejected? ==> summary == placeholder
    ensures placeholder != "" && (outcome.Fulfilled? ==> outcome.value != "") ==> summary != ""
  {
    if outcome.Fulfilled? then outcome.value else placeholder
  }

  /** What the endpoint answers: a 200 with the response, or an error status with its message. */
  datatype Reply = Success(response: SummarizationResponse) | Failure(error: ApiError)

  function Status(reply: Reply): nat {
    match reply
    case Success(_) => 200
    case Failure(e) => e.status
  }

  /** The handler, given how the closed-model and open-model adapter calls settled. */
  function Handle(httpMethod: string, req: SummarizationRequest,
                  closedOutcome: Settled<string>, openOutcome: Settled<string>): (reply: Reply)
    ensures reply.Success? <==> Validate(httpMethod, req).Proceed?
    ensures reply.Failure? ==> reply == Failure(Validate(httpMethod, req).error)
    ensures reply.Success? ==>
              reply.response.closedModel == req.closedModel.value &&
              reply.response.openModel == req.openModel.value
  {
    match Validate(httpMethod, req)
    case Reject(e) => Failure(e)
    case Proceed(_) =>
      var closedSummary := SummaryOr(closedOutcome, ClosedFailurePlaceholder);
      var openSummary := SummaryOr(openOutcome, OpenFailurePlaceholder);
      Success(SummarizationResponse(closedSummary, openSummary, req.closedModel.value, req.openModel.value))
  }

  // ---------------------------------------------------------------------------
  // Properties of the validation chain.
  // ---------------------------------------------------------------------------

  /** A request method other than POST is refused with 405, whatever the body holds. */
  lemma NonPostRefusedFirst(httpMethod: string, req: SummarizationRequest, c: Settled<string>, o: Settled<string>)
    requires httpMethod != "POST"
    ensures Handle(httpMethod, req, c, o) == Failure(MethodNotAllowed)
    ensures Status(Handle(httpMethod, req, c, o)) == 405
  {
  }

  /** A missing or empty text or model id is refused with 400 before the length is looked at. */
  lemma MissingFieldRefused(req: SummarizationRequest, c: Settled<string>, o: Settled<string>)
    requires !Truthy(req.text) || !Truthy(req.closedModel) || !Truthy(req.openModel)
    ensures Handle("POST", req, c, o) == Failure(MissingFields)
  {
  }

  /** The text length bounds are inclusive: 50 and 10000 characters pass, 49 and 10001 do not. */
  lemma LengthBounds(req: SummarizationRequest)
    requires Truthy(req.text) && Truthy(req.closedModel) && Truthy(req.openModel)
    ensures |req.text.value| < 50 ==> RequestError("POST", req, OwnProperty) == Some(TextTooShort)
    ensures |req.text.value| > 10000 ==> RequestError("POST", req, OwnProperty) == Some(TextTooLong)
    ensures 50 <= |req.text.value| <= 10000 ==>
              RequestError("POST", req, OwnProperty) != Some(TextTooShort) &&
              RequestError("POST", req, OwnProperty) != Some(TextTooLong)
  {
  }

  /** An unknown model id is refused only after the field and length checks have passed. */
  lemma UnknownModelRefused(req: SummarizationRequest)
    requires Truthy(req.text) && Truthy(req.closedModel) && Truthy(req.openModel)
    requires req.closedModel.value !in ClosedSourceModels || req.openModel.value !in OpenSourceModels
    ensures 50 <= |req.text.value| <= 10000 ==> RequestError("POST", req, OwnProperty) == Some(InvalidModel)
    ensures |req.text.value| < 50 ==> RequestError("POST", req, OwnProperty) == Some(TextTooShort)
    ensures |req.text.value| > 10000 ==> RequestError("POST", req, OwnProperty) == Some(TextTooLong)
  {
  }

  /**
   * Every id the selector offers is in its registry; the open registry maps each
   * id to exactly the hosted model id the selector lists for it.
   */
  lemma SelectorIdsResolve()
    ensures ClosedSourceModels.Keys == SelectorClosedIds
    ensures OpenSourceModels == SelectorOpenModels
    ensures ClosedSourceModels["gpt-4-turbo"] == "gpt-4-turbo-preview"
    ensures forall id :: id in OpenSourceModels ==>
              OpenSourceModels[id][..9] == "facebook/" || OpenSourceModels[id][..7] == "google/"
  {
  }

  // ---------------------------------------------------------------------------
  // Properties of the response assembly.
  // ---------------------------------------------------------------------------

  /** A refused request does not depend on how the adapters would have settled: they are not reached. */
  lemma RefusalIgnoresAdapters(httpMethod: string, req: SummarizationRequest,
                               c1: Settled<string>, o1: Settled<string>, c2: Settled<string>, o2: Settled<string>)
    requires Validate(httpMethod, req).Reject?
    ensures Handle(httpMethod, req, c1, o1) == Handle(httpMethod, req, c2, o2)
    ensures Status(Handle(httpMethod, req, c1, o1)) in {400, 405}
  {
  }

  /**
   * Each side is settled on its own: a rejected side gets exactly its own
   * placeholder, a fulfilled side passes its value through, whatever the other side did.
   */
  lemma SidesIndependent(httpMethod: string, req: SummarizationRequest, c: Settled<string>, o: Settled<string>)
    requires Validate(httpMethod, req).Proceed?
    ensures Handle(httpMethod, req, c, o).response.closedSummary
            == if c.Fulfilled? then c.value else ClosedFailurePlaceholder
    ensures Handle(httpMethod, req, c, o).response.openSummary
            == if o.Fulfilled? then o.value else OpenFailurePlaceholder
    ensures ClosedFailurePlaceholder != OpenFailurePlaceholder
  {
  }

  /** The response echoes the short ids of the request, not the provider ids the adapters were given. */
  lemma ResponseEchoesShortIds(text: string, c: Settled<string>, o: Settled<string>)
    requires 50 <= |text| <= 10000
    ensures var req := SummarizationRequest(Some(text), Some("gpt-4-turbo"), Some("bart-large-cnn"));
            Validate("POST", req).call.closedModelId == "gpt-4-turbo-preview" &&
            Handle("POST", req, c, o).response.closedModel == "gpt-4-turbo" &&
            Handle("POST", req, c, o).response.openModel == "bart-large-cnn"
  {
  }

  // ---------------------------------------------------------------------------
  // The registry lookup as written accepts inherited names.
  // ---------------------------------------------------------------------------

  /**
   * With the lookup as written, a request naming "constructor" as its closed
   * model passes every check although no such model is registered; with
   * own-property lookup it is refused as an invalid model selection.
   */
  lemma InheritedNamePassesAsWritten(text: string)
    requires 50 <= |text| <= 10000
    ensures var req := SummarizationRequest(Some(text), Some("constructor"), Some("bart-large-cnn"));
            "constructor" !in ClosedSourceModels &&
            RequestError("POST", req, PrototypeChain).None? &&
            RequestError("POST", req, OwnProperty) == Some(InvalidModel)
  {
  }

  /** With own-property lookup, every accepted request names registered models on both sides. */
  lemma OnlyRegisteredModelsPass(httpMethod: string, req: SummarizationRequest)
    requires RequestError(httpMethod, req, OwnProperty).None?
    ensures req.closedModel.value in ClosedSourceModels && req.openModel.value in OpenSourceModels
  {
  }
}
