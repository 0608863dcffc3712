/** The language-model client wrapper: one JSON-mode request per prompt, the reply validated
  * against a response schema, and every failure reported as an `LLMServiceError`. */
module LLMService {
  import opened Wrappers

  /** The service's exception, identified by its message. */
  datatype LLMServiceError = LLMServiceError(message: string)

  const ClientInitFailed: string := "Client initialization failed"
  const EmptyResponse: string := "Empty response from model"
  const InvalidSchema: string := "LLM returned invalid schema"
  const GenerationError: string := "LLM generation error"

  const DefaultModel: string := "gemini-3-flash-preview"
  const JsonMime: string := "application/json"
  const DefaultTemperature: real := 0.0

  /** A response model's JSON schema, as the model client receives it. */
  datatype JsonSchema = JsonSchema(text: string)

  /** The one request `generate` sends: model name, prompt and generation config. */
  datatype Request = Request(model: string, contents: string, mimeType: string, jsonSchema: JsonSchema, temperature: real)

  /** What the model client does with a request: it raises a pydantic `ValidationError`, it raises
    * any other exception, or it answers with a text that may be missing (`None`) or empty. */
  datatype Reply = RaisedValidation | Raised | Replied(text: Option<string>)

  /** What validating a reply text against the response model gives: the parsed object, a schema
    * `ValidationError`, or some other exception. */
  datatype Validation<P> = Valid(parsed: P) | SchemaInvalid | ValidatorRaised

  /** A response-model class: its JSON schema, its `model_validate_json` and the `model_dump` of
    * its instances. */
  datatype ResponseModel<!P, D> = ResponseModel(schema: JsonSchema, validateJson: string -> Validation<P>, dump: P -> D)

  /** A constructed service: the model name and the client's content-generation call. */
  datatype LLMService = LLMService(model: string, client: Request -> Reply)

  /** `LLMService(api_key, model)`: `connect` creates the client from the key, `None` when that
    * raises. */
  function NewLLMService(apiKey: string, model: string, connect: string -> Option<Request -> Reply>): (r: Result<LLMService, LLMServiceError>)
    ensures r.Success? <==> connect(apiKey).Some?
    ensures r.Success? ==> r.value.model == model && r.value.client == connect(apiKey).value
    ensures r.Failure? ==> r.error == LLMServiceError(ClientInitFailed)
  {
    match connect(apiKey)
    case None => Failure(LLMServiceError(ClientInitFailed))
    case Some(client) => Success(LLMService(model, client))
  }

  /** The request `generate` sends for a prompt. */
  function RequestFor<P, D>(svc: LLMService, prompt: string, responseModel: ResponseModel<P, D>, temperature: real): Request {
    Request(svc.model, prompt, JsonMime, responseModel.schema, temperature)
  }

  /** The reply text, when the client answered with a non-empty one. */
  function ReplyText(reply: Reply): Option<string> {
    if reply.Replied? && reply.text.Some? && reply.text.value != "" then reply.text else None
  }

  /** `generate`: send the prompt, reject an empty reply, validate the reply and return the dump of
    * the parsed object. It succeeds exactly when the client answers with a non-empty text that
    * validates. The empty-reply error is raised inside the `try`, so the generic handler replaces
    * it with "LLM generation error"; only a `ValidationError`, from the validator or from the client
    * call, which sits in the same `try`, gets its own message. */
  function Generate<P, D>(svc: LLMService, prompt: string, responseModel: ResponseModel<P, D>, temperature: real := DefaultTemperature): (r: Result<D, LLMServiceError>)
    ensures var text := ReplyText(svc.client(RequestFor(svc, prompt, responseModel, temperature)));
            r.Success? <==> text.Some? && responseModel.validateJson(text.value).Valid?
    ensures var text := ReplyText(svc.client(RequestFor(svc, prompt, responseModel, temperature)));
            r.Success? ==> r.value == responseModel.dump(responseModel.validateJson(text.value).parsed)
    ensures r.Failure? ==> r.error.message in {InvalidSchema, GenerationError}
  {
    match svc.client(RequestFor(svc, prompt, responseModel, temperature))
    case RaisedValidation => Failure(LLMServiceError(InvalidSchema))
    case Raised => Failure(LLMServiceError(GenerationError))
    case Replied(text) =>
      if text.None? || text.value == "" then Failure(LLMServiceError(GenerationError))
      else
        match responseModel.validateJson(text.value)
        case Valid(parsed) => Success(responseModel.dump(parsed))
        case SchemaInvalid => Failure(LLMServiceError(InvalidSchema))
        case ValidatorRaised => Failure(LLMServiceError(GenerationError))
  }

  /** A `ValidationError`, and only that, is reported as "LLM returned invalid schema": either the
    * client call raised one or a non-empty reply fails schema validation. */
  lemma InvalidSchemaOnlyFromValidation<P, D>(svc: LLMService, prompt: string, responseModel: ResponseModel<P, D>, temperature: real)
    ensures var reply := svc.client(RequestFor(svc, prompt, responseModel, temperature));
            Generate(svc, prompt, responseModel, temperature) == Failure(LLMServiceError(InvalidSchema))
            <==> reply == RaisedValidation
                 || (ReplyText(reply).Some? && responseModel.validateJson(ReplyText(reply).value).SchemaInvalid?)
  {
  }

  /** An empty or missing reply text comes out as the generic "LLM generation error", whatever the
    * validator would have said. */
  lemma EmptyReplyIsGenericError<P, D>(svc: LLMService, prompt: string, responseModel: ResponseModel<P, D>, temperature: real)
    requires svc.client(RequestFor(svc, prompt, responseModel, temperature)) in {Replied(None), Replied(Some(""))}
    ensures Generate(svc, prompt, responseModel, temperature) == Failure(LLMServiceError(GenerationError))
  {
  }

  /** The request asks for a JSON reply following the response model's schema, with the service's
    * model, the prompt as contents and the given temperature. */
  lemma RequestIsJsonMode<P, D>(svc: LLMService, prompt: string, responseModel: ResponseModel<P, D>, temperature: real)
    ensures RequestFor(svc, prompt, responseModel, temperature).mimeType == "application/json"
    ensures RequestFor(svc, prompt, responseModel, temperature).jsonSchema == responseModel.schema
    ensures RequestFor(svc, prompt, responseModel, temperature).model == svc.model
    ensures RequestFor(svc, prompt, responseModel, temperature).contents == prompt
    ensures RequestFor(svc, prompt, responseModel, temperature).temperature == temperature
  {
  }

  /** `generate` asks in JSON mode: its outcome is decided by the client's reply to the one request
    * with the service's model, the prompt as contents, the `application/json` MIME type, the
    * response model's schema and the given temperature. A client that answers that request alike
    * and raises on every other gives the same result. */
  lemma GenerateAsksInJsonMode<P, D>(svc: LLMService, prompt: string, responseModel: ResponseModel<P, D>, temperature: real)
    ensures var req := Request(svc.model, prompt, "application/json", responseModel.schema, temperature);
            var onlyThatRequest := LLMService(svc.model, (q: Request) => if q == req then svc.client(req) else Raised);
            Generate(svc, prompt, responseModel, temperature) == Generate(onlyThatRequest, prompt, responseModel, temperature)
  {
    RequestIsJsonMode(svc, prompt, responseModel, temperature);
  }

  /** `generate` consults the client only on that one request: two services with the same model
    * whose clients answer it alike give the same result. */
  lemma OnlyTheRequestMatters<P, D>(svc1: LLMService, svc2: LLMService, prompt: string, responseModel: ResponseModel<P, D>, temperature: real)
    requires svc1.model == svc2.model
    requires svc1.client(RequestFor(svc1, prompt, responseModel, temperature)) == svc2.client(RequestFor(svc2, prompt, responseModel, temperature))
    ensures Generate(svc1, prompt, responseModel, temperature) == Generate(svc2, prompt, responseModel, temperature)
  {
  }
}
