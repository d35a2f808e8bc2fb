/**
 * simplemind/providers/openai.py: the OpenAI adapter's decision rules: API
 * key fallback, client construction and the connection test, the model
 * name sanitisation, and the mapping of failures onto ProviderError.  The
 * SDK (`BaseOpenAI(...)`, `models.list()`, `chat.completions.create`) is
 * the oracle `SdkClient`, and the settings key is a parameter.
 */
module OpenAI {
  import opened Wrappers
  import opened Python

  const DefaultModel := "gpt-4"

  /** A chat completion, seen through `choices[i].message.content`. */
  datatype Completion = Completion(choices: seq<Value>)

  /** One `{"role": ..., "content": ...}` dict of the request. */
  datatype WireMessage = WireMessage(role: string, content: Value)

  /** A message of the conversation handed to `generate_response`, as read there (`role`, `content`). */
  datatype ConversationMessage = ConversationMessage(role: string, content: Value)

  /**
   * A constructed SDK client: the outcome of `models.list()` (the listed
   * model ids, in order) and `chat.completions.create(model=..., messages=..., **kwargs)`.
   */
  datatype SdkClient = SdkClient(
    listModels: Result<seq<string>, Error>,
    complete: (string, seq<WireMessage>, map<string, Value>) -> Result<Completion, Error>)

  /** `BaseOpenAI(api_key=key)`. */
  type SdkConstructor = string -> Result<SdkClient, Error>

  /** `if not self._api_key: self._api_key = settings.openai_api_key`. */
  function KeyAfterFallback(given: Option<string>, settingsKey: Option<string>): (r: Option<string>)
    ensures given.Some? && given.value != "" ==> r == given
    ensures given.None? || given.value == "" ==> r == settingsKey
  {
    if given.Some? && given.value != "" then given else settingsKey
  }

  /**
   * OpenAI.test_connection on `self.client`: True iff listing the models does
   * not raise.  Before login the client is None, and the AttributeError of
   * `None.models` is caught like any other, so it never raises itself.
   */
  function TestConnection(client: Option<SdkClient>): (r: bool)
    ensures r <==> client.Some? && client.value.listModels.Success?
  {
    match client
    case None => false
    case Some(c) =>
      match c.listModels
      case Success(_) => true
      case Failure(_) => false
  }

  /** OpenAI.available_models on `self.client`: the listed ids in listing order, or [] when there is no client or listing raises. */
  function AvailableModels(client: Option<SdkClient>): (r: seq<string>)
    ensures client.Some? && client.value.listModels.Success? ==> r == client.value.listModels.value
    ensures client.None? || client.value.listModels.Failure? ==> r == []
  {
    match client
    case None => []
    case Some(c) =>
      match c.listModels
      case Success(ids) => ids
      case Failure(_) => []
  }

  /** The model name `generate_response` sends: "gpt-4" for a non-str model or one that looks like an API key. */
  function ModelName(model: Value): (r: string)
    ensures model.PyStr? && !StartsWith(model.s, "sk-") ==> r == model.s
    ensures !model.PyStr? || StartsWith(model.s, "sk-") ==> r == DefaultModel
    ensures !StartsWith(r, "sk-")
  {
    if !model.PyStr? || StartsWith(model.s, "sk-") then
      assert DefaultModel[..3] != "sk-" by { assert DefaultModel[0] == 'g'; }
      DefaultModel
    else model.s
  }

  /** `[{"role": m.role, "content": m.content} for m in conversation.messages]`. */
  function WireMessages(ms: seq<ConversationMessage>): (r: seq<WireMessage>)
    ensures |r| == |ms|
    ensures forall i :: 0 <= i < |ms| ==> r[i] == WireMessage(ms[i].role, ms[i].content)
  {
    if ms == [] then [] else [WireMessage(ms[0].role, ms[0].content)] + WireMessages(ms[1..])
  }

  /** `_handle_api_error`: any exception is re-raised as ProviderError carrying its text. */
  function ApiError(e: Error): (r: Error)
    ensures r.kind == ProviderError && r.message == "OpenAI API error: " + e.message
  {
    Error(ProviderError, "OpenAI API error: " + e.message)
  }

  const MissingClient := Error(AttributeError, "'OpenAI' object has no attribute 'client'")

  /** The body of `generate_response`'s try block on a client (None: `self.client` was never set). */
  function Complete(client: Option<SdkClient>, model: Value, ms: seq<ConversationMessage>, kwargs: map<string, Value>): Result<Completion, Error> {
    match client
    case None => Failure(MissingClient)
    case Some(c) =>
      match KeywordConflict("create", kwargs, ["model", "messages"])
      case Some(e) => Failure(e)
      case None => c.complete(ModelName(model), WireMessages(ms), kwargs)
  }

  /** OpenAI.generate_response: the completion, or ProviderError for whatever went wrong inside. */
  function GenerateResponse(client: Option<SdkClient>, model: Value, ms: seq<ConversationMessage>, kwargs: map<string, Value>): (r: Result<Completion, Error>)
    ensures r.Failure? ==> r.error.kind == ProviderError
    ensures client.None? ==> r == Failure(ApiError(MissingClient))
    ensures client.Some? && KeywordConflict("create", kwargs, ["model", "messages"]).None? ==>
              match client.value.complete(ModelName(model), WireMessages(ms), kwargs)
              case Success(c) => r == Success(c)
              case Failure(e) => r == Failure(ApiError(e))
  {
    match Complete(client, model, ms, kwargs)
    case Success(c) => Success(c)
    case Failure(e) => Failure(ApiError(e))
  }

  /** OpenAI.generate_text: `choices[0].message.content`; an empty choice list raises IndexError outside the try. */
  function GenerateText(client: Option<SdkClient>, model: Value, ms: seq<ConversationMessage>, kwargs: map<string, Value>): (r: Result<Value, Error>)
    ensures GenerateResponse(client, model, ms, kwargs).Failure? ==> r == Failure(GenerateResponse(client, model, ms, kwargs).error)
    ensures GenerateResponse(client, model, ms, kwargs).Success? ==>
              var cs := GenerateResponse(client, model, ms, kwargs).value.choices;
              if |cs| == 0 then r == Failure(Error(IndexError, "list index out of range")) else r == Success(cs[0])
  {
    var completion :- GenerateResponse(client, model, ms, kwargs);
    if |completion.choices| == 0 then Failure(Error(IndexError, "list index out of range"))
    else Success(completion.choices[0])
  }

  /** The key, client and outcome `login` leaves. */
  datatype LoginResult = LoginResult(outcome: Outcome<Error>, apiKey: Option<string>, client: Option<SdkClient>)

  /** OpenAI.login, from the stored key and client. */
  function LoginSpec(apiKey: Option<string>, client: Option<SdkClient>, settingsKey: Option<string>, build: SdkConstructor): (r: LoginResult)
    ensures r.apiKey == KeyAfterFallback(apiKey, settingsKey)
    ensures r.outcome.Pass? <==>
              && r.apiKey.Some? && r.apiKey.value != ""
              && build(r.apiKey.value).Success?
              && TestConnection(Some(build(r.apiKey.value).value))
    ensures r.apiKey.None? || r.apiKey.value == "" ==>
              r.outcome == Fail(Error(AuthenticationError, "OpenAI API key not provided")) && r.client == client
    ensures r.apiKey.Some? && r.apiKey.value != "" ==>
              (r.outcome.Fail? ==> r.outcome.error.kind == ProviderError)
              && (build(r.apiKey.value).Success? ==> r.client == Some(build(r.apiKey.value).value))
              && (build(r.apiKey.value).Failure? ==> r.client == client)
  {
    var key := KeyAfterFallback(apiKey, settingsKey);
    if key.None? || key.value == "" then
      LoginResult(Fail(Error(AuthenticationError, "OpenAI API key not provided")), key, client)
    else
      match build(key.value)
      case Failure(e) => LoginResult(Fail(InitFailed(e)), key, client)
      case Success(c) =>
        if TestConnection(Some(c)) then LoginResult(Pass, key, Some(c))
        else LoginResult(Fail(InitFailed(Error(ProviderError, "Failed to connect to OpenAI API"))), key, Some(c))
  }

  /** The `except Exception` of `login`: the ProviderError raised inside the try is wrapped again. */
  function InitFailed(e: Error): Error {
    Error(ProviderError, "OpenAI initialization failed: " + e.message)
  }

  /** A given non-empty key is kept and used; the settings key is not consulted. */
  lemma ExplicitKeyWins(key: string, client: Option<SdkClient>, settingsKey: Option<string>, build: SdkConstructor)
    requires key != ""
    ensures LoginSpec(Some(key), client, settingsKey, build).apiKey == Some(key)
    ensures build(key).Success? && TestConnection(Some(build(key).value)) ==>
              LoginSpec(Some(key), client, settingsKey, build) == LoginResult(Pass, Some(key), Some(build(key).value))
  {
  }

  /** OpenAI: the configured model, the stored key and the SDK client once built. */
  class OpenAIProvider {
    var model: Value
    var apiKey: Option<string>
    var client: Option<SdkClient>

    /** The attributes the constructor stores before logging in; no client yet. */
    constructor (model: Value, apiKey: Option<string>)
      ensures this.model == model && this.apiKey == apiKey && client.None?
    {
      this.model := model;
      this.apiKey := apiKey;
      client := None;
    }

    /** OpenAI.login: resolve the key, build the client, then test the connection. */
    method Login(settingsKey: Option<string>, build: SdkConstructor) returns (r: Outcome<Error>)
      modifies this
      ensures var spec := LoginSpec(old(apiKey), old(client), settingsKey, build);
        r == spec.outcome && apiKey == spec.apiKey && client == spec.client
      ensures model == old(model)
    {
      if apiKey.None? || apiKey.value == "" {
        apiKey := settingsKey;
      }
      if apiKey.None? || apiKey.value == "" {
        return Fail(Error(AuthenticationError, "OpenAI API key not provided"));
      }
      var built := build(apiKey.value);
      if built.Failure? {
        return Fail(InitFailed(built.error));
      }
      client := Some(built.value);
      if !TestConnection(client) {
        return Fail(InitFailed(Error(ProviderError, "Failed to connect to OpenAI API")));
      }
      r := Pass;
    }

    /** OpenAI.generate_response on this provider's model and client. */
    function Generate(ms: seq<ConversationMessage>, kwargs: map<string, Value>): (r: Result<Completion, Error>)
      reads this
      ensures r.Failure? ==> r.error.kind == ProviderError
      ensures client.None? ==> r == Failure(ApiError(MissingClient))
      ensures client.Some? && KeywordConflict("create", kwargs, ["model", "messages"]).None? ==>
                match client.value.complete(ModelName(model), WireMessages(ms), kwargs)
                case Success(c) => r == Success(c)
                case Failure(e) => r == Failure(ApiError(e))
    {
      GenerateResponse(client, model, ms, kwargs)
    }
  }
}
