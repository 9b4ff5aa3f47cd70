/**
  The provider adapters `callOpenAI` and `callDeepSeek`: each builds one
  chat-completion request, and turns what comes back into a reply and token
  usage, or into the message of the error it throws. The two differ only in
  endpoint and in the provider name used in the fallback error text. The
  network call itself is not here: its outcome is an input to `Receive`.
 */
module Adapters {
  import opened Js
  import opened Params

  datatype Provider = OpenAI | DeepSeek {
    /** The fixed chat-completion endpoint. */
    function Endpoint(): string {
      match this
      case OpenAI => "https://api.openai.com/v1/chat/completions"
      case DeepSeek => "https://api.deepseek.com/chat/completions"
    }

    /** The name used in the fallback error text. */
    function Label(): string {
      match this
      case OpenAI => "OpenAI"
      case DeepSeek => "DeepSeek"
    }
  }

  // ---- the request ----

  datatype ChatMessage = ChatMessage(role: string, content: string)

  /** The JSON request body: `{model, messages, temperature, max_tokens}`. */
  datatype RequestBody = RequestBody(model: string, messages: seq<ChatMessage>, temperature: Value<real>, maxTokens: Value<int>)

  /** One POST: where it goes, its `Authorization` header, and its body. */
  datatype UpstreamRequest = UpstreamRequest(endpoint: string, authorization: string, body: RequestBody)

  /**
    The request an adapter sends for `(message, model, apiKey, temperature,
    maxTokens)`. The adapters' own default parameters (0.7 and 1000) replace
    only an argument that is `undefined`.
   */
  function BuildRequest(provider: Provider, message: string, model: string, apiKey: string,
                        temperature: Value<real>, maxTokens: Value<int>): (r: UpstreamRequest)
    ensures r.endpoint == provider.Endpoint()
    ensures r.authorization == "Bearer " + apiKey
    ensures r.body.model == model
    ensures r.body.messages == [ChatMessage("user", message)]
    ensures r.body.temperature == Resolve(temperature, maxTokens).temperature
    ensures r.body.maxTokens == Resolve(temperature, maxTokens).maxTokens
  {
    UpstreamRequest(
      provider.Endpoint(),
      "Bearer " + apiKey,
      RequestBody(model, [ChatMessage("user", message)],
                  WithDefault(temperature, DefaultTemperature), WithDefault(maxTokens, DefaultMaxTokens)))
  }

  // ---- the response ----

  datatype ErrorObject = ErrorObject(message: Value<string>)
  datatype ChoiceMessage = ChoiceMessage(content: Value<string>)
  datatype Choice = Choice(message: Value<ChoiceMessage>)

  /** `usage` as the provider sends it: `prompt_tokens`, `completion_tokens`, `total_tokens`. */
  datatype UsageObject = UsageObject(promptTokens: Value<int>, completionTokens: Value<int>, totalTokens: Value<int>)

  /** The parsed JSON response object: the three top-level fields the adapters read. */
  datatype ResponseData = ResponseData(error: Value<ErrorObject>, choices: Value<seq<Value<Choice>>>, usage: Value<UsageObject>)

  /** What `response.json()` gives: an object, or the message of the `SyntaxError` it throws. */
  datatype Body = Parsed(data: ResponseData) | Unparsable(syntaxError: string)

  /** What the network call ends in: `fetch` rejects, or a response arrives. */
  datatype UpstreamOutcome = NetworkError(message: string) | Received(status: nat, body: Body) {
    /** `response.ok`: the status is in the range 200-299. */
    predicate Ok()
      requires Received?
    {
      200 <= status <= 299
    }
  }

  /** Token usage in the gateway's own field names, copied from the provider's. */
  datatype Usage = Usage(promptTokens: Value<int>, completionTokens: Value<int>, totalTokens: Value<int>)

  datatype AdapterReply = AdapterReply(reply: Value<string>, usage: Usage)

  /** The message of the error thrown on a non-OK status. */
  function StatusErrorText(provider: Provider, status: nat, data: ResponseData): (text: string)
    ensures text != ""
    ensures data.error.Defined? && Truthy(data.error.v.message) ==> text == data.error.v.message.v
    ensures !(data.error.Defined? && Truthy(data.error.v.message)) ==>
              text == provider.Label() + " API error: " + Decimal(status)
  {
    // data.error?.message || `<Label> API error: <status>`
    if data.error.Defined? && Truthy(data.error.v.message) then data.error.v.message.v
    else provider.Label() + " API error: " + Decimal(status)
  }

  /** The fields of a success body that the adapters read without throwing. */
  predicate WellFormed(data: ResponseData) {
    && data.choices.Defined?
    && First(data.choices.v).Defined?
    && First(data.choices.v).v.message.Defined?
    && data.usage.Defined?
  }

  /**
    Reading a success body: `choices[0].message.content` and the three usage
    counters, in that order; a missing object on the way throws a `TypeError`.
   */
  function Extract(data: ResponseData): (r: Result<AdapterReply, string>)
    ensures r.Ok? <==> WellFormed(data)
    ensures r.Ok? ==> r.value.reply == First(data.choices.v).v.message.v.content
    ensures r.Ok? ==> r.value.usage == Usage(data.usage.v.promptTokens, data.usage.v.completionTokens, data.usage.v.totalTokens)
    ensures r.Err? ==> IsReadError(r.error)
    ensures !data.choices.Defined? ==> r == Err(ReadError(data.choices, "0"))
    ensures data.choices.Defined? && !First(data.choices.v).Defined? ==>
              r == Err(ReadError(First(data.choices.v), "message"))
    ensures data.choices.Defined? && First(data.choices.v).Defined? && !First(data.choices.v).v.message.Defined? ==>
              r == Err(ReadError(First(data.choices.v).v.message, "content"))
    ensures data.choices.Defined? && First(data.choices.v).Defined? && First(data.choices.v).v.message.Defined?
            && !data.usage.Defined? ==>
              r == Err(ReadError(data.usage, "prompt_tokens"))
  {
    var choices :- Read(data.choices, "0");
    var choice :- Read(First(choices), "message");
    var message :- Read(choice.message, "content");
    var usage :- Read(data.usage, "prompt_tokens");
    Ok(AdapterReply(message.content, Usage(usage.promptTokens, usage.completionTokens, usage.totalTokens)))
  }

  /**
    The adapter's response handling: `response.json()` first, then the status
    check, then the field reads. `Err` carries the message of what it throws.
   */
  function Receive(provider: Provider, outcome: UpstreamOutcome): (r: Result<AdapterReply, string>)
    ensures outcome.NetworkError? ==> r == Err(outcome.message)
    ensures outcome.Received? && outcome.body.Unparsable? ==> r == Err(outcome.body.syntaxError)
    ensures outcome.Received? && outcome.body.Parsed? && !outcome.Ok() ==>
              r == Err(StatusErrorText(provider, outcome.status, outcome.body.data))
    ensures outcome.Received? && outcome.body.Parsed? && outcome.Ok() ==> r == Extract(outcome.body.data)
  {
    match outcome
    case NetworkError(message) => Err(message)
    case Received(status, body) =>
      match body
      case Unparsable(syntaxError) => Err(syntaxError)
      case Parsed(data) =>
        if !outcome.Ok() then Err(StatusErrorText(provider, status, data)) else Extract(data)
  }

  /** A reply is produced exactly for an OK status with a parsable, well-formed body. */
  lemma ReceiveSucceeds(provider: Provider, outcome: UpstreamOutcome)
    ensures Receive(provider, outcome).Ok? <==>
              outcome.Received? && outcome.Ok() && outcome.body.Parsed? && WellFormed(outcome.body.data)
  {
  }

  /** The two adapters build the same body and differ only in endpoint. */
  lemma AdaptersAgreeOnBody(message: string, model: string, apiKey: string, g: Generation)
    ensures BuildRequest(OpenAI, message, model, apiKey, g.temperature, g.maxTokens).body
         == BuildRequest(DeepSeek, message, model, apiKey, g.temperature, g.maxTokens).body
    ensures BuildRequest(OpenAI, message, model, apiKey, g.temperature, g.maxTokens).endpoint
         != BuildRequest(DeepSeek, message, model, apiKey, g.temperature, g.maxTokens).endpoint
  {
  }

  /** The fallback text names the provider and the status, and tells statuses apart. */
  lemma StatusTextDistinguishesStatus(provider: Provider, s1: nat, s2: nat, data: ResponseData)
    requires !(data.error.Defined? && Truthy(data.error.v.message))
    requires StatusErrorText(provider, s1, data) == StatusErrorText(provider, s2, data)
    ensures s1 == s2
  {
    var prefix := provider.Label() + " API error: ";
    assert StatusErrorText(provider, s1, data)[|prefix|..] == Decimal(s1);
    assert StatusErrorText(provider, s2, data)[|prefix|..] == Decimal(s2);
    DecimalInjective(s1, s2);
  }
}
