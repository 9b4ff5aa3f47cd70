/**
  The `sendMessage` resolver: look the model up, pick the provider branch,
  check that provider's API key, apply the parameter defaults, call the
  adapter, and turn every outcome into one uniform result. The resolver is
  split at its one network call: `Plan` decides whether and what to send,
  `Finish` shapes the result from what came back, and `SendMessage` joins the
  two around a `fetch` supplied by the caller, recording every request sent.
 */
module Dispatch {
  import opened Js
  import opened Registry
  import opened Params
  import opened Adapters

  /** The GraphQL `ChatInput`: `message` and `model` are required, the rest may be omitted or `null`. */
  datatype ChatInput = ChatInput(message: string, model: string, temperature: Value<real>, maxTokens: Value<int>)

  /** The Worker's environment bindings. */
  type Env = map<string, string>

  /** `env[name]` as a JavaScript slot: `undefined` when the variable is not bound. */
  function Binding(env: Env, name: string): Value<string> {
    if name in env then Defined(env[name]) else Undefined
  }

  /** `!!env[name]`: bound to a non-empty string. */
  predicate HasKey(env: Env, name: string)
    ensures HasKey(env, name) <==> Truthy(Binding(env, name))
  {
    name in env && env[name] != ""
  }

  /** The environment variable holding each provider's API key. */
  function KeyName(provider: Provider): string {
    match provider
    case OpenAI => "OPENAI_API_KEY"
    case DeepSeek => "DEEPSEEK_API_KEY"
  }

  /** The `if provider === 'openai' ... else if provider === 'deepseek'` chain. */
  function ProviderOf(tag: string): (p: Option<Provider>)
    ensures p == Some(OpenAI) <==> tag == "openai"
    ensures p == Some(DeepSeek) <==> tag == "deepseek"
  {
    if tag == "openai" then Some(OpenAI)
    else if tag == "deepseek" then Some(DeepSeek)
    else None
  }

  /** Why the resolver returns before any network call. */
  datatype Rejection = ModelNotSupported(model: string) | KeyMissing(provider: Provider) | ProviderNotSupported(tag: string) {
    /**
      The error text of each early return. The unsupported-model and
      unsupported-provider texts end with the offending id or tag; the
      key-missing text starts with the provider's name and does not name the
      environment variable.
     */
    function Text(): (t: string)
      ensures ModelNotSupported? ==> |t| > |model| && t[|t| - |model|..] == model
      ensures ProviderNotSupported? ==> |t| > |tag| && t[|t| - |tag|..] == tag
      ensures KeyMissing? ==> |t| > |provider.Label()| && t[..|provider.Label()|] == provider.Label()
    {
      match this
      case ModelNotSupported(model) =>
        var t := "不支持的模型: " + model;
        assert t[|t| - |model|..] == model;
        t
      case KeyMissing(OpenAI) => "OpenAI API Key 未配置"
      case KeyMissing(DeepSeek) => "DeepSeek API Key 未配置"
      case ProviderNotSupported(tag) =>
        var t := "不支持的提供商: " + tag;
        assert t[|t| - |tag|..] == tag;
        t
    }
  }

  /** What the resolver does up to its network call: return early, or call one adapter with one request. */
  datatype Step = Reject(reason: Rejection) | Call(provider: Provider, request: UpstreamRequest)

  /** The `ChatResponse` the resolver returns. A failure carries no `message`. */
  datatype ChatResult = Succeeded(message: string, reply: Value<string>, usage: Usage) | Failed(error: string)

  /** The resolver's result together with every request it sent upstream. */
  datatype Exchange = Exchange(result: ChatResult, sent: seq<UpstreamRequest>)

  const InternalError: string := "服务器内部错误"

  /** The `catch` block: `error.message || '服务器内部错误'`. */
  function Caught(message: string): (text: string)
    ensures text != ""
    ensures message != "" ==> text == message
    ensures message == "" ==> text == InternalError
  {
    if message == "" then InternalError else message
  }

  /**
    The resolver up to its network call. It rejects an unknown id first, then
    a provider whose key is not set; otherwise it calls that provider's
    adapter once, with that provider's key and the resolved parameters.
   */
  function Plan(input: ChatInput, env: Env): (s: Step)
    ensures s == Reject(ModelNotSupported(input.model)) <==> Lookup(input.model).None?
    ensures s.Reject? && s.reason.KeyMissing? ==>
              && Lookup(input.model).Some?
              && ProviderOf(Lookup(input.model).value.provider) == Some(s.reason.provider)
              && !HasKey(env, KeyName(s.reason.provider))
    ensures s.Call? ==>
              && Lookup(input.model).Some?
              && ProviderOf(Lookup(input.model).value.provider) == Some(s.provider)
              && HasKey(env, KeyName(s.provider))
              && s.request.endpoint == s.provider.Endpoint()
              && s.request.authorization == "Bearer " + env[KeyName(s.provider)]
              && s.request.body.model == input.model
              && s.request.body.messages == [ChatMessage("user", input.message)]
              && s.request.body.temperature == Resolve(input.temperature, input.maxTokens).temperature
              && s.request.body.maxTokens == Resolve(input.temperature, input.maxTokens).maxTokens
  {
    var g := Resolve(input.temperature, input.maxTokens);
    match Lookup(input.model)
    case None => Reject(ModelNotSupported(input.model))
    case Some(m) =>
      match ProviderOf(m.provider)
      case None => Reject(ProviderNotSupported(m.provider))
      case Some(p) =>
        if !HasKey(env, KeyName(p)) then Reject(KeyMissing(p))
        else Call(p, BuildRequest(p, input.message, input.model, env[KeyName(p)], g.temperature, g.maxTokens))
  }

  /** The resolver after its network call: the adapter's reply, or the message it threw, made uniform. */
  function Finish(provider: Provider, message: string, outcome: UpstreamOutcome): (r: ChatResult)
    ensures r.Succeeded? <==> Receive(provider, outcome).Ok?
    ensures r.Succeeded? ==> r.message == message
    ensures r.Succeeded? ==> r.reply == Receive(provider, outcome).value.reply
    ensures r.Succeeded? ==> r.usage == Receive(provider, outcome).value.usage
    ensures r.Failed? ==> r.error == Caught(Receive(provider, outcome).error)
  {
    match Receive(provider, outcome)
    case Err(e) => Failed(Caught(e))
    case Ok(a) => Succeeded(message, a.reply, a.usage)
  }

  /**
    `sendMessage(input)` against the environment `env`, where `fetch` stands
    for the provider's answer to a request. It never throws: every path ends
    in a result, a failure always says what went wrong, at most one request
    is sent, and none is sent when the resolver returns early.
   */
  function SendMessage(input: ChatInput, env: Env, fetch: UpstreamRequest -> UpstreamOutcome): (x: Exchange)
    ensures |x.sent| <= 1
    ensures x.sent == [] <==> Plan(input, env).Reject?
    ensures x.result.Failed? ==> x.result.error != ""
    ensures x.result.Succeeded? ==> x.result.message == input.message && |x.sent| == 1
    ensures Plan(input, env).Call? ==> x.sent == [Plan(input, env).request]
    ensures Plan(input, env).Call? ==>
              x.result == Finish(Plan(input, env).provider, input.message, fetch(Plan(input, env).request))
  {
    match Plan(input, env)
    case Reject(reason) => Exchange(Failed(reason.Text()), [])
    case Call(p, request) => Exchange(Finish(p, input.message, fetch(request)), [request])
  }
}
