/**
  What the `sendMessage` resolver guarantees, for all inputs, environments
  and upstream behaviours: which inputs are rejected before any network
  call, where a request goes and with which key, what its body holds, and
  how each upstream outcome reaches the caller.
 */
module DispatchProperties {
  import opened Js
  import opened Registry
  import opened Params
  import opened Adapters
  import opened Dispatch

  // ---- early returns: no network call ----

  /** An id outside the registry fails with an error naming that id, and nothing is sent. */
  lemma UnknownModelRejected(input: ChatInput, env: Env, fetch: UpstreamRequest -> UpstreamOutcome)
    requires forall i | 0 <= i < |AiModels| :: AiModels[i].id != input.model
    ensures SendMessage(input, env, fetch) == Exchange(Failed("不支持的模型: " + input.model), [])
    ensures var e := SendMessage(input, env, fetch).result.error;
              |e| >= |input.model| && e[|e| - |input.model|..] == input.model
  {
    var e := "不支持的模型: " + input.model;
    assert e[|e| - |input.model|..] == input.model;
  }

  /** The resolver rejects for an unknown model exactly when the id is not registered. */
  lemma ModelRejectionIff(input: ChatInput, env: Env)
    ensures Plan(input, env) == Reject(ModelNotSupported(input.model)) <==> Lookup(input.model).None?
  {
  }

  /** An OpenAI model without `OPENAI_API_KEY` fails with the fixed message, and nothing is sent. */
  lemma OpenAIKeyMissing(input: ChatInput, env: Env, fetch: UpstreamRequest -> UpstreamOutcome)
    requires input.model == "gpt-3.5-turbo" || input.model == "gpt-4"
    requires !HasKey(env, "OPENAI_API_KEY")
    ensures SendMessage(input, env, fetch) == Exchange(Failed("OpenAI API Key 未配置"), [])
  {
    LookupProvider(input.model);
  }

  /** A DeepSeek model without `DEEPSEEK_API_KEY` fails with the fixed message, and nothing is sent. */
  lemma DeepSeekKeyMissing(input: ChatInput, env: Env, fetch: UpstreamRequest -> UpstreamOutcome)
    requires input.model == "deepseek-chat" || input.model == "deepseek-coder"
    requires !HasKey(env, "DEEPSEEK_API_KEY")
    ensures SendMessage(input, env, fetch) == Exchange(Failed("DeepSeek API Key 未配置"), [])
  {
    LookupProvider(input.model);
  }

  /**
    Exactly one request is sent when the model is registered and its
    provider's key is set; otherwise none.
   */
  lemma CallIff(input: ChatInput, env: Env)
    ensures Plan(input, env).Call? <==>
              || (input.model in {"gpt-3.5-turbo", "gpt-4"} && HasKey(env, "OPENAI_API_KEY"))
              || (input.model in {"deepseek-chat", "deepseek-coder"} && HasKey(env, "DEEPSEEK_API_KEY"))
  {
    LookupFinds(input.model);
    if Lookup(input.model).Some? {
      LookupProvider(input.model);
    }
  }

  /** The "unsupported provider" branch is dead: every registered model has a known provider. */
  lemma UnsupportedProviderUnreachable(input: ChatInput, env: Env)
    ensures !(Plan(input, env).Reject? && Plan(input, env).reason.ProviderNotSupported?)
  {
    LookupFinds(input.model);
    if Lookup(input.model).Some? {
      LookupProvider(input.model);
    }
  }

  /** When the resolver returns early, the result does not depend on the upstream at all. */
  lemma RejectionIgnoresUpstream(input: ChatInput, env: Env, f: UpstreamRequest -> UpstreamOutcome, g: UpstreamRequest -> UpstreamOutcome)
    requires Plan(input, env).Reject?
    ensures SendMessage(input, env, f) == SendMessage(input, env, g)
    ensures SendMessage(input, env, f).sent == []
  {
  }

  // ---- the request ----

  /**
    OpenAI models go only to the OpenAI endpoint with the OpenAI key, and
    DeepSeek models only to the DeepSeek endpoint with the DeepSeek key.
   */
  lemma Routing(input: ChatInput, env: Env)
    requires Plan(input, env).Call?
    ensures var s := Plan(input, env);
      && (input.model in {"gpt-3.5-turbo", "gpt-4"} ==>
            && s.provider == OpenAI
            && s.request.endpoint == "https://api.openai.com/v1/chat/completions"
            && "OPENAI_API_KEY" in env
            && s.request.authorization == "Bearer " + env["OPENAI_API_KEY"])
      && (input.model in {"deepseek-chat", "deepseek-coder"} ==>
            && s.provider == DeepSeek
            && s.request.endpoint == "https://api.deepseek.com/chat/completions"
            && "DEEPSEEK_API_KEY" in env
            && s.request.authorization == "Bearer " + env["DEEPSEEK_API_KEY"])
  {
    LookupFinds(input.model);
    LookupProvider(input.model);
  }

  /**
    The body holds exactly the requested model id, one user message with the
    input text, and the temperature and token budget: an omitted value is
    0.7 or 1000, a supplied one (a number or `null`) arrives unchanged.
   */
  lemma RequestBodyExact(input: ChatInput, env: Env)
    requires Plan(input, env).Call?
    ensures var b := Plan(input, env).request.body;
      && b.model == input.model
      && b.messages == [ChatMessage("user", input.message)]
      && b.temperature == (if input.temperature.Undefined? then Defined(0.7) else input.temperature)
      && b.maxTokens == (if input.maxTokens.Undefined? then Defined(1000) else input.maxTokens)
  {
    var g := Resolve(input.temperature, input.maxTokens);
    ResolveIdempotent(input.temperature, input.maxTokens);
    assert Resolve(g.temperature, g.maxTokens) == g;
  }

  // ---- the result ----

  /**
    On a non-OK status with a JSON body, the caller sees the provider's
    `error.message` when it is non-empty, and otherwise
    "<OpenAI|DeepSeek> API error: <status>".
   */
  lemma StatusErrorSurfaced(input: ChatInput, env: Env, fetch: UpstreamRequest -> UpstreamOutcome, status: nat, data: ResponseData)
    requires Plan(input, env).Call?
    requires fetch(Plan(input, env).request) == Received(status, Parsed(data))
    requires !(200 <= status <= 299)
    ensures SendMessage(input, env, fetch).result == Failed(
              if data.error.Defined? && Truthy(data.error.v.message) then data.error.v.message.v
              else Plan(input, env).provider.Label() + " API error: " + Decimal(status))
  {
  }

  /**
    A body that is not JSON fails with the parser's message, whatever the
    status: the status is read only after the body has been parsed.
   */
  lemma UnparsableBodySurfaced(input: ChatInput, env: Env, fetch: UpstreamRequest -> UpstreamOutcome, status: nat, syntaxError: string)
    requires Plan(input, env).Call?
    requires fetch(Plan(input, env).request) == Received(status, Unparsable(syntaxError))
    ensures SendMessage(input, env, fetch).result == Failed(Caught(syntaxError))
  {
  }

  /** A network failure surfaces its message, or the generic internal error when it has none. */
  lemma NetworkErrorSurfaced(input: ChatInput, env: Env, fetch: UpstreamRequest -> UpstreamOutcome, message: string)
    requires Plan(input, env).Call?
    requires fetch(Plan(input, env).request) == NetworkError(message)
    ensures SendMessage(input, env, fetch).result == Failed(if message == "" then "服务器内部错误" else message)
  {
  }

  /**
    On success the reply is `choices[0].message.content`, the three counters
    are copied from `usage` with no arithmetic, and the input message is echoed.
   */
  lemma SuccessCopiesVerbatim(input: ChatInput, env: Env, fetch: UpstreamRequest -> UpstreamOutcome, status: nat, data: ResponseData)
    requires Plan(input, env).Call?
    requires fetch(Plan(input, env).request) == Received(status, Parsed(data))
    requires 200 <= status <= 299
    requires WellFormed(data)
    ensures SendMessage(input, env, fetch).result == Succeeded(
              input.message,
              First(data.choices.v).v.message.v.content,
              Usage(data.usage.v.promptTokens, data.usage.v.completionTokens, data.usage.v.totalTokens))
  {
  }

  /**
    A success body missing `choices`, its first element, that element's
    `message`, or `usage` fails with the `TypeError` of the first missing read
    instead of throwing past the resolver.
   */
  lemma MalformedBodyFails(input: ChatInput, env: Env, fetch: UpstreamRequest -> UpstreamOutcome, status: nat, data: ResponseData)
    requires Plan(input, env).Call?
    requires fetch(Plan(input, env).request) == Received(status, Parsed(data))
    requires 200 <= status <= 299
    requires !WellFormed(data)
    ensures var r := SendMessage(input, env, fetch).result;
      && r.Failed?
      && IsReadError(r.error)
      && (!data.choices.Defined? ==> r.error == ReadError(data.choices, "0"))
      && (data.choices.Defined? && !First(data.choices.v).Defined? ==>
            r.error == ReadError(First(data.choices.v), "message"))
      && (data.choices.Defined? && First(data.choices.v).Defined? && !First(data.choices.v).v.message.Defined? ==>
            r.error == ReadError(First(data.choices.v).v.message, "content"))
      && (data.choices.Defined? && First(data.choices.v).Defined? && First(data.choices.v).v.message.Defined? ==>
            r.error == ReadError(data.usage, "prompt_tokens"))
  {
  }

  /** The call succeeds exactly when a request is sent and answered OK with a well-formed JSON body. */
  lemma SuccessIff(input: ChatInput, env: Env, fetch: UpstreamRequest -> UpstreamOutcome)
    ensures SendMessage(input, env, fetch).result.Succeeded? <==>
              && Plan(input, env).Call?
              && var o := fetch(Plan(input, env).request);
              o.Received? && o.Ok() && o.body.Parsed? && WellFormed(o.body.data)
  {
    if Plan(input, env).Call? {
      ReceiveSucceeds(Plan(input, env).provider, fetch(Plan(input, env).request));
    }
  }
}
