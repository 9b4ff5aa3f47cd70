/**
  Concrete end-to-end runs of `sendMessage` against a stubbed upstream that
  answers every request the same way.
 */
module Scenarios {
  import opened Js
  import opened Params
  import opened Adapters
  import opened Dispatch
  import DispatchProperties

  /** An upstream that gives `o` whatever it is asked. */
  function Always(o: UpstreamOutcome): UpstreamRequest -> UpstreamOutcome {
    _ => o
  }

  /** `{"choices":[{"message":{"content":"hello"}}],"usage":{"prompt_tokens":1,"completion_tokens":1,"total_tokens":2}}` */
  const HelloData: ResponseData := ResponseData(
    Undefined,
    Defined([Defined(Choice(Defined(ChoiceMessage(Defined("hello")))))]),
    Defined(UsageObject(Defined(1), Defined(1), Defined(2))))

  /** `gpt-4` with the OpenAI key set: one request with the defaults, and the reply and usage copied. */
  lemma HelloFromGpt4()
    ensures SendMessage(ChatInput("hi", "gpt-4", Undefined, Undefined), map["OPENAI_API_KEY" := "sk-1"],
                        Always(Received(200, Parsed(HelloData))))
         == Exchange(
              Succeeded("hi", Defined("hello"), Usage(Defined(1), Defined(1), Defined(2))),
              [UpstreamRequest("https://api.openai.com/v1/chat/completions", "Bearer sk-1",
                               RequestBody("gpt-4", [ChatMessage("user", "hi")], Defined(0.7), Defined(1000)))])
  {
    var input, env := ChatInput("hi", "gpt-4", Undefined, Undefined), map["OPENAI_API_KEY" := "sk-1"];
    Registry.LookupFinds("gpt-4");
    Registry.LookupProvider("gpt-4");
    DispatchProperties.Routing(input, env);
    DispatchProperties.RequestBodyExact(input, env);
    var request := Plan(input, env).request;
    assert request == UpstreamRequest("https://api.openai.com/v1/chat/completions", "Bearer sk-1",
                                      RequestBody("gpt-4", [ChatMessage("user", "hi")], Defined(0.7), Defined(1000)));
    DispatchProperties.SuccessCopiesVerbatim(input, env, Always(Received(200, Parsed(HelloData))), 200, HelloData);
  }

  /** An unregistered id: a failure naming it, and no request. */
  lemma UnknownModel()
    ensures SendMessage(ChatInput("hi", "unknown-model", Undefined, Undefined), map[],
                        Always(NetworkError("unreachable")))
         == Exchange(Failed("不支持的模型: unknown-model"), [])
  {
    Registry.LookupFinds("unknown-model");
    DispatchProperties.UnknownModelRejected(ChatInput("hi", "unknown-model", Undefined, Undefined), map[],
                                            Always(NetworkError("unreachable")));
  }

  /** `deepseek-chat` with only an empty DeepSeek key: the DeepSeek key message, and no request. */
  lemma DeepSeekWithoutKey()
    ensures SendMessage(ChatInput("hi", "deepseek-chat", Defined(0.9), Null),
                        map["DEEPSEEK_API_KEY" := "", "OPENAI_API_KEY" := "sk-1"],
                        Always(NetworkError("unreachable")))
         == Exchange(Failed("DeepSeek API Key 未配置"), [])
  {
    DispatchProperties.DeepSeekKeyMissing(ChatInput("hi", "deepseek-chat", Defined(0.9), Null),
                                          map["DEEPSEEK_API_KEY" := "", "OPENAI_API_KEY" := "sk-1"],
                                          Always(NetworkError("unreachable")));
  }

  /** HTTP 429 with `{"error":{"message":"rate limited"}}`: the provider's message, and one request. */
  lemma RateLimited()
    ensures var x := SendMessage(ChatInput("hi", "deepseek-coder", Defined(0.9), Undefined),
                                 map["DEEPSEEK_API_KEY" := "sk-2"],
                                 Always(Received(429, Parsed(ResponseData(Defined(ErrorObject(Defined("rate limited"))), Undefined, Undefined)))));
      && x.result == Failed("rate limited")
      && |x.sent| == 1
      && x.sent[0].endpoint == "https://api.deepseek.com/chat/completions"
      && x.sent[0].body.temperature == Defined(0.9)
      && x.sent[0].body.maxTokens == Defined(1000)
  {
    var input, env := ChatInput("hi", "deepseek-coder", Defined(0.9), Undefined), map["DEEPSEEK_API_KEY" := "sk-2"];
    var data := ResponseData(Defined(ErrorObject(Defined("rate limited"))), Undefined, Undefined);
    Registry.LookupFinds("deepseek-coder");
    Registry.LookupProvider("deepseek-coder");
    DispatchProperties.CallIff(input, env);
    DispatchProperties.Routing(input, env);
    DispatchProperties.RequestBodyExact(input, env);
    DispatchProperties.StatusErrorSurfaced(input, env, Always(Received(429, Parsed(data))), 429, data);
  }

  /** HTTP 503 with an empty error message: the status fallback text. */
  lemma ServiceUnavailable()
    ensures SendMessage(ChatInput("hi", "gpt-3.5-turbo", Undefined, Defined(50)), map["OPENAI_API_KEY" := "sk-1"],
                        Always(Received(503, Parsed(ResponseData(Defined(ErrorObject(Defined(""))), Undefined, Undefined))))).result
         == Failed("OpenAI API error: 503")
  {
  }
}
