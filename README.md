# ZY-YD AI API chat dispatch, modelled in Dafny

The gateway serves one GraphQL mutation, `sendMessage`. It takes a chat
message and a model id. It looks the model up in a fixed registry of four
models: two hosted by OpenAI, two by DeepSeek. It checks that the provider's
API key is bound in the Worker environment and fills in default generation
parameters. Then it posts one chat-completion request to that provider and
turns whatever happens into one uniform `ChatResponse`:
`{success, message?, reply?, error?, usage?}`. A companion `models` query
lists the registry.

This project models that path as pure functions and proves what it
guarantees. The one network call is cut out of the resolver:

- `Dispatch.Plan(input, env)` decides whether a request is sent, and which
  one. It returns `Reject(reason)` or `Call(provider, request)`.
- `Dispatch.Finish(provider, message, outcome)` shapes the result from what
  the provider sent back.
- `Dispatch.SendMessage(input, env, fetch)` joins the two around a `fetch`
  supplied by the caller. It returns the result together with the list of
  requests it sent, so "no network call was made" is a provable fact.

JavaScript's three states of a slot are kept apart by
`Js.Value<T> = Undefined | Null | Defined(v)`. This matters in three places:

- Destructuring defaults and default parameters replace only `undefined`. An
  explicit GraphQL `null` temperature therefore reaches the provider as
  `null`.
- `!apiKey` and `a || b` treat `""` as false.
- Reading a property of `undefined` or `null` throws a `TypeError`. The
  resolver catches it and reports it as a failure.

Files:

- `js.dfy`: JavaScript values, property reads, and the decimal text of a status code.
- `registry.dfy`: the model registry and its lookup.
- `params.dfy`: the default temperature and token budget.
- `adapters.dfy`: `callOpenAI` and `callDeepSeek`, with the network call abstracted away.
- `dispatch.dfy`: the `sendMessage` resolver.
- `properties.dfy`: what the resolver guarantees for all inputs.
- `scenarios.dfy`: concrete end-to-end runs against stubbed upstreams.

Points of the code worth knowing, each modelled as written:

- DeepSeek models use the same defaults as OpenAI models: temperature 0.7 and
  1000 tokens (src/index.js:164). There is no provider-specific default.
- A missing key yields `OpenAI API Key 未配置` or `DeepSeek API Key 未配置`
  (src/index.js:194, 204). Neither text names the environment variable.
- A failure result carries no `message` field (src/index.js:179-182,
  225-228). Only a success echoes the input message.
- The reply is passed through as the provider sent it. There is no step that
  strips "thinking" markup from it.
- `response.ok` is derived from the status (200 to 299), as `fetch` defines it.
- `response.json()` runs before the status check. A non-OK response whose
  body is not JSON therefore fails with the JSON parser's message, not with
  `<Provider> API error: <status>` (`DispatchProperties.UnparsableBodySurfaced`).

## Model

| member | source | states |
|---|---|---|
| Registry.Models | src/index.js:45-70 | the `models` query lists four entries with distinct ids, in registry order, each hosted by `openai` or `deepseek` |
| Registry.Find | src/index.js:176 | `find` returns the first entry whose id is exactly the given id; it returns nothing if and only if no entry has that id |
| Registry.Lookup | src/index.js:176 | `AI_MODELS.find` on the registry returns a registry entry with exactly that id, and returns nothing if and only if no entry has it |
| Registry.LookupFinds | src/index.js:45-70 | lookup succeeds for exactly the four registered ids and returns a registry entry carrying that id |
| Registry.LookupProvider | src/index.js:45-70 | the two `gpt-*` ids are tagged `openai` and the two `deepseek-*` ids are tagged `deepseek` |
| Registry.LookupCaseSensitive | src/index.js:176 | the id match is case-sensitive: `GPT-4` and `DeepSeek-Chat` are not found |
| Params.Resolve | src/index.js:164 | an omitted temperature becomes 0.7 and an omitted maxTokens becomes 1000; a supplied value, including `null`, is kept unchanged; the result is never `undefined` |
| Params.ResolveIdempotent | src/index.js:164 | resolving already-resolved parameters changes nothing |
| Params.ExplicitOverrides | src/index.js:164 | explicit numbers, and explicit `null`s, override the defaults exactly |
| Js.Decimal | src/index.js:94 | the text of a status code in a template literal is a non-empty string of decimal digits with no leading zero |
| Js.DecimalRoundTrip | src/index.js:94 | reading the status text back gives the status code |
| Js.DecimalInjective | src/index.js:130 | distinct status codes give distinct texts |
| Adapters.BuildRequest | src/index.js:73-88 | the request goes to the provider's endpoint with `Bearer <key>`; its body holds the model id, one `user` message with the text, and the temperature and max_tokens after the adapter's own defaults |
| Adapters.AdaptersAgreeOnBody | src/index.js:109-124 | `callOpenAI` and `callDeepSeek` build the same body for the same arguments and send it to different endpoints |
| Adapters.StatusErrorText | src/index.js:92-95 | on a non-OK status the thrown message is `error.message` if it is non-empty, otherwise `OpenAI API error: <status>` or `DeepSeek API error: <status>`; it is never empty |
| Adapters.StatusTextDistinguishesStatus | src/index.js:128-131 | the fallback error text determines the status code it reports |
| Adapters.Extract | src/index.js:98-105 | a success body yields a reply exactly when `choices[0].message` and `usage` are present; the reply is `choices[0].message.content` and the three counters are copied from `usage` unchanged; otherwise it throws the `TypeError` of the first missing read, in the order `choices[0]`, `.message`, `.content`, `usage.prompt_tokens` |
| Adapters.Receive | src/index.js:126-141 | a rejected `fetch` or an unparsable body throws its own message; a non-OK status throws the status error text; an OK status goes on to read the body fields |
| Adapters.ReceiveSucceeds | src/index.js:90-105 | an adapter returns a reply if and only if the status is OK, the body is JSON, and the body is well formed |
| Dispatch.ProviderOf | src/index.js:188-214 | the provider branch is OpenAI exactly for the tag `openai` and DeepSeek exactly for the tag `deepseek` |
| Dispatch.HasKey | src/index.js:189-190 | a key counts as configured exactly when the JavaScript slot `env[name]` is truthy: bound and not the empty string (also :199-200) |
| Dispatch.Rejection.Text | src/index.js:179-213 | the early-return texts: `不支持的模型: <id>` ends with the requested id, `不支持的提供商: <tag>` ends with the tag, and the key-missing text starts with the provider's name |
| Dispatch.Plan | src/index.js:164-207 | the resolver up to its network call: it rejects for an unsupported model if and only if lookup finds nothing; it rejects for a missing key only for a registered model whose provider's key is not set; a call goes to the registered model's provider, requires that provider's key, and sends its endpoint, `Bearer <key>`, the input model id, one `user` message with the input text, and the resolved temperature and max_tokens |
| Dispatch.Caught | src/index.js:223-228 | the catch block reports the thrown message, or `服务器内部错误` when that message is empty; the text is never empty |
| Dispatch.Finish | src/index.js:216-228 | after the call, the result is a success exactly when the adapter returns; a success echoes the input message with the adapter's reply and usage; a failure carries the caught message |
| Dispatch.SendMessage | src/index.js:157-230 | the resolver always returns a result; it sends at most one request, and none exactly when it returns early; a failure always has a non-empty error; a success echoes the input message; when a call is planned, the one request sent is the planned request, and the result is what `Finish` makes of the upstream's answer to it |
| DispatchProperties.UnknownModelRejected | src/index.js:176-183 | an unregistered id fails with `不支持的模型: <id>`, whose text ends with that id, and sends nothing |
| DispatchProperties.ModelRejectionIff | src/index.js:176-183 | the resolver rejects for an unsupported model if and only if lookup finds nothing |
| DispatchProperties.OpenAIKeyMissing | src/index.js:188-196 | an OpenAI model with `OPENAI_API_KEY` unset or empty fails with `OpenAI API Key 未配置` and sends nothing |
| DispatchProperties.DeepSeekKeyMissing | src/index.js:198-206 | a DeepSeek model with `DEEPSEEK_API_KEY` unset or empty fails with `DeepSeek API Key 未配置` and sends nothing |
| DispatchProperties.CallIff | src/index.js:176-207 | a request is sent if and only if the id is registered and its provider's key is bound to a non-empty string |
| DispatchProperties.UnsupportedProviderUnreachable | src/index.js:208-214 | the "unsupported provider" branch is never taken for any input or environment |
| DispatchProperties.RejectionIgnoresUpstream | src/index.js:177-206 | when the resolver returns early, its result is the same whatever the upstream would answer, and the request log is empty |
| DispatchProperties.Routing | src/index.js:188-207 | `gpt-*` models go only to the OpenAI endpoint with the OpenAI key; `deepseek-*` models go only to the DeepSeek endpoint with the DeepSeek key |
| DispatchProperties.RequestBodyExact | src/index.js:82-87 | the body sent holds the input model id, exactly one `user` message with the input text, and temperature and max_tokens set to the input values, or to 0.7 and 1000 when omitted |
| DispatchProperties.StatusErrorSurfaced | src/index.js:223-228 | a non-OK JSON response surfaces as `success=false` with the provider's non-empty error message, or else with `<Provider> API error: <status>` |
| DispatchProperties.UnparsableBodySurfaced | src/index.js:126-131 | a body that is not JSON fails with the parser's message whatever the status, because the status is checked only after parsing |
| DispatchProperties.NetworkErrorSurfaced | src/index.js:163 | a rejected `fetch` surfaces its message, or `服务器内部错误` when that message is empty |
| DispatchProperties.SuccessCopiesVerbatim | src/index.js:217-222 | on success the result echoes the input message; its reply is `choices[0].message.content` and its usage counters are the provider's, copied with no arithmetic |
| DispatchProperties.MalformedBodyFails | src/index.js:99-103 | an OK body missing `choices`, its first element, that element's `message`, or `usage` fails with the `TypeError` text of the first missing read (`choices` read at `[0]`, then the first element's `.message`, then `.content` of a missing message, then `usage.prompt_tokens`) and does not throw past the resolver |
| DispatchProperties.SuccessIff | src/index.js:157-230 | the result is a success if and only if a request was sent and answered with an OK status and a well-formed JSON body |
| Scenarios.HelloFromGpt4 | src/index.js:197 | `gpt-4` with the OpenAI key set sends one request with defaults 0.7 and 1000 and returns reply `hello` with usage 1, 1, 2 |
| Scenarios.UnknownModel | src/index.js:181 | `unknown-model` fails with `不支持的模型: unknown-model` and sends nothing |
| Scenarios.DeepSeekWithoutKey | src/index.js:204 | `deepseek-chat` with an empty DeepSeek key fails with the DeepSeek key message, even when the OpenAI key is set |
| Scenarios.RateLimited | src/index.js:130 | a 429 response with error message `rate limited` fails with exactly that text; the request carries the supplied temperature and the default token budget |
| Scenarios.ServiceUnavailable | src/index.js:94 | a 503 response with an empty error message fails with `OpenAI API error: 503` |

## Left out

- `fetch` is an input to `SendMessage`, not modelled. So are the `Content-Type` header and JSON serialisation and parsing (src/index.js:76-90, 112-126). The outcome of a call is an abstract value: a rejected `fetch` with its message, or a status with a parsed body or the parser's error message.
- Parsed bodies are always JSON objects whose `error.message` and `content` are strings or absent. Non-object JSON bodies such as `null`, a non-array `choices`, and non-string messages are not modelled.
- The `TypeError` text for a missing field is the V8 runtime's wording. The wording comes from the runtime, not from this repository.
- Temperature is an exact `real` that is only passed along. Floating-point behaviour and GraphQL's `Float` and 32-bit `Int` coercion of temperature, maxTokens and the usage counters are not modelled.
- All `console.log` and `console.error` logging is left out, including the key-length report (src/index.js:168-173). It has no effect on results.
- The GraphQL schema text, the Yoga server, CORS, the GraphiQL settings and the `hello` query (src/index.js:1-42, 147-150, 234-255) are framework wiring and are not modelled.
- The Workers `fetch` handler and its 500 response (src/index.js:257-281) are transport plumbing and are not modelled.
- `async`/`await` is not modelled. The path is sequential with one suspension point, so it is modelled as a plain function call.
- Timeouts, retries and cancellation are not modelled. The code has none.
