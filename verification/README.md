# unified-model-caller, modelled in Dafny

The Python package `unified_model_caller` gives one entry point, `LLMCaller`, for
sending a single-turn text prompt to one of five LLM providers: OpenAI, Anthropic,
Google, xAI and a self-hosted endpoint called Aristote. This project models the
package's dispatch and normalisation layer and proves properties of that model.
The layer has three parts:

- **Service names.** `Service.from_str` looks up a provider name. The match is
  case-insensitive and exact. `__str__` prints a member as its value.
- **The handler table.** The `@_handler` / `@_collect_handlers` decorators build a
  table from services to handler methods. `_dispatch` looks up that table. `call`
  passes the outcome through unchanged.
- **The five handlers.** The OpenAI, Anthropic and Google handlers check their API
  key, build a request, and turn the provider's reply into a string or into one of
  the package's exceptions. The Aristote handler sends its request with no key
  check. The xAI handler sends nothing and raises `NotImplementedError`.

Files, one module each:

- `text.dfy` (`AsciiText`): ASCII lowering and uppercasing, case variants, and
  substring containment.
- `errors.dfy` (`Errors`): the exception kinds, plus `Result` and `Option`.
- `enums.dfy` (`Enums`): `Service`, `Value`/`ToString` and `FromStr`.
- `registry.dfy` (`Registry`): the decorator declarations as a list, and the fold
  that turns them into the table.
- `adapters.dfy` (`Adapters`): the five handlers.
- `core.dfy` (`Core`): the caller record, construction, `_dispatch` and `call`.

The SDK and HTTP calls are not modelled. Each provider is a function parameter that
takes the request the handler built and returns either a reply or the exception the
provider's library raised. Every handler returns an `Exchange`: the request it handed
to the provider (if it sent one) and its result. This lets the model state "no
request is made when the key is missing". The environment read by `os.getenv` is a
`map<string, string>` parameter.

## Model

| member | source | states |
|---|---|---|
| Enums.ToString | src/unified_model_caller/enums.py:20-21 | The printed form of every member looks that member up again: `from_str(str(m)) == m`. |
| Enums.Scan | src/unified_model_caller/enums.py:15-17 | The loop of `from_str` only returns a candidate whose lowered value equals the lowered input. It finds nothing only if no candidate matches. |
| Enums.FromStr | src/unified_model_caller/enums.py:14-18 | `from_str` succeeds exactly when some member's value equals the input up to case. The member it returns matches the input up to case. Otherwise it raises `InvalidServiceError`, and the message contains the input string. |
| Enums.LoweredValuesDistinct | src/unified_model_caller/enums.py:7-11 | No two members' values are equal after lowering. So at most one member matches any input, and iteration order cannot change the result. |
| Enums.FromStrMatches | src/unified_model_caller/enums.py:15-17 | `from_str(s)` is member `m` if and only if `s` and `m.value` are equal after lowering. |
| Enums.RoundTrip | src/unified_model_caller/enums.py:14-21 | For every member, `from_str(m.value) == m` and `from_str(str(m)) == m`. |
| Enums.CaseVariantAccepted | src/unified_model_caller/enums.py:15-17 | Every ASCII case variant of a member's value resolves to that member. |
| Enums.LowerAndUpperAccepted | src/unified_model_caller/enums.py:15-17 | The all-lowercase and all-uppercase spellings of each value both resolve to that member. |
| Enums.PreLoweringInvariant | src/unified_model_caller/enums.py:16-18 | Lowering the input first does not change whether the lookup succeeds, or which member it finds. On failure both lookups raise `InvalidServiceError`. |
| Enums.MatchIsExact | src/unified_model_caller/enums.py:16 | An accepted input has exactly the length of the member's value. So no proper prefix or extension of a value is accepted. |
| Enums.NearMissesRejected | src/unified_model_caller/enums.py:16-18 | `"open"`, `"openai-x"` and `"not-a-service"` are all rejected. |
| AsciiText.CaseVariantIffSameLower | src/unified_model_caller/enums.py:16 | Two strings are ASCII case variants of each other if and only if they lower to the same string. This is the equality the lookup uses. |
| AsciiText.ContainsMiddle | src/unified_model_caller/enums.py:18 | A string spliced into an f-string message occurs in the message. |
| Registry.Assign | src/unified_model_caller/core.py:17-18 | The inner loop writes the handler under every listed service. It leaves every other entry of the table as it was. |
| Registry.CollectHandlers | src/unified_model_caller/core.py:12-19 | A service is in the collected table exactly when some decorated method lists it. |
| Registry.LastDeclarationWins | src/unified_model_caller/core.py:14-18 | Each service in the table maps to the handler of the last decorated method that lists it. |
| Registry.UniqueDeclarationWins | src/unified_model_caller/core.py:12-25 | A service listed by exactly one decorated method maps to that method, wherever the method stands in the class body. |
| Registry.DeclarationIndex | src/unified_model_caller/core.py:63-140 | The five `@_handler` decorations at lines 63, 78, 96, 126 and 140 each list one service. Every service is listed by the decoration at its index and by no other. |
| Registry.HandlersTotal | src/unified_model_caller/core.py:12-19 | The built table contains every service. OpenAI maps to `_call_openai`, Anthropic to `_call_anthropic`, Google to `_call_google`, Aristote to `_call_aristote` and xAI to `_call_unsupported`. |
| Adapters.OpenAIText | src/unified_model_caller/core.py:73-76 | A null first-choice content raises `ApiCallError`, and the message names the model. Any other content is returned unchanged. |
| Adapters.OpenAIAdapter | src/unified_model_caller/core.py:64-76 | A request is made exactly when `OPENAI_API_KEY` is set and non-empty. Otherwise the result is `ValueError`. The request is one user message holding the prompt, addressed to the model. Library exceptions propagate unchanged. A reply is reduced by `OpenAIText`. |
| Adapters.TextBlocks | src/unified_model_caller/core.py:91 | A block is in the result exactly when it is a text block of the input. The head of the result is the first text block of the input. |
| Adapters.TextBlocksConcat | src/unified_model_caller/core.py:91 | The filter distributes over concatenation. With `Adapters.TextBlocksSingle`, this fixes the result as the input's text blocks in their original order, with repeats kept. |
| Adapters.TextBlocksSingle | src/unified_model_caller/core.py:91 | A single block is kept exactly when its type is "text". |
| Adapters.AnthropicText | src/unified_model_caller/core.py:91-94 | The result succeeds exactly when some block has type "text". Its value is the text of the first such block. Otherwise it is `ApiCallError` naming the model. |
| Adapters.NonTextBlockIgnored | src/unified_model_caller/core.py:91 | Inserting a non-text block anywhere does not change the filtered list. |
| Adapters.AnthropicIgnoresNonText | src/unified_model_caller/core.py:91-94 | Non-text blocks never affect the Anthropic result. |
| Adapters.AnthropicAdapter | src/unified_model_caller/core.py:79-94 | A request is made exactly when `ANTHROPIC_API_KEY` is set. Otherwise the result is `ValueError`. The request is one user message with the prompt and the model, and `max_tokens` is 10000. Library exceptions propagate unchanged. A reply is reduced by `AnthropicText`. |
| Adapters.GoogleText | src/unified_model_caller/core.py:118 | The result is empty exactly when the response text is null or empty. Otherwise it is that text. |
| Adapters.GoogleAdapter | src/unified_model_caller/core.py:97-122 | A missing `GOOGLE_API_KEY` raises `ValueError`, unwrapped, and no request is made. The request is one user turn with the prompt and the model. Every `Exception` raised while calling becomes `ApiCallError`, and its message contains the original message. A class deriving only from `BaseException` (such as `KeyboardInterrupt`) passes `except Exception` and stays the same `ForeignError`. A reply always succeeds, with the normalised text. |
| Adapters.AristoteAdapter | src/unified_model_caller/core.py:127-137 | A request is always made, with no key check. It is one user message with the prompt and the model. Library exceptions propagate unchanged. A reply yields the content of its first choice. |
| Adapters.UnsupportedAdapter | src/unified_model_caller/core.py:141-145 | Nothing is sent. The result is always `NotImplementedError`, and the message names the service. |
| Core.NewCaller | src/unified_model_caller/core.py:43-54 | Construction succeeds exactly when some member matches the service name up to case. On success it keeps the model verbatim. On failure it raises `InvalidServiceError`, and the message names the lowered input. |
| Core.NewCallerResolves | src/unified_model_caller/core.py:53-54 | Construction succeeds exactly when `from_str(service.lower())` succeeds. It then holds `from_str(service)` and the model as given. |
| Core.RunHandler | src/unified_model_caller/core.py:61 | Whatever the handler, any request it sends is a single user turn with the prompt and the caller's model. It never raises the dispatcher's `RuntimeError` or the constructor's `InvalidServiceError`; a library exception of any class stays a `ForeignError` (or, in the Google handler, becomes an `ApiCallError`). The Aristote handler always sends. The unsupported handler never sends and always raises `NotImplementedError`. |
| Core.DispatchWith | src/unified_model_caller/core.py:56-61 | A service missing from the table raises `RuntimeError` naming the service, and nothing is sent. Otherwise the outcome is exactly that of the table's handler. |
| Core.Dispatch | src/unified_model_caller/core.py:56-61 | `_dispatch` over the class's own table reaches the intended handler for every caller's service. So the "no handler" `RuntimeError` never occurs. |
| Core.Call | src/unified_model_caller/core.py:148-163 | `call` returns exactly the outcome of the intended handler for the caller's service. Success and failure, and the error's kind and message, are all unchanged. The "no handler" `RuntimeError` never occurs. xAI always raises `NotImplementedError` without sending anything. Every request sent is a single user turn with the prompt and the caller's model. |

## Left out

- SDK and HTTP calls (`openai.OpenAI`, `anthropic.Anthropic`, `genai.Client`,
  `requests.post`): foreign I/O, modelled as function parameters that return a reply
  or a raised exception. An exception raised by those libraries is
  `ForeignError(kind, message)`, whatever its class. A flag on the raised exception
  records whether that class derives from `Exception` or only from `BaseException`;
  only the Google handler's `except Exception` looks at it.
- `os.getenv`: the environment is a map parameter. A variable counts as set when it
  is present and non-empty, matching Python's `not os.getenv(...)`.
- The `print` calls in `call` and `_call_google`: logging with no effect on results.
- Decorator and `__dict__` reflection: replaced by the explicit `Declared` list. Class
  attributes without a `_services` tag (such as `__init__`, `_dispatch` and `call`)
  are simply not in the list.
- Adapters.OpenAIAdapter: assumes the completion has at least one choice (the reply
  type requires it). The `IndexError` that `choices[0]` would raise on an empty list
  is not modelled.
- Adapters.AristoteAdapter: models only a JSON answer whose first choice has string
  content. The model excludes the other shapes through its types.
  - A missing or `null` `choices` or `message`, or an empty `choices` list, makes
    the chained `.get(...)[0]` raise a Python runtime error.
  - A body that is not JSON makes `response.json()` raise.
  - A missing or `null` `content` raises nothing: `.get("content")` returns `None`,
    and `call` hands that `None` back as a success.
  - `AristoteChoice.content` is a `string` and the result is a `Result<string>`, so
    this successful `None` cannot be represented. None of these cases is modelled.
- Adapters.GoogleAdapter: `genai.Client(api_key=...)` is built outside the `try`.
  An exception from that constructor would escape unwrapped, and this is not
  modelled. The key is passed to the client, not in the request.
- AsciiText.Lower: Python's `str.lower()` is Unicode-aware, but the model lowers
  only ASCII letters. This does not change which names are accepted.
  - The only non-ASCII character that `str.lower()` maps to an ASCII string is
    U+212A KELVIN SIGN, which maps to `k`. No service value contains `k`.
  - U+0130 lowers to `i` followed by a combining dot. That result is not ASCII, so
    it cannot equal a lowered service value.
  - So the ASCII-only lowering accepts exactly the names Python accepts.
  - The gap shows only in the text of the `InvalidServiceError` message that
    `NewCaller` builds from the lowered name, for non-ASCII input.
- `InvalidModelError`: declared in `errors.py:6-9` but never raised, so it has no
  constructor.
- Cooldown tables, a `wait_cooldown` operation, a per-service "requires a token"
  flag, an `api_key` constructor argument and an overload error classified by an
  "overloaded" substring are not in the package's code. They are not modelled.
- The concrete request formats of each SDK (the `MessageParam` object,
  `g_types.Content` with parts, the Aristote JSON body and endpoint URL) are all
  reduced to one `ChatRequest` of model, messages and optional `max_tokens`.
