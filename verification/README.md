# OpenCommit OpenAI engine: request pipeline model

A Dafny model of the decision logic in `src/engine/openAi.ts` of OpenCommit,
the engine that turns chat messages into a generated commit message through
an OpenAI-compatible completion endpoint. It covers three parts:

- **Settings** (`Config`): the token limits, provider type and model come
  from the configuration. An absent or falsy value falls back to a default
  (`||`): a limit falls back when it is absent or 0, a string when it is
  absent or empty.
- **Client configuration** (`Client`): the provider switch of the `OpenAi`
  constructor.
  - Azure gets an `api-key` header and an `api-version` query parameter. A
    non-empty base path gets `openai/deployments/<model>` appended, with no
    separator inserted.
  - Every other provider type uses a non-empty base path as it is.
- **One call of `generateCommitMessage`** (`Tokens`, `Pipeline`, `Machine`):
  1. The request cost is the sum over messages of `tokenCount(content) + 4`.
  2. If the cost is strictly more than `maxInput - maxOutput`, the call is
     rejected with `tooMuchTokens` and nothing is sent.
  3. Otherwise the request is sent exactly once. The result is the first
     choice's `message?.content`.
  4. Every failure prints the request and the error, and then re-throws the
     same error. A 401 whose `error.response.data` is present also prints
     the provider's message (when there is one) and the setup pointer; an
     empty HTTP body arrives as `""` and counts as present. A 401 whose
     `data` is null or undefined fails while reading `data.error`: the catch
     block throws that type error instead of the caught one, and prints no
     setup pointer.

  `Machine` is a step-by-step state machine of the same call. It builds the
  request, reads the first choice's content and prints each diagnostic line
  itself. It shares with `Pipeline` only the data types (`Params`,
  `Failure`, `Diagnostic`, the transport answer) and the per-message cost
  `Tokens.MessageTokens`. It is proved to end in the run that
  `Pipeline.Generate` describes.

Abstractions:
- The tokenizer is a parameter `tokenCount: string -> nat`.
- The completion endpoint is a parameter
  `transport: Params -> TransportOutcome`. Each request handed to it is
  recorded in the run's `calls`.
- Diagnostics are abstract tokens: `ParamsDump`, `ErrorLine`,
  `ProviderMessage` and `SetupPointer`.

Two behaviours of the code worth stating plainly:
- The code does not classify errors. It re-throws the caught error
  unchanged; the only distinction it makes is the 401 branch, which decides
  the extra diagnostic lines (`Pipeline.Unauthorized`).
- The code does not enforce positive token limits.
  `Config.ResolvedLimitsPositive` states when the resolved limits are
  positive. `Pipeline.NoRoomForMessages` states what happens when they leave
  no room.

## Model

| member | source | states |
|---|---|---|
| Config.Resolve | src/engine/openAi.ts:22-47 | limits, provider type and model take the configured value when truthy and the default (`DEFAULT_TOKEN_LIMITS`, `'openai'`, `'gpt-3.5-turbo'`) otherwise; model and provider type are never empty; base path, key and API version pass through unchanged |
| Config.ResolveIsFixpoint | src/engine/openAi.ts:22-27 | feeding the effective settings back as configuration reproduces them, whatever the defaults then are, when the defaults are non-zero |
| Config.FalsyIsAbsent | src/engine/openAi.ts:22-47 | key by key, a zero limit, an empty provider type or an empty model resolves exactly as if that key were absent; an empty provider type gives `openai` and an empty model `gpt-3.5-turbo` |
| Config.ResolvedLimitsPositive | src/engine/openAi.ts:22-23 | with positive defaults and non-negative configured limits both effective limits are positive |
| Client.Configure | src/engine/openAi.ts:50-76 | the key is always carried; the provider type `"azure"` sets exactly `api-key = apiKey` and `api-version = azureApiVersion`, every other provider type no base options; a base path is set iff the configured one is non-empty, as `basePath + "openai/deployments/" + model` for `"azure"` and verbatim otherwise |
| Client.UnknownProviderActsAsOpenAi | src/engine/openAi.ts:70-75 | any provider type other than `azure` configures the client exactly as `openai` does, with no extra headers or parameters |
| Client.BaseOptionsOnlyForAzure | src/engine/openAi.ts:57-65 | base options exist iff the provider type is `azure`, and then hold exactly the `api-key` header and the `api-version` parameter |
| Client.AzureExample | src/engine/openAi.ts:57-68 | Azure with base path `https://x.example/` and model `gpt-4` yields `https://x.example/openai/deployments/gpt-4` and the raw key under `api-key` |
| Tokens.RequestTokens | src/engine/openAi.ts:91-93 | the left-to-right fold of per-message costs is 0 for no messages and at least 4 per message |
| Tokens.RequestTokensIsSum | src/engine/openAi.ts:91-93 | the fold equals the sum over the messages of `tokenCount(content) + 4` |
| Tokens.RequestTokensAppend | src/engine/openAi.ts:91-93 | the cost of concatenated prompts is the sum of their costs |
| Tokens.OverheadOnlyIffEmptyContents | src/engine/openAi.ts:92 | the cost equals `4 * |messages|` iff the tokenizer counts zero tokens in every message |
| Tokens.RejectionSurvivesExtension | src/engine/openAi.ts:91-97 | a prompt over budget stays over budget with messages added before or after it |
| Pipeline.Generate | src/engine/openAi.ts:80-124 | no request is sent iff the cost exceeds `maxInput - maxOutput`, and then `tooMuchTokens` is thrown; otherwise exactly one request with the model, the unchanged messages, temperature 0, top_p 0.1 and `maxOutput`; a non-empty completion within budget returns its first choice's content with nothing printed, and only such a completion returns; an empty completion throws the missing-choice error; a transport error other than a 401 is printed and re-thrown unchanged; every failure prints the request then the caught error; a 401 whose `data` is present prints the provider message when non-empty and the setup pointer and re-throws; a 401 whose `data` is null or undefined throws the type error of reading it after exactly those two lines; the setup pointer is printed iff a 401 error is re-thrown; other failures print nothing more |
| Pipeline.RejectionIgnoresTransport | src/engine/openAi.ts:95-99 | a rejected prompt gives the same run for every transport, printing the request and the `tooMuchTokens` error |
| Pipeline.OnlyTheRequestMatters | src/engine/openAi.ts:99 | transports that answer the built request alike give identical runs |
| Pipeline.ExactFitIsDispatched | src/engine/openAi.ts:95-99 | a cost exactly equal to `maxInput - maxOutput` is sent |
| Pipeline.NoRoomForMessages | src/engine/openAi.ts:91-97 | when the input limit does not exceed the output limit, a request is sent iff the limits are equal and the prompt is empty |
| Pipeline.TransportErrorIsRethrown | src/engine/openAi.ts:104-122 | a transport error within budget is never returned: the request and the error are printed, and the error is re-thrown unchanged unless (iff) it is a 401 whose `data` is null or undefined |
| Pipeline.UnauthorizedTrace | src/engine/openAi.ts:104-122 | a 401 whose `data` is present prints the request, the error, the provider message only when non-empty, then the setup pointer, and re-throws the error |
| Pipeline.UnauthorizedWithoutData | src/engine/openAi.ts:104-114 | a 401 whose `data` is null or undefined prints the request and the error, then throws the type error of reading `data.error`, with no setup pointer |
| Pipeline.AbsentMessageVersusNoChoice | src/engine/openAi.ts:101-103 | an empty `choices` array fails; a first choice with no message returns `undefined` with nothing printed |
| Pipeline.InvalidKeyExample | src/engine/openAi.ts:110-119 | a 401 whose `data.error.message` is `invalid_api_key` puts that text on the diagnostic channel |
| Pipeline.SuccessExample | src/engine/openAi.ts:99-103 | a completion whose first choice says `fix: correct null check` returns exactly that text |
| Machine.CountingPhase | src/engine/openAi.ts:91-93 | counting the messages one at a time ends with the request-token total |
| Machine.CatchPhase | src/engine/openAi.ts:104-122 | the catch block run line by line prints the lines of `Pipeline.Report` and leaves with the error it names |
| Machine.AfterCounting | src/engine/openAi.ts:95-122 | from the counted total, the budget check, the dispatch, the answer and the catch block end in `Generate`'s run |
| Machine.MachineAgreesWithGenerate | src/engine/openAi.ts:80-124 | the step-by-step machine, started idle, terminates within `|messages| + 8` steps in the outcome, diagnostics and requests of `Generate` |
| Machine.AtMostOneRequest | src/engine/openAi.ts:90-99 | from any consistent state, any number of steps leaves at most one request, and none before the budget check |

## Left out

- Lines 29-45, the startup guard: it reads `process.argv` and exits the process when no API key is set. This is process state, not engine logic.
- Line 77, building `OpenAIApi`: the HTTP client itself is outside the model. An unset `basePath` means the library's default endpoint.
- `createChatCompletion`, axios and the `await`: the call is the deterministic parameter `transport`. Retries, cancellation and concurrent calls are not modelled.
- `tokenCount`, `getConfig` and the values of `DEFAULT_TOKEN_LIMITS`: their source is not part of this model. They are a function parameter, a `RawConfig` value and a `DefaultTokenLimits` value.
- A `getConfig()` that returns nothing: it is treated as a `RawConfig` with every key absent.
- The string value of `GenerateCommitMessageErrorEnum.tooMuchTokens`: it is not part of this model. It is the abstract `Failure.TooMuchTokens`.
- Console output (`outro`, `chalk`, `JSON.stringify`, `err?.message || err`): lines are abstract `Diagnostic` values, not text.
- `temperature` and `top_p`: they are the exact reals 0 and 1/10, not IEEE doubles. No arithmetic is done on them.
- Config.Resolve: limits and request costs are exact integers, while JavaScript computes them as doubles. So `NaN`, `Infinity` (which never rejects), fractional limits (which move the cut-off at line 95) and sums beyond 2^53 are not modelled.
- Pipeline.Generate: an error thrown by `tokenCount` itself is not modelled, because the tokenizer is a total function here.
