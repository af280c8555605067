# Chat service core — a Dafny model

This project models the two pieces of the chat service that make decisions:

* `chat(...)` (services/chat_service/app/core/chat.py) routes one chat request.
  It runs four steps in order:
  1. an optional retrieval-augmentation step, which checks the conversation and
     replaces it with one templated user turn holding the retrieved fragments and
     the question;
  2. resolution of a model alias against the `aliases` table of `models.json`;
  3. the completion request to `"{provider}/{model}"`, which in json mode adds a
     `response_format` flag and appends a system instruction to the outgoing list;
  4. normalisation of the response, or of the exception raised, into one
     response envelope.
* `validate_startup()` (services/chat_service/app/core/startup.py) is the startup
  gate. The configuration must exist and declare aliases. Every distinct provider
  those aliases name must have a non-empty `{PROVIDER}_API_KEY` variable and must
  answer a one-message probe.

Modules, leaves first:

* `Wrappers` — `Option`, and `Field` (`Absent | Null | Val`). A `Field` is a
  dictionary key: missing, present with `None`, or present with a value.
* `Text` — Python's `str.join`, `split('/')[0]` and ASCII `str.upper`, with
  lemmas on where the parts end up.
* `Messages` — chat turns, and the Python list object `MessageList` that the
  json-mode branch appends to in place.
* `ModelConfig` — the parsed `models.json` and alias resolution.
* `Rag` — the retrieval precondition, the context join, the prompt template,
  and the retriever as an oracle object that logs its queries.
* `Gateway` — completion parameters, the request, the completion library as an
  oracle object that logs its requests, and the outcome of a call.
* `Normalizer` — the envelope, with one `Field` per dictionary key, and the
  mapping of each outcome to it.
* `ChatCore` — the orchestration:
  * `ChatSpec` is a pure function giving everything one call does that a caller
    can observe;
  * `Chat` is the imperative method, including the aliasing between the caller's
    list and the outgoing list;
  * the properties are proved about `ChatSpec`.
* `Startup` — the configuration checks, the key name, probe-model selection, and
  the provider loop with its invariant.

Three facts about the code that the model keeps:

* **Check order.** The retrieval check and the retrieval itself run before alias
  resolution (chat.py:38-63, then 67-90). So `INVALID_INPUT` wins over
  configuration errors, and the retriever is queried even when the alias then
  fails to resolve.
* **INVALID_INPUT keys.** The `INVALID_INPUT` envelope has no `provider` or
  `model` key at all (chat.py:40-43), not null ones.
* **`stream`.** The flag is forwarded as the caller gave it (chat.py:106).

## Model

| member | source | states |
|---|---|---|
| ModelConfig.Resolve | services/chat_service/app/core/chat.py:69-90 | A missing file, and only that, is a configuration error. The result is `Resolved(p, m)` exactly when the file's `aliases[alias]` entry has provider `p` and model `m`. It is "alias not found" exactly when the file exists but declares no complete entry for the alias: `aliases` missing, alias unknown, or `provider`/`model` missing. |
| ModelConfig.ResolveReadsOwnEntry | services/chat_service/app/core/chat.py:73-75 | Changing any other alias's entry does not change how an alias resolves. |
| Text.JoinPlacesPart | services/chat_service/app/core/chat.py:52 | In `sep.join(parts)`, part `i` appears verbatim at its offset: the lengths of the earlier parts plus one separator after each. |
| Text.JoinPlacesSeparator | services/chat_service/app/core/chat.py:52 | Right after every part but the last, `sep.join(parts)` holds the separator. |
| Text.JoinLength | services/chat_service/app/core/chat.py:52 | The join ends where its last part ends. |
| Text.JoinContainsEveryPart | services/chat_service/app/core/chat.py:52 | Every part occurs in the joined string. |
| Rag.Context | services/chat_service/app/core/chat.py:52 | The context is the fragments joined with a blank line: each fragment sits verbatim at its offset, `"\n\n"` follows every fragment but the last, and the block ends with the last fragment. It is empty when nothing was retrieved. |
| Rag.RagPrompt | services/chat_service/app/core/chat.py:55-60 | The prompt is the fixed instruction head, then the context, then the question label and the query. Each piece sits at its stated offset, and the length is the sum of the pieces. |
| Rag.ComposeRag | services/chat_service/app/core/chat.py:45-63 | The composed conversation is exactly one user turn. Its content is the prompt template filled with the joined context and the query, and it contains the query and every retrieved fragment. |
| Rag.PromptQuotesQueryAndFragments | services/chat_service/app/core/chat.py:52-60 | The filled template quotes the query and every fragment verbatim. |
| Rag.Retriever.GetRelevantDocuments | services/chat_service/app/core/chat.py:48-49 | Returns the oracle's fragments for the query and logs the query. |
| Text.BeforeFirstSlash | services/chat_service/app/core/chat.py:123 | `s.split('/')[0]` is a prefix of `s` with no `/`, and it stops at the first `/` or at the end of `s`. |
| Text.BeforeFirstSlashOfJoined | services/chat_service/app/core/chat.py:96-123 | For a provider without `/`, splitting `provider + "/" + model` recovers the provider. |
| Gateway.Identifier | services/chat_service/app/core/chat.py:96 | The identifier starts with the provider and `/`, has the model right after the slash and nothing after it, and a `/`-free provider is what `split('/')[0]` gives back. |
| Gateway.JsonModeAddsOneSystemTurn | services/chat_service/app/core/chat.py:111-113 | Json mode keeps the outgoing turns as they were and appends exactly one turn, the system instruction, as the last message, adding one to the system-turn count. Otherwise nothing changes. |
| Gateway.BuildRequest | services/chat_service/app/core/chat.py:96-112 | The request's model is `provider + "/" + model`, and the request carries the list as sent. It forwards temperature, top_p, max_tokens, seed, stream and timeout unchanged, and sets `response_format` to `json_object` exactly in json mode. |
| Gateway.CompletionClient.Completion | services/chat_service/app/core/chat.py:115 | Returns the oracle's outcome for the request and logs the request. |
| Messages.MessageList.Append | services/chat_service/app/core/chat.py:113 | Appending adds the message at the end of the list object and changes nothing else in it. |
| Normalizer.InvalidInputEnvelope | services/chat_service/app/core/chat.py:39-43 | An `INVALID_INPUT` envelope is well formed, carries the request id and the fixed message, and has no provider or model key. |
| Normalizer.WireCodesDistinct | services/chat_service/app/core/chat.py:41-155 | Distinct error codes have distinct wire strings. |
| Normalizer.ResolutionFailure | services/chat_service/app/core/chat.py:77-90 | `CONFIG_ERROR` ("Config file not found") exactly for a missing file, otherwise `MODEL_ALIAS_NOT_FOUND` with a message naming the alias. Provider and model are null. |
| Normalizer.FailureEnvelope | services/chat_service/app/core/chat.py:139-159 | Every failure envelope has an error with the given code, no output text, and the request id. |
| Normalizer.Normalize | services/chat_service/app/core/chat.py:117-159 | There is output text exactly when the response can be read. On success the envelope has the first choice, the reported model verbatim, the reported model's text before the first `/` as provider, the usage verbatim, the latency, and a null cost. Otherwise the envelope is `TIMEOUT_ERROR` for a timeout and `AUTH_ERROR` for an authentication failure, each with its fixed message, and `PROVIDER_ERROR` for anything else (including a response missing its choices or usage), under the configured provider and model. A `PROVIDER_ERROR` carries the exception text: the one raised, or the `IndexError` text for a response without choices, or the `AttributeError` text for one without usage. Exactly one of output text and error is present. |
| ChatCore.ChatSpec | services/chat_service/app/core/chat.py:18-159 | Every envelope a chat call returns is well formed: exactly one of output and error, and the request id. |
| ChatCore.PrepareOutgoing | services/chat_service/app/core/chat.py:38-63 | With retrieval off, the outgoing list is the caller's own list object. With it on, an empty list or a last turn not from the user is refused before the retriever is asked. A valid list is replaced by a fresh list holding the composed turn, and the query is logged. |
| ChatCore.Chat | services/chat_service/app/core/chat.py:18-159 | The envelope, the caller's list afterwards, the retriever's log and the completion log are what `ChatSpec` prescribes. So the json-mode append lands in the caller's list exactly when retrieval is off. |
| ChatCore.InvalidInputComesFirst | services/chat_service/app/core/chat.py:38-43 | With retrieval on and an empty or non-user-terminated list, the envelope is `INVALID_INPUT` with no provider or model key, whatever the configuration. No retrieval, configuration read or completion happens, and the caller's list is unchanged. |
| ChatCore.RagSendsOneGroundedTurn | services/chat_service/app/core/chat.py:45-113 | With retrieval on and a valid list, the retriever is asked with the last turn's content. The completion receives one user turn that quotes the query and every fragment, plus the instruction in json mode. The caller's list is untouched. |
| ChatCore.RetrievalPrecedesResolution | services/chat_service/app/core/chat.py:38-90 | With retrieval on and an alias that does not resolve, the retriever is still queried. The envelope reports the configuration problem, and no completion is made. |
| ChatCore.ConfigErrorsMap | services/chat_service/app/core/chat.py:69-90 | A missing file gives `CONFIG_ERROR`, and an alias without a complete entry gives `MODEL_ALIAS_NOT_FOUND`. Both have null provider and model, the configuration was read, and no completion was made. |
| ChatCore.PassThroughSharesCallerList | services/chat_service/app/core/chat.py:38-113 | With retrieval off, the caller's turns go out unchanged. In json mode exactly one turn follows them, the system instruction, and otherwise none. The caller's list afterwards is exactly what was sent, so it changed exactly in json mode. |
| ChatCore.RequestUsesResolvedAlias | services/chat_service/app/core/chat.py:96-159 | For an alias declaring `p`/`m`, the request goes to `p + "/" + m` with every parameter forwarded and the json flag iff json mode. A failed call reports `p` and `m`, with `TIMEOUT_ERROR` iff it timed out and `AUTH_ERROR` iff authentication failed. |
| ChatCore.SuccessNamesConfiguredProvider | services/chat_service/app/core/chat.py:120-136 | When the provider reports the identifier it was asked for, the envelope names the configured provider and the full identifier as model, with a null cost. |
| Startup.CheckConfig | services/chat_service/app/core/startup.py:22-34 | The loop is reached exactly when the file exists, has a non-empty alias table and every alias names a provider. The providers checked are exactly the distinct `provider` values. A missing file is `FileNotFoundError`. An empty or missing table is the wrapped "No aliases found" error. A non-empty table with an alias lacking `provider` is the `KeyError`. |
| Startup.ConfigAbortClass | services/chat_service/app/core/startup.py:22-34 | A failed configuration check raises `FileNotFoundError` exactly for a missing file, `KeyError` exactly for an alias without a provider, and `RuntimeError` exactly for an empty alias table. |
| Startup.KeyNameShape | services/chat_service/app/core/startup.py:37 | The key name is the provider upper-cased, then `_API_KEY`. It has no lower-case ASCII letter left. |
| Startup.KeyNameIgnoresCase | services/chat_service/app/core/startup.py:37 | Providers that differ only in letter case share one key variable. |
| Text.UpperShape | services/chat_service/app/core/startup.py:37 | Upper-casing keeps the length, moves each lower-case ASCII letter to its capital, keeps every other character, and leaves no lower-case letter. |
| Text.UpperIdempotent | services/chat_service/app/core/startup.py:37 | Upper-casing twice is upper-casing once. |
| Startup.ProbeModelNamesProvider | services/chat_service/app/core/startup.py:49-53 | Every probe model starts with the provider followed by `/`. |
| Startup.ProbeModelChoice | services/chat_service/app/core/startup.py:49-53 | `groq` is probed with `groq/llama-3.1-8b-instant`, `fireworks_ai` with `fireworks_ai/accounts/fireworks/models/qwen2p5-vl-32b-instruct`, and any other provider with `{provider}/gpt-3.5-turbo`. |
| Startup.ProbeModelInjective | services/chat_service/app/core/startup.py:49-53 | No two providers are probed with the same model. |
| Startup.ProbeClient.Completion | services/chat_service/app/core/startup.py:55-59 | Returns the oracle's outcome for the probe and logs it. |
| Startup.CheckProvider | services/chat_service/app/core/startup.py:37-62 | A provider passes exactly when its key is set and its probe (one user "ping", mocked "pong", on the selected model) answers. It is probed only when its key is set. A failure is the missing key or the probe's exception text. |
| Startup.VisitPassing | services/chat_service/app/core/startup.py:36-60 | A provider that passes keeps the loop invariant: the visited providers are distinct, they are exactly those no longer pending, and all passed. |
| Startup.MissingKeyMessageNamesVariable | services/chat_service/app/core/startup.py:39 | The missing-key error names the environment variable to set. |
| Startup.StopOnMissingKey | services/chat_service/app/core/startup.py:37-39 | A provider without a key stops the loop before it is probed, and the error names it; every provider visited before it passed. |
| Startup.StopOnFailedProbe | services/chat_service/app/core/startup.py:55-62 | A provider whose probe raises stops the loop after it is probed, and the error carries the exception text. |
| Startup.FinishWhenAllVisited | services/chat_service/app/core/startup.py:36-64 | When no provider is pending, every provider was visited and passed. |
| Startup.CheckProviders | services/chat_service/app/core/startup.py:36-62 | Each provider is visited at most once, and only after its key was found; all but the last visited passed. The loop completes exactly when every provider passes, having visited them all. A stop names an unvisited provider without a key, after every visited provider passed, or the last visited provider with its probe's exception. The probe log lists exactly the probes sent, in visit order. |
| Startup.LoopAbortsAreRuntimeErrors | services/chat_service/app/core/startup.py:36-62 | Every way the provider loop stops surfaces as a `RuntimeError`. |
| Startup.ValidateStartup | services/chat_service/app/core/startup.py:10-64 | A failed configuration check stops startup with that error before any probe. Otherwise the outcome is the provider loop's. |
| Startup.ResolvableAliasesWereValidated | services/chat_service/app/core/startup.py:34-62 | After a successful startup, every alias that resolves names a provider whose key is set and whose probe answered. |

## Left out

- The retriever (Qdrant with `k=3`) is an oracle function from query to fragments. The limit of three fragments and the chunking live in library code, so the model neither assumes nor proves a bound on the number of fragments. An exception from the retriever is not modelled; in the code it propagates out of `chat`.
- `litellm.completion` is an oracle function from request to outcome. A response's reported `model` is always a string in the model. A `None` model, which makes `split('/')` raise `AttributeError` (chat.py:123) and so ends in `PROVIDER_ERROR`, is not represented. `litellm.drop_params` and the provider-side handling of parameters are not modelled.
- `mock_response="pong"` is carried in the probe request. Its effect inside the library, which answers without contacting the provider, is left to the probe oracle.
- The defaults of `chat(...)`'s keyword arguments (chat.py:21-28) are not modelled; every call takes explicit parameters.
- The request id (`uuid4()[:8]`) and the latency (`time.time()` with `int(round(...))`) are parameters. Floating-point temperature and top_p are `real`.
- `models.json` is an already-parsed document, or `None` when the file is missing. A `JSONDecodeError` in `chat`, and values of the wrong JSON type (a `TypeError` in the lookup), are not modelled.
- Startup.FatalMessage: the configuration path in the `FileNotFoundError` message is a parameter. Of the message texts, only the missing-key message has a proved property (it names the variable).
- Text.Upper: Python's `str.upper()` is Unicode-aware; the model upper-cases ASCII letters only.
- The `print` calls and `load_dotenv()` in startup.py are not modelled; the environment is a map from variable name to value.
- The `ChatResponse` validation the HTTP layer applies to the envelope, the FastAPI endpoints and the command-line tool are not part of this model.
- Concurrency between requests is not modelled; each call runs to completion on its own.
