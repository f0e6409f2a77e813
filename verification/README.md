# llm-fallback, modelled in Dafny

A model of the request-dispatch core of `llm-fallback`: a caller builds an `EventPayload`
(a prompt, an ordered list of model keys — primary first, then fallbacks — and generation
parameters), and `SimpleLLMHandler.process` walks that list in order, resolving each key
through the model registry and calling the provider once per model. A run ends in one of
three ways: a call succeeds, every call fails and the list is exhausted, or a key that does
not resolve raises out of `process`. Every call that returns leaves one attempt record; the
response carries the whole attempt history.

Modules (one file each):

- `common.dfy` — `Common`: `Option`, `Result`, and `Error`, the Python exceptions the core
  raises (`ValueError`, `IndexError`, `TypeError` with the reason the dataclass constructor
  gives).
- `text.dfy` — `Text`: Python's `str` of a non-negative int and of a list of plain strings,
  used in the error and summary messages.
- `registry.dfy` — `Registry`: the two static tables of `available_models.py` and their
  lookups. Both are functions over constants, so neither can change the tables.
- `payload.dfy` — `Payload`: the `EventPayload` record, its primary/fallback views, its
  dictionary form, `create_payload` and the example-strategy catalogue.
- `handler.dfy` — `Handler`: `_call_model` as a function over an abstract provider adapter,
  `process` as a method with a loop, proved equal to the specification function `Outcome`,
  and the properties of a run proved about `Outcome`. The engine reaches the registry only
  through its two lookups, `get_model_id` and `get_model_name`; these are a `Lookups` value,
  so the properties of a run are proved for any registry, and `Handler.Static` is the one the
  system uses.
- `scenarios.dfy` — `Scenarios`: the run properties instantiated with the registry of the
  system, and concrete runs over its tables and the example catalogue.

The provider call (`litellm.completion` with the response extraction and cost lookup) is an
`Adapter`: a total function from the call's position within the run and the request
(resolved LiteLLM id, prompt, max_tokens, temperature) to either an answer (content, usage,
optional cost) or an exception message. Passing the position lets successive calls answer
differently, as a network would.

Behaviour of the code worth knowing:

- An unregistered key is not recorded as a failed attempt. `get_model_id` is called at
  `llm_handler.py:66`, before the `try` at line 69, so its `ValueError` escapes
  `_call_model` and `process`: the attempts made so far are lost and later models are never
  tried (`Handler.UnknownKeyRaises`). A run over the unregistered keys `"fast-fail"` and
  `"slow-success"` raises on the first (`Scenarios.UnregisteredPrimaryRaises`).
- The model list may be empty: nothing rejects it, and `process` then reports
  "All 0 models failed" with no attempts (`Handler.EmptyListFails`).
- `max_tokens` and `temperature` are not range-checked anywhere; the model checks neither.

## Model

| member | source | states |
|---|---|---|
| `Registry.GetModelId` | available_models.py:40-44 | succeeds exactly for keys of `AVAILABLE_MODELS`, returning that key's LiteLLM id; otherwise a `ValueError` whose message starts "Unknown model: <key>" |
| `Registry.GetModelName` | available_models.py:46-48 | never fails: the registered display name, or the key itself when none is registered |
| `Registry.TablesShareKeys` | available_models.py:8-38 | `AVAILABLE_MODELS` and `MODEL_NAMES` have the same key set |
| `Registry.ResolvableKeysAreNamed` | available_models.py:40-48 | a key resolves exactly when it has a display name; a resolving key's name is the registered one, a failing key's name is the key |
| `Registry.ModelKeysListTable` | available_models.py:8-25 | the declared key order (used in the error message) lists each registered key exactly once |
| `Registry.UnknownModelMessageNamesKey` | available_models.py:43 | the unknown-model message determines the key it was raised for |
| `Text.NatToString` | llm_handler.py:162 | the rendering of a count is a non-empty digit string with no leading zero |
| `Text.NatToStringRoundTrip` | llm_handler.py:162 | reading the rendered digits back gives the count |
| `Text.NatToStringInjective` | llm_handler.py:162 | distinct counts give distinct renderings, so the summary message determines N |
| `Text.ListRepr` | available_models.py:43 | a rendered key list is bracketed by `[` and `]` |
| `Text.ListReprSnoc` | available_models.py:43 | the rendering of `str(list)`, element by element: `[]` for the empty list, and each further element quoted and inserted before the closing bracket after `, ` |
| `Payload.PrimaryModel` | event_payload.py:21-23 | the first model when the list is non-empty; `IndexError` exactly when it is empty |
| `Payload.FallbackModels` | event_payload.py:26-28 | every model after the first, in order: length `len(models) - 1`, empty for zero or one model |
| `Payload.PrimaryThenFallbacks` | event_payload.py:21-28 | for a non-empty list, `[primary_model] + fallback_models == models` |
| `Payload.ToDict` | event_payload.py:30-38 | the dictionary has exactly the keys prompt, models, max_tokens, temperature, request_id |
| `Payload.FromDict` | event_payload.py:45-47 | an unexpected keyword or a missing prompt/models raises `TypeError` naming them; it succeeds exactly when the keys lie between the required and all fields and every value is well typed, and then the prompt and models are the dictionary's |
| `Payload.DictRoundTrip` | event_payload.py:30-47 | `from_dict(to_dict(p)) == p` for every payload |
| `Payload.DictBackRoundTrip` | event_payload.py:30-47 | a payload read from a dictionary converts back to that dictionary with the defaults added for omitted optional fields |
| `Payload.FromDictDefaults` | event_payload.py:16-18 | omitted fields default to max_tokens 4000, temperature 0.7, request_id None |
| `Payload.CreatePayload` | event_payload.py:116-118 | prompt or models also given in kwargs raises `TypeError`; it succeeds exactly when kwargs names only optional fields with well-typed values; the payload then has the given prompt and models, and each optional field from kwargs or its default (its dictionary form is defaults + kwargs + prompt and models) |
| `Payload.CreatePayloadDefaults` | event_payload.py:116-118 | with no kwargs the payload has every default |
| `Payload.GetExamplePayload` | event_payload.py:120-131 | `ValueError` "Unknown strategy: ..." exactly for strategies outside the catalogue; otherwise the given prompt with the example's models, max_tokens and temperature and no request id |
| `Payload.StrategyNamesListCatalogue` | event_payload.py:56-114 | the declared strategy order lists each catalogue entry exactly once |
| `Payload.ExamplesUseRegisteredModels` | event_payload.py:56-114 | every example strategy names at least one model, and only registered keys |
| `Handler.CallModel` | llm_handler.py:64-107 | `_call_model` raises the lookup's error exactly for a key that does not resolve; otherwise the adapter gets the resolved id with the prompt, max_tokens and temperature unchanged, an answer is passed on with the LiteLLM id as `model_used`, and an exception becomes "<display name> failed: <message>" |
| `Handler.AttemptRecord` | llm_handler.py:143-148 | the appended record names the key and its display name, is a success exactly for a successful call, and carries `''` for a success and the call's failure text for a failure |
| `Handler.FirstStop` | llm_handler.py:127-159 | the index where a run stops: every earlier call failed, and the call there (if any) succeeded or raised |
| `Handler.FailedRecords` | llm_handler.py:143-148 | the records of the calls before the stop: one per model, in order, each for a failed call |
| `Handler.Outcome` | llm_handler.py:109-169 | what `process` returns: it raises exactly when the call at the stop index raises; otherwise it returns a response with an attempt history, successful exactly when the run stopped before the end of the list |
| `Handler.Process` | llm_handler.py:109-169 | the loop returns (or raises) exactly `Outcome`: invariant "attempts = one failed record per models[0..i)" |
| `Handler.FailsAtIff` | llm_handler.py:64-107 | a call lets the run continue exactly when its key resolves and the adapter raises |
| `Handler.StopsAt` | llm_handler.py:127-159 | a run whose first i calls failed stops at i exactly when call i does not fail |
| `Handler.AttemptsFollowListOrder` | llm_handler.py:127-148 | the i-th record has `model == models[i]` and `name == get_model_name(models[i])`, never more records than models |
| `Handler.AttemptErrorText` | llm_handler.py:102-107 | a record's error is `''` for the success and "<display name> failed: <adapter message>" for a failure |
| `Handler.RunEndsSucceededOrExhausted` | llm_handler.py:150-169 | a run ends Succeeded (last record the only success, `model_used` its key, no error) or Exhausted (one failed record per model, "All N models failed", no content) |
| `Handler.FirstSuccessWins` | llm_handler.py:143-159 | models 0..k-1 fail and model k answers: success with `model_used == models[k]`, that answer's content, usage and cost, no error, k+1 records of which only the last succeeded |
| `Handler.AllModelsFail` | llm_handler.py:161-169 | every call fails: no success, "All N models failed" with N = `len(models)`, N records all failed |
| `Handler.EmptyListFails` | llm_handler.py:127 | an empty list gives "All 0 models failed" and no attempts |
| `Handler.FallbackAfterOneFailure` | llm_handler.py:127-159 | two models, the primary raises and the fallback answers: exactly the fallback's answer and the records [failed primary, successful fallback] |
| `Handler.SingleModelFails` | llm_handler.py:127-169 | one model whose call raises: exactly "All 1 models failed" and its one failed record |
| `Handler.UnknownKeyRaises` | llm_handler.py:66-69 | a key that does not resolve, reached after earlier failures, raises the lookup's error out of the run |
| `Handler.ResolvableModelsNeverRaise` | llm_handler.py:66 | a list of keys that all resolve never makes the run raise |
| `Handler.OnlyPayloadRequestsMatter` | llm_handler.py:73-78 | the run depends on the adapter only through the requests (resolved id, prompt, max_tokens, temperature) built from the payload |
| `Scenarios.StaticIsRegistry` | llm_handler.py:66-67 | the engine's lookups are `get_model_id` and `get_model_name`: resolution succeeds exactly for keys of `AVAILABLE_MODELS`, with their id, and fails with the unknown-model `ValueError` |
| `Scenarios.UnknownKeyRaisesValueError` | llm_handler.py:66-69 | with the system registry, a key outside `AVAILABLE_MODELS` reached after earlier failures raises `ValueError("Unknown model: ...")` out of the run |
| `Scenarios.RegisteredModelsNeverRaise` | llm_handler.py:66 | with the system registry, a list of registered keys never makes the run raise |
| `Scenarios.PrimaryAnswers` | llm_handler.py:150-159 | when the primary answers, the run succeeds on `primary_model` after one attempt |
| `Scenarios.FallbackAnswers` | llm_handler.py:127-159 | a failing primary then an answering fallback give exactly the two expected records and the fallback's answer |
| `Scenarios.OnlyModelFails` | llm_handler.py:161-169 | a single failing model gives "All 1 models failed" and one failed record |
| `Scenarios.UnregisteredPrimaryRaises` | llm_handler.py:66-69 | a list starting with an unregistered key raises at once, whatever the adapter does |
| `Scenarios.ExampleStrategiesNeverRaise` | event_payload.py:120-131 | every catalogue strategy yields a payload whose run never raises |

## Left out

- `bedrock-fallback.py` is not part of this model: its client is HTTP session, retry-policy
  and AWS SDK plumbing around a fixed two-step try/except.
- The LiteLLM call, the extraction of content and usage from its response and the
  best-effort `completion_cost` are the abstract `Adapter`; the chat message list
  `[{"role": "user", "content": prompt}]` is represented by the prompt alone, and the
  response content is taken to be a string.
- Floating point: the temperature is a `real` passed through unchanged, and the cost an
  optional `real` the adapter supplies.
- `to_json`/`from_json` (JSON text encoding); only the dictionary form is modelled.
- `_setup_api_keys` (environment variables), all logging, `list_available_models`, the
  `main` functions and printing; the handler has no other state, so its constructor is not
  modelled and `Process` is a module-level method that is given the registry lookups
  (`Handler.Static` for the system's registry).
- Payload.FromDict: the generated dataclass constructor stores a value of any type; the typed
  model refuses a value of the wrong type with `TypeError(WrongType(field))`.
- Payload.FromDict: for unexpected keywords Python names only the first one it meets; the model
  reports the whole set (likewise `Payload.CreatePayload` for keywords given twice).
- Text.ListRepr: follows Python's `repr` only for strings without quotes or backslashes, which
  holds for every key and strategy name it is applied to.
