/** Runs of the fallback engine over the registry of the system and the example catalogue. */
module Scenarios {
  import opened Common
  import Text
  import Registry
  import Payload
  import opened Handler

  /** The system registry as the engine sees it: resolution is `get_model_id`, display names
      are `get_model_name`. */
  lemma StaticIsRegistry(key: string)
    ensures Static.resolve(key).Ok? <==> key in Registry.AvailableModels
    ensures Static.resolve(key).Ok? ==> Static.resolve(key).value == Registry.AvailableModels[key]
    ensures Static.resolve(key).Err? ==> Static.resolve(key).error == ValueError(Registry.UnknownModelMessage(key))
    ensures Static.displayName(key) == Registry.GetModelName(key)
  {
  }

  /** The registry entries the runs below use. */
  lemma GptEntry(message: string)
    ensures Static.resolve("gpt-4o") == Ok("gpt-4o")
    ensures Static.displayName("gpt-4o") == "GPT-4o"
    ensures FailureText(Static, "gpt-4o", message) == "GPT-4o failed: " + message
  {
    StaticIsRegistry("gpt-4o");
    assert "GPT-4o" + " failed: " == "GPT-4o failed: ";
  }

  lemma HaikuEntry()
    ensures Static.resolve("claude-3-haiku") == Ok("claude-3-haiku-20240307")
    ensures Static.displayName("claude-3-haiku") == "Claude 3 Haiku (Direct)"
  {
    StaticIsRegistry("claude-3-haiku");
  }

  /** With the system registry, a key outside AVAILABLE_MODELS reached after earlier failures
      raises ValueError("Unknown model: <key>. Available: [...]") out of the run. */
  lemma UnknownKeyRaisesValueError(p: Payload.EventPayload, adapter: Adapter, k: nat)
    requires k < |p.models|
    requires forall j :: 0 <= j < k ==> AdapterFailsAt(Static, p, adapter, j)
    requires p.models[k] !in Registry.AvailableModels
    ensures Outcome(Static, p, adapter) == Err(ValueError(Registry.UnknownModelMessage(p.models[k])))
  {
    StaticIsRegistry(p.models[k]);
    UnknownKeyRaises(Static, p, adapter, k);
  }

  /** With the system registry, a list of registered keys never makes the run raise. */
  lemma RegisteredModelsNeverRaise(p: Payload.EventPayload, adapter: Adapter)
    requires forall m :: m in p.models ==> m in Registry.AvailableModels
    ensures Outcome(Static, p, adapter).Ok?
  {
    forall m | m in p.models
      ensures Static.resolve(m).Ok?
    {
      StaticIsRegistry(m);
    }
    ResolvableModelsNeverRaise(Static, p, adapter);
  }

  /** When the primary model answers, the run succeeds on it after a single attempt. */
  lemma PrimaryAnswers(p: Payload.EventPayload, adapter: Adapter)
    requires |p.models| > 0 && p.models[0] in Registry.AvailableModels
    requires adapter(0, RequestFor(Static, p, 0)).Answer?
    ensures Outcome(Static, p, adapter).Ok?
    ensures var r := Outcome(Static, p, adapter).value;
      && r.success
      && r.modelUsed == Some(Payload.PrimaryModel(p).value)
      && r.attempts.Some? && |r.attempts.value| == 1
  {
    FirstSuccessWins(Static, p, adapter, 0);
  }

  /** The primary raises, the first fallback answers "OK": two attempts, the second one used. */
  lemma FallbackAnswers(adapter: Adapter, message: string, usage: Usage)
    requires adapter(0, CallRequest("gpt-4o", "X", 4000, 0.7)) == Exception(message)
    requires adapter(1, CallRequest("claude-3-haiku-20240307", "X", 4000, 0.7)) == Answer("OK", usage, None)
    ensures Outcome(Static, Payload.WithDefaults("X", ["gpt-4o", "claude-3-haiku"]), adapter)
         == Ok(SimpleResponse(true, Some("OK"), Some("claude-3-haiku"), None, Some(usage), None,
                              Some([Attempt("gpt-4o", "GPT-4o", Failed, "GPT-4o failed: " + message),
                                    Attempt("claude-3-haiku", "Claude 3 Haiku (Direct)", Success, "")])))
  {
    var p := Payload.WithDefaults("X", ["gpt-4o", "claude-3-haiku"]);
    GptEntry(message);
    HaikuEntry();
    assert RequestFor(Static, p, 0) == CallRequest("gpt-4o", "X", 4000, 0.7);
    assert RequestFor(Static, p, 1) == CallRequest("claude-3-haiku-20240307", "X", 4000, 0.7);
    FallbackAfterOneFailure(Static, p, adapter);
  }

  /** A single model whose call raises: the run is exhausted after one recorded failure. */
  lemma OnlyModelFails(adapter: Adapter, message: string)
    requires adapter(0, CallRequest("gpt-4o", "X", 4000, 0.7)) == Exception(message)
    ensures Outcome(Static, Payload.WithDefaults("X", ["gpt-4o"]), adapter)
         == Ok(SimpleResponse(false, None, None, None, None, Some("All 1 models failed"),
                              Some([Attempt("gpt-4o", "GPT-4o", Failed, "GPT-4o failed: " + message)])))
  {
    var p := Payload.WithDefaults("X", ["gpt-4o"]);
    GptEntry(message);
    assert RequestFor(Static, p, 0) == CallRequest("gpt-4o", "X", 4000, 0.7);
    SingleModelFails(Static, p, adapter);
    OneModelFailedText();
  }

  /** Keys outside the registry do not fall through: the very first one raises, whatever the
      adapter would have answered. */
  lemma UnregisteredPrimaryRaises(adapter: Adapter)
    ensures Outcome(Static, Payload.WithDefaults("X", ["fast-fail", "slow-success"]), adapter)
         == Err(ValueError(Registry.UnknownModelMessage("fast-fail")))
  {
    UnknownKeyRaisesValueError(Payload.WithDefaults("X", ["fast-fail", "slow-success"]), adapter, 0);
  }

  /** Every catalogue strategy yields a payload whose run never raises. */
  lemma ExampleStrategiesNeverRaise(strategy: string, prompt: string, adapter: Adapter)
    requires strategy in Payload.ExamplePayloads
    ensures Payload.GetExamplePayload(strategy, prompt).Ok?
    ensures Outcome(Static, Payload.GetExamplePayload(strategy, prompt).value, adapter).Ok?
  {
    Payload.ExamplesUseRegisteredModels(strategy);
    RegisteredModelsNeverRaise(Payload.GetExamplePayload(strategy, prompt).value, adapter);
  }
}
