/** The request payload: an immutable record holding the prompt, the ordered model list
    (primary first, fallbacks after it) and the generation parameters. */
module Payload {
  import opened Common
  import Text
  import Registry

  /** `EventPayload`. The temperature is a float the core only passes on; it is kept as a `real`. */
  datatype EventPayload = EventPayload(
    prompt: string,
    models: seq<string>,
    maxTokens: int,
    temperature: real,
    requestId: Option<string>)

  const DefaultMaxTokens: int := 4000
  const DefaultTemperature: real := 0.7

  /** A payload built with only the two required fields; the others take their declared defaults. */
  function WithDefaults(prompt: string, models: seq<string>): EventPayload
  {
    EventPayload(prompt, models, DefaultMaxTokens, DefaultTemperature, None)
  }

  /** `primary_model`: the first model; indexing an empty list raises IndexError. */
  function PrimaryModel(p: EventPayload): (r: Result<string, Error>)
    ensures r.Ok? <==> |p.models| > 0
    ensures r.Ok? ==> r.value == p.models[0]
    ensures r.Err? ==> r.error == IndexError("list index out of range")
  {
    if |p.models| == 0 then Err(IndexError("list index out of range")) else Ok(p.models[0])
  }

  /** `fallback_models`: every model after the first, in order; empty for a list of zero or one model. */
  function FallbackModels(p: EventPayload): (r: seq<string>)
    ensures |r| == if |p.models| == 0 then 0 else |p.models| - 1
    ensures forall i :: 0 <= i < |r| ==> r[i] == p.models[i + 1]
  {
    if |p.models| > 1 then p.models[1..] else []
  }

  /** The primary model followed by the fallbacks is exactly the model list. */
  lemma PrimaryThenFallbacks(p: EventPayload)
    requires |p.models| > 0
    ensures [PrimaryModel(p).value] + FallbackModels(p) == p.models
  {
    var whole := [PrimaryModel(p).value] + FallbackModels(p);
    assert forall i :: 0 <= i < |p.models| ==> whole[i] == p.models[i];
  }

  // ---- dictionary form -------------------------------------------------------------------

  /** A value of the dictionary form, as JSON would carry it. */
  datatype Value = Str(s: string) | StrList(items: seq<string>) | Int(i: int) | Float(x: real) | Null

  type Dict = map<string, Value>

  /** The dataclass fields, i.e. the keyword arguments the constructor accepts. */
  const FieldNames: set<string> := {"prompt", "models", "max_tokens", "temperature", "request_id"}

  /** The fields without a default. */
  const RequiredFields: set<string> := {"prompt", "models"}

  /** The dictionary form of the defaults of the optional fields. */
  const DefaultValues: Dict := map[
    "max_tokens" := Int(DefaultMaxTokens),
    "temperature" := Float(DefaultTemperature),
    "request_id" := Null]

  function OptionalString(o: Option<string>): Value
  {
    match o
    case None => Null
    case Some(s) => Str(s)
  }

  /** `to_dict`: one entry per field, holding that field's value. */
  function ToDict(p: EventPayload): (d: Dict)
    ensures d.Keys == FieldNames
  {
    map[
      "prompt" := Str(p.prompt),
      "models" := StrList(p.models),
      "max_tokens" := Int(p.maxTokens),
      "temperature" := Float(p.temperature),
      "request_id" := OptionalString(p.requestId)]
  }

  /** The value the typed model can hold for a present field. */
  predicate FieldTypeOk(name: string, v: Value)
  {
    match name
    case "prompt" => v.Str?
    case "models" => v.StrList?
    case "max_tokens" => v.Int?
    case "temperature" => v.Float?
    case "request_id" => v.Str? || v.Null?
    case _ => false
  }

  /** Every present field holds a value of its declared type. */
  predicate WellTyped(d: Dict)
  {
    forall k :: k in d ==> FieldTypeOk(k, d[k])
  }

  /** `from_dict` (`EventPayload(**data)`): unknown keywords and missing required fields raise
      TypeError; absent optional fields take their defaults. */
  function FromDict(d: Dict): (r: Result<EventPayload, Error>)
    ensures !(d.Keys <= FieldNames) ==> r == Err(TypeError(UnexpectedKeywords(d.Keys - FieldNames)))
    ensures d.Keys <= FieldNames && !(RequiredFields <= d.Keys) ==> r == Err(TypeError(MissingArguments(RequiredFields - d.Keys)))
    ensures r.Ok? <==> RequiredFields <= d.Keys <= FieldNames && WellTyped(d)
    ensures r.Ok? ==> d["prompt"] == Str(r.value.prompt) && d["models"] == StrList(r.value.models)
  {
    if !(d.Keys <= FieldNames) then Err(TypeError(UnexpectedKeywords(d.Keys - FieldNames)))
    else if !(RequiredFields <= d.Keys) then Err(TypeError(MissingArguments(RequiredFields - d.Keys)))
    else if !FieldTypeOk("prompt", d["prompt"]) then Err(TypeError(WrongType("prompt")))
    else if !FieldTypeOk("models", d["models"]) then Err(TypeError(WrongType("models")))
    else if "max_tokens" in d && !FieldTypeOk("max_tokens", d["max_tokens"]) then Err(TypeError(WrongType("max_tokens")))
    else if "temperature" in d && !FieldTypeOk("temperature", d["temperature"]) then Err(TypeError(WrongType("temperature")))
    else if "request_id" in d && !FieldTypeOk("request_id", d["request_id"]) then Err(TypeError(WrongType("request_id")))
    else
      Ok(EventPayload(
        d["prompt"].s,
        d["models"].items,
        if "max_tokens" in d then d["max_tokens"].i else DefaultMaxTokens,
        if "temperature" in d then d["temperature"].x else DefaultTemperature,
        if "request_id" in d && d["request_id"].Str? then Some(d["request_id"].s) else None))
  }

  /** Converting to the dictionary form and back gives the same payload. */
  lemma DictRoundTrip(p: EventPayload)
    ensures FromDict(ToDict(p)) == Ok(p)
  {
    var d := ToDict(p);
    assert d.Keys == FieldNames;
  }

  /** Conversely, the payload read from a dictionary converts back to that dictionary with the
      defaults filled in for the optional fields it left out. */
  lemma DictBackRoundTrip(d: Dict)
    requires FromDict(d).Ok?
    ensures ToDict(FromDict(d).value) == DefaultValues + d
  {
    var p := FromDict(d).value;
    var back, expected := ToDict(p), DefaultValues + d;
    assert back.Keys == expected.Keys;
    forall k | k in back
      ensures back[k] == expected[k]
    {
      assert k in FieldNames;
    }
  }

  /** A dictionary holding only the required fields yields the declared defaults. */
  lemma FromDictDefaults(prompt: string, models: seq<string>)
    ensures FromDict(map["prompt" := Str(prompt), "models" := StrList(models)]) == Ok(WithDefaults(prompt, models))
  {
    var d := map["prompt" := Str(prompt), "models" := StrList(models)];
    assert d.Keys == RequiredFields;
  }

  /** `create_payload(prompt, models, **kwargs)`: the explicit prompt and models may not also be
      passed through kwargs; the rest is the constructor's keyword handling. It succeeds exactly
      for kwargs naming only optional fields with well-typed values, and the payload then holds
      the given prompt and models, each optional field from kwargs, and the default otherwise. */
  function CreatePayload(prompt: string, models: seq<string>, kwargs: Dict): (r: Result<EventPayload, Error>)
    ensures kwargs.Keys * RequiredFields != {} ==> r == Err(TypeError(MultipleValues(kwargs.Keys * RequiredFields)))
    ensures r.Ok? <==> kwargs.Keys * RequiredFields == {} && kwargs.Keys <= FieldNames && WellTyped(kwargs)
    ensures r.Ok? ==> r.value.prompt == prompt && r.value.models == models
    ensures r.Ok? ==> ToDict(r.value) == DefaultValues + kwargs["prompt" := Str(prompt)]["models" := StrList(models)]
  {
    var dup := kwargs.Keys * RequiredFields;
    if dup != {} then Err(TypeError(MultipleValues(dup)))
    else
      var d := kwargs["prompt" := Str(prompt)]["models" := StrList(models)];
      assert d.Keys == kwargs.Keys + RequiredFields;
      assert WellTyped(d) <==> WellTyped(kwargs) by {
        if WellTyped(kwargs) {
          forall k | k in d
            ensures FieldTypeOk(k, d[k])
          {
            if k !in RequiredFields {
              assert d[k] == kwargs[k];
            }
          }
        }
        if WellTyped(d) {
          forall k | k in kwargs
            ensures FieldTypeOk(k, kwargs[k])
          {
            assert k !in dup;
            assert d[k] == kwargs[k];
          }
        }
      }
      if FromDict(d).Ok? then DictBackRoundTrip(d); FromDict(d) else FromDict(d)
  }

  /** Without keyword arguments, `create_payload` gives the payload with every default. */
  lemma CreatePayloadDefaults(prompt: string, models: seq<string>)
    ensures CreatePayload(prompt, models, map[]) == Ok(WithDefaults(prompt, models))
  {
    var empty: Dict := map[];
    assert empty["prompt" := Str(prompt)]["models" := StrList(models)] == map["prompt" := Str(prompt), "models" := StrList(models)];
    FromDictDefaults(prompt, models);
  }

  // ---- example strategies ----------------------------------------------------------------

  /** The strategy names in the order the catalogue declares them. */
  const StrategyNames: seq<string> := [
    "1p_to_3p", "quality_first", "speed_first", "cost_first", "anthropic_only", "openai_only"
  ]

  /** `EXAMPLE_PAYLOADS`: a fixed catalogue of fallback orders, every one with default parameters. */
  const ExamplePayloads: map<string, EventPayload> := map[
    "1p_to_3p" := WithDefaults("What is cloud computing",
      ["claude-3-haiku-bedrock", "claude-3-5-sonnet"]),
    "quality_first" := WithDefaults("Your prompt here",
      ["claude-3-5-sonnet", "gpt-4o", "claude-3-5-sonnet-bedrock", "gpt-4o-mini"]),
    "speed_first" := WithDefaults("Your prompt here",
      ["claude-3-haiku", "gpt-4o-mini", "claude-3-haiku-bedrock", "claude-3-5-sonnet"]),
    "cost_first" := WithDefaults("Your prompt here",
      ["gpt-4o-mini", "claude-3-haiku", "claude-3-haiku-bedrock", "gpt-4o"]),
    "anthropic_only" := WithDefaults("Your prompt here",
      ["claude-3-5-sonnet", "claude-3-haiku", "claude-3-5-sonnet-bedrock", "claude-3-haiku-bedrock"]),
    "openai_only" := WithDefaults("Your prompt here",
      ["gpt-4o", "gpt-4o-mini", "gpt-4-turbo"])
  ]

  const UnknownStrategyPrefix: string := "Unknown strategy: "
  const UnknownStrategySuffix: string := ". Available: " + Text.ListRepr(StrategyNames)

  /** `get_example_payload`: the named example's models and parameters with the caller's prompt
      and no request id; an unknown strategy raises ValueError. */
  function GetExamplePayload(strategy: string, prompt: string): (r: Result<EventPayload, Error>)
    ensures r.Ok? <==> strategy in ExamplePayloads
    ensures r.Err? ==> r.error == ValueError(UnknownStrategyPrefix + strategy + UnknownStrategySuffix)
    ensures r.Ok? ==> var example := ExamplePayloads[strategy];
      && r.value.prompt == prompt
      && r.value.models == example.models
      && r.value.maxTokens == example.maxTokens
      && r.value.temperature == example.temperature
      && r.value.requestId == None
  {
    if strategy !in ExamplePayloads then
      Err(ValueError(UnknownStrategyPrefix + strategy + UnknownStrategySuffix))
    else
      var example := ExamplePayloads[strategy];
      Ok(EventPayload(prompt, example.models, example.maxTokens, example.temperature, None))
  }

  /** The declared strategy order lists every catalogue entry exactly once. */
  lemma StrategyNamesListCatalogue()
    ensures forall s :: s in StrategyNames <==> s in ExamplePayloads
    ensures forall i, j :: 0 <= i < j < |StrategyNames| ==> StrategyNames[i] != StrategyNames[j]
  {
  }

  /** Every example strategy names at least one model, and only registered ones. */
  lemma ExamplesUseRegisteredModels(strategy: string)
    requires strategy in ExamplePayloads
    ensures |ExamplePayloads[strategy].models| > 0
    ensures forall m :: m in ExamplePayloads[strategy].models ==> m in Registry.AvailableModels
  {
  }
}
