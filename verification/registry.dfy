/** The model registry: two static tables keyed by the caller-facing model key. */
module Registry {
  import opened Common
  import Text

  /** The model keys in the order the table declares them (the order Python lists them in). */
  const ModelKeys: seq<string> := [
    "claude-3-5-sonnet", "claude-3-haiku",
    "gpt-4o", "gpt-4o-mini", "gpt-4-turbo",
    "claude-3-5-sonnet-bedrock", "claude-3-haiku-bedrock",
    "cohere-command-r-plus", "gemini-1-5-pro"
  ]

  /** Model key to LiteLLM model identifier. */
  const AvailableModels: map<string, string> := map[
    "claude-3-5-sonnet" := "claude-3-5-sonnet-20241022",
    "claude-3-haiku" := "claude-3-haiku-20240307",
    "gpt-4o" := "gpt-4o",
    "gpt-4o-mini" := "gpt-4o-mini",
    "gpt-4-turbo" := "gpt-4-turbo",
    "claude-3-5-sonnet-bedrock" := "bedrock/us.anthropic.claude-3-5-sonnet-20241022-v2:0",
    "claude-3-haiku-bedrock" := "bedrock/anthropic.claude-3-haiku-20240307-v1:0",
    "cohere-command-r-plus" := "cohere/command-r-plus",
    "gemini-1-5-pro" := "gemini/gemini-1.5-pro"
  ]

  /** Model key to display name used in logs and attempt records. */
  const ModelNames: map<string, string> := map[
    "claude-3-5-sonnet" := "Claude 3.5 Sonnet (Direct)",
    "claude-3-haiku" := "Claude 3 Haiku (Direct)",
    "gpt-4o" := "GPT-4o",
    "gpt-4o-mini" := "GPT-4o Mini",
    "gpt-4-turbo" := "GPT-4 Turbo",
    "claude-3-5-sonnet-bedrock" := "Claude 3.5 Sonnet (Bedrock)",
    "claude-3-haiku-bedrock" := "Claude 3 Haiku (Bedrock)",
    "cohere-command-r-plus" := "Cohere Command R+",
    "gemini-1-5-pro" := "Gemini 1.5 Pro"
  ]

  const UnknownModelPrefix: string := "Unknown model: "
  const UnknownModelSuffix: string := ". Available: " + Text.ListRepr(ModelKeys)

  /** The text of the ValueError raised for an unregistered key. */
  function UnknownModelMessage(key: string): string
  {
    UnknownModelPrefix + key + UnknownModelSuffix
  }

  /** `get_model_id`: resolve a key to its LiteLLM identifier, raising on an unknown key. */
  function GetModelId(key: string): (r: Result<string, Error>)
    ensures r.Ok? <==> key in AvailableModels
    ensures r.Ok? ==> r.value == AvailableModels[key]
    ensures r.Err? ==> r.error.ValueError? && Text.StartsWith(r.error.message, UnknownModelPrefix + key)
  {
    if key !in AvailableModels then Err(ValueError(UnknownModelMessage(key)))
    else Ok(AvailableModels[key])
  }

  /** `get_model_name`: never fails; an unnamed key stands for itself. */
  function GetModelName(key: string): (name: string)
    ensures key in ModelNames ==> name == ModelNames[key]
    ensures key !in ModelNames ==> name == key
  {
    if key in ModelNames then ModelNames[key] else key
  }

  /** The declared key order lists every registered key exactly once. */
  lemma ModelKeysListTable()
    ensures forall k :: k in ModelKeys <==> k in AvailableModels
    ensures forall i, j :: 0 <= i < j < |ModelKeys| ==> ModelKeys[i] != ModelKeys[j]
  {
  }

  /** Both tables are keyed by the same models. */
  lemma TablesShareKeys()
    ensures AvailableModels.Keys == ModelNames.Keys
  {
  }

  /** Every key that resolves has a registered display name, and the two lookups agree on which keys are known. */
  lemma ResolvableKeysAreNamed(key: string)
    ensures GetModelId(key).Ok? <==> key in ModelNames
    ensures GetModelId(key).Ok? ==> GetModelName(key) == ModelNames[key]
    ensures GetModelId(key).Err? ==> GetModelName(key) == key
  {
    TablesShareKeys();
  }

  /** The error message names the key that failed, so distinct unknown keys give distinct messages. */
  lemma UnknownModelMessageNamesKey(k1: string, k2: string)
    requires UnknownModelMessage(k1) == UnknownModelMessage(k2)
    ensures k1 == k2
  {
    Text.InfixCancels(UnknownModelPrefix, k1, k2, UnknownModelSuffix);
  }
}
