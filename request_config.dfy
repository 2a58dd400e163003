/**
 * The request configuration each invoke builds: a system instruction, a temperature,
 * a thinking config that only models outside a fixed list receive, an optional
 * response schema and an optional search tool.
 */
module RequestConfig {
  import opened Types
  import opened GeminiModels
  import opened AgentRequest
  import opened GenAI

  /** The identifiers that are never sent a thinking config. */
  const ModelsWithNoThinking: seq<string> :=
    ["gemini-2.5-flash", "gemini-2.5-flash-lite", "gemini-2.5-pro", "gemini-2.0-flash"]

  predicate SupportsThinking(modelId: string) {
    modelId !in ModelsWithNoThinking
  }

  /**
   * Of the declared models, exactly the two Gemini 3 models get a thinking config;
   * every identifier outside the list, including an unknown one, is assumed to take it.
   */
  lemma ThinkingOnlyForGemini3(m: int)
    requires IsDeclaredModel(m)
    ensures SupportsThinking(Value(m).value) <==> (m == Gemini_3_Pro || m == Gemini_3_Flash)
  {
    var id := Value(m).value;
    if m == Gemini_3_Pro || m == Gemini_3_Flash {
      assert id[7] == '3';
      forall k | 0 <= k < |ModelsWithNoThinking|
        ensures id != ModelsWithNoThinking[k]
      {
        assert ModelsWithNoThinking[k][7] == '2';
      }
    } else {
      assert id == ModelsWithNoThinking[m - Gemini_2_5_Flash];
    }
  }

  /**
   * The configuration built from a model code and the values the caller chose. The model
   * code is resolved with `Value()`, which throws for an undeclared member.
   */
  function BuildConfig(
    model: int, systemInstruction: string, temperature: Option<real>,
    level: ThinkingLevel, googleSearch: bool, schema: Option<Schema>): (r: Outcome<GenerateContentConfig>)
    ensures r.Returned? <==> IsDeclaredModel(model)
    ensures r.Threw? ==> r.message == UnsupportedModelMessage
    ensures r.Returned? ==>
      && r.value.systemInstruction == systemInstruction
      && r.value.temperature == temperature
      && r.value.responseSchema == schema
      && r.value.googleSearch == googleSearch
      && (r.value.thinkingLevel.Some? <==> (model == Gemini_3_Pro || model == Gemini_3_Flash))
      && (r.value.thinkingLevel.Some? ==> r.value.thinkingLevel.value == level)
  {
    match Value(model)
    case Threw(e) => Threw(e)
    case Returned(id) =>
      ThinkingOnlyForGemini3(model);
      var thinking := if SupportsThinking(id) then Some(level) else None;
      Returned(GenerateContentConfig(systemInstruction, temperature, thinking, schema, googleSearch))
  }
}
