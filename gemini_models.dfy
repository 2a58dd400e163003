/**
 * The `GeminiModel` enumeration and its `Value()` table of model identifiers.
 * A C# enum value is an integer, and any integer (not only a declared member) can be
 * stored in a variable of the enum type, so a model is an `int` code here.
 */
module GeminiModels {
  import opened Types

  const Gemini_3_Pro: int := 0
  const Gemini_3_Flash: int := 1
  const Gemini_2_5_Flash: int := 2
  const Gemini_2_5_Flash_Lite: int := 3
  const Gemini_2_5_Pro: int := 4
  const Gemini_2_0_Flash: int := 5

  /** `default(GeminiModel)`: the member whose code is 0. */
  const DefaultModel: int := 0

  /** The message of the `ArgumentOutOfRangeException` thrown for an undeclared member. */
  const UnsupportedModelMessage := "Modelo Gemini não suportado."

  predicate IsDeclaredModel(m: int) {
    Gemini_3_Pro <= m <= Gemini_2_0_Flash
  }

  /** `GeminiModelExtensions.Value`: the service's identifier for each declared model. */
  function Value(m: int): (r: Outcome<string>)
    ensures r.Returned? <==> IsDeclaredModel(m)
    ensures r.Threw? ==> r.message == UnsupportedModelMessage
    ensures r.Returned? ==> |r.value| > 0
  {
    if m == Gemini_3_Pro then Returned("gemini-3-pro-preview")
    else if m == Gemini_3_Flash then Returned("gemini-3-flash-preview")
    else if m == Gemini_2_5_Flash then Returned("gemini-2.5-flash")
    else if m == Gemini_2_5_Flash_Lite then Returned("gemini-2.5-flash-lite")
    else if m == Gemini_2_5_Pro then Returned("gemini-2.5-pro")
    else if m == Gemini_2_0_Flash then Returned("gemini-2.0-flash")
    else Threw(UnsupportedModelMessage)
  }

  /** Distinct declared models have distinct identifiers. */
  lemma ValueInjective(a: int, b: int)
    requires IsDeclaredModel(a) && IsDeclaredModel(b)
    requires Value(a) == Value(b)
    ensures a == b
  {
  }

  /** The member that `default(GeminiModel)` denotes is `Gemini_3_Pro`. */
  lemma DefaultIsGemini3Pro()
    ensures DefaultModel == Gemini_3_Pro && Value(DefaultModel) == Returned("gemini-3-pro-preview")
  {
  }
}
