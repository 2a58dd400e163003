/**
 * `CreateGeminiAgentRequest`, the `ThinkingCapacity` enumeration and its
 * `ToThinkingLevel` table. As for models, an enum value is an `int` code.
 */
module AgentRequest {
  import opened Types

  /** The service's `ThinkingLevel` values that the table can produce. */
  datatype ThinkingLevel = MINIMAL | LOW | MEDIUM | HIGH

  const Minimal: int := 0
  const Low: int := 1
  const Medium: int := 2
  const High: int := 3

  /** `default(ThinkingCapacity)`: the member whose code is 0. */
  const DefaultCapacity: int := 0

  /**
   * The message of the `ArgumentOutOfRangeException` thrown for an undeclared member. The
   * exception is created with a null message, so .NET falls back to its generic text.
   */
  const CapacityOutOfRangeMessage := "Exception of type 'System.ArgumentOutOfRangeException' was thrown."

  predicate IsDeclaredCapacity(t: int) {
    Minimal <= t <= High
  }

  /** `ThinkingLevelExtensions.ToThinkingLevel`. */
  function ToThinkingLevel(t: int): (r: Outcome<ThinkingLevel>)
    ensures r.Returned? <==> IsDeclaredCapacity(t)
    ensures r.Threw? ==> r.message == CapacityOutOfRangeMessage
  {
    if t == Minimal then Returned(MINIMAL)
    else if t == Low then Returned(LOW)
    else if t == Medium then Returned(MEDIUM)
    else if t == High then Returned(HIGH)
    else Threw(CapacityOutOfRangeMessage)
  }

  /** The inverse of the table: the capacity that names a level. */
  function CapacityOf(level: ThinkingLevel): (t: int)
    ensures IsDeclaredCapacity(t)
  {
    match level
    case MINIMAL => Minimal
    case LOW => Low
    case MEDIUM => Medium
    case HIGH => High
  }

  /** Each capacity maps to the level of the same name, and back: the table is a bijection. */
  lemma ThinkingLevelRoundTrip(t: int, level: ThinkingLevel)
    ensures IsDeclaredCapacity(t) ==> CapacityOf(ToThinkingLevel(t).value) == t
    ensures ToThinkingLevel(CapacityOf(level)) == Returned(level)
  {
  }

  /** The table is injective on the declared members. */
  lemma ToThinkingLevelInjective(a: int, b: int)
    requires IsDeclaredCapacity(a) && IsDeclaredCapacity(b)
    requires ToThinkingLevel(a) == ToThinkingLevel(b)
    ensures a == b
  {
    ThinkingLevelRoundTrip(a, MINIMAL);
    ThinkingLevelRoundTrip(b, MINIMAL);
  }

  /**
   * `CreateGeminiAgentRequest`. `SystemPrompt` is a reference that the caller may leave
   * null; the enum fields and `Temperature` are value fields that default to 0.
   */
  datatype CreateGeminiAgentRequest = CreateGeminiAgentRequest(
    model: int,
    systemPrompt: Option<string>,
    userPrompt: string,
    thinkingCapacity: int,
    temperature: real)
}
