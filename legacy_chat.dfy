/**
 * The older `ChatGemini` bound directly to an API key. Its configuration holds only the
 * system instruction, and the model identifier is resolved only as the argument of the
 * remote call, after the history has been extended: an undeclared model still leaves the
 * request's entries in the history.
 */
module LegacyChat {
  import opened Types
  import opened GeminiModels
  import opened GenAI
  import opened ChatModels
  import opened Normalizer
  import opened Conversation

  const DefaultSystemPrompt := "Você é um assistente muito útil"

  /** The configuration: the system prompt or its default, and nothing else. */
  function LegacyConfig(systemPrompt: Option<string>): (r: GenerateContentConfig)
    ensures r.systemInstruction == (if systemPrompt.None? then DefaultSystemPrompt else systemPrompt.value)
    ensures r.temperature.None? && r.thinkingLevel.None? && r.responseSchema.None? && !r.googleSearch
  {
    GenerateContentConfig(systemPrompt.GetOr(DefaultSystemPrompt), None, None, None, false)
  }

  class ChatGemini {
    var history: seq<Content>

    constructor ()
      ensures history == []
    {
      history := [];
    }

    method Invoke(req: ChatRequest, reply: Outcome<GenerateContentResponse>)
      returns (r: ChatResponse, calls: seq<ServiceCall>)
      modifies this
      // the request's history and its prompt are appended whatever happens next
      ensures history == old(history) + ToTurns(req.history.GetOr([])) + [TextTurn("user", req.userPrompt)]
      ensures IsDeclaredModel(req.model) ==>
        calls == [GenerateContent(Value(req.model).value, history, LegacyConfig(req.systemPrompt))]
        && r == Complete(reply)
      ensures !IsDeclaredModel(req.model) ==>
        calls == [] && r == Sentinel(UnsupportedModelMessage)
    {
      var config := LegacyConfig(req.systemPrompt);
      if req.history.Some? {
        history := AppendMessages(history, req.history.value);
      }
      history := history + [TextTurn("user", req.userPrompt)];
      match Value(req.model)
      case Threw(e) =>
        r, calls := Sentinel(e), [];
      case Returned(id) =>
        calls := [GenerateContent(id, history, config)];
        r := Complete(reply);
    }
  }
}
