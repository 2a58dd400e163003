/**
 * `GeminiAgent`: a session created from a `CreateGeminiAgentRequest`. It keeps the
 * conversation history and the current user prompt; every invoke appends to the history
 * before the remote call, and every exception inside an invoke is returned as a sentinel
 * response carrying the exception's message and no tokens.
 *
 * Remote calls are not made: each method takes the service's replies as parameters and
 * returns, in `calls`, the requests it sent, in order.
 */
module Agent {
  import opened Types
  import opened GeminiModels
  import opened AgentRequest
  import opened GenAI
  import opened ChatModels
  import opened RequestConfig
  import opened Normalizer
  import opened Conversation
  import opened Upload

  const DefaultSystemPrompt := "Você é um assistente muito útil"
  const MissingFilePathMessage := "You must pass a file path for this agent, if you only want text, use Invoke method"

  /** The values the agent's field initialisers compute from the request. */
  datatype AgentSettings = AgentSettings(
    model: int,
    systemPrompt: string,
    userPrompt: string,
    thinkingLevel: ThinkingLevel,
    temperature: real)

  /**
   * The field initialisers. A default model (code 0) becomes Gemini 2.5 Flash Lite, a default
   * capacity (code 0) becomes LOW, a null system prompt becomes the fixed default; an
   * undeclared capacity makes `ToThinkingLevel` throw, so construction fails.
   */
  function ResolveSettings(req: CreateGeminiAgentRequest): (r: Outcome<AgentSettings>)
    ensures r.Returned? <==> IsDeclaredCapacity(req.thinkingCapacity)
    ensures r.Threw? ==> r.message == CapacityOutOfRangeMessage
    ensures r.Returned? ==>
      && r.value.model == (if req.model == DefaultModel then Gemini_2_5_Flash_Lite else req.model)
      && r.value.systemPrompt == (if req.systemPrompt.None? then DefaultSystemPrompt else req.systemPrompt.value)
      && r.value.userPrompt == req.userPrompt
      && r.value.temperature == req.temperature
      && r.value.thinkingLevel == (if req.thinkingCapacity == DefaultCapacity then LOW
                                   else ToThinkingLevel(req.thinkingCapacity).value)
  {
    var model := if req.model != DefaultModel then req.model else Gemini_2_5_Flash_Lite;
    var level := if req.thinkingCapacity != DefaultCapacity then ToThinkingLevel(req.thinkingCapacity)
                 else ToThinkingLevel(Low);
    match level
    case Threw(e) => Threw(e)
    case Returned(l) =>
      Returned(AgentSettings(model, req.systemPrompt.GetOr(DefaultSystemPrompt), req.userPrompt, l, req.temperature))
  }

  /**
   * Since `Gemini_3_Pro` and `MINIMAL` are the enums' default members, asking for them
   * explicitly is indistinguishable from not asking: an agent never runs Gemini 3 Pro and
   * never thinks at the MINIMAL level.
   */
  lemma DefaultMembersUnreachable(req: CreateGeminiAgentRequest)
    requires ResolveSettings(req).Returned?
    ensures ResolveSettings(req).value.model != Gemini_3_Pro
    ensures ResolveSettings(req).value.thinkingLevel != MINIMAL
    ensures req.model == Gemini_3_Pro ==> ResolveSettings(req).value.model == Gemini_2_5_Flash_Lite
    ensures req.thinkingCapacity == Minimal ==> ResolveSettings(req).value.thinkingLevel == LOW
  {
  }

  /** Only a null system prompt is replaced: an empty one is kept. */
  lemma EmptySystemPromptKept(req: CreateGeminiAgentRequest)
    requires IsDeclaredCapacity(req.thinkingCapacity)
    requires req.systemPrompt == Some("")
    ensures ResolveSettings(req).value.systemPrompt == ""
  {
  }

  class GeminiAgent {
    const model: int
    const systemPrompt: string
    const thinkingLevel: ThinkingLevel
    const temperature: real
    var userPrompt: string
    var history: seq<Content>

    constructor (s: AgentSettings)
      ensures model == s.model && systemPrompt == s.systemPrompt && thinkingLevel == s.thinkingLevel
      ensures temperature == s.temperature && userPrompt == s.userPrompt
      ensures history == []
    {
      model := s.model;
      systemPrompt := s.systemPrompt;
      thinkingLevel := s.thinkingLevel;
      temperature := s.temperature;
      userPrompt := s.userPrompt;
      history := [];
    }

    /** The request configuration for the given tool and schema options. */
    function Configure(googleSearch: bool, schema: Option<Schema>): Outcome<GenerateContentConfig> {
      BuildConfig(model, systemPrompt, Some(temperature), thinkingLevel, googleSearch, schema)
    }

    /**
     * The outcome of a text invoke with the given options: if the configuration cannot be
     * built (the model code is undeclared) nothing changes and no request is sent; otherwise
     * one ("user", prompt) entry is appended, the whole history is sent, and the result is
     * the normalised reply or the sentinel of the exception the call threw.
     */
    ghost predicate InvokedWithText(h0: seq<Content>, googleSearch: bool, schema: Option<Schema>,
                                    reply: Outcome<GenerateContentResponse>, r: ChatResponse, calls: seq<ServiceCall>)
      reads this
    {
      var cfg := Configure(googleSearch, schema);
      if cfg.Threw? then
        history == h0 && calls == [] && r == Sentinel(cfg.message)
      else
        && history == h0 + [TextTurn("user", userPrompt)]
        && calls == [GenerateContent(Value(model).value, history, cfg.value)]
        && r == Complete(reply)
    }

    method Send(googleSearch: bool, schema: Option<Schema>, reply: Outcome<GenerateContentResponse>)
      returns (r: ChatResponse, calls: seq<ServiceCall>)
      modifies this`history
      ensures InvokedWithText(old(history), googleSearch, schema, reply, r, calls)
    {
      var config := Configure(googleSearch, schema);
      if config.Threw? {
        return Sentinel(config.message), [];
      }
      history := history + [TextTurn("user", userPrompt)];
      calls := [GenerateContent(Value(model).value, history, config.value)];
      r := Complete(reply);
    }

    /** `Invoke`: no search tool, no response schema. */
    method Invoke(reply: Outcome<GenerateContentResponse>) returns (r: ChatResponse, calls: seq<ServiceCall>)
      modifies this`history
      ensures InvokedWithText(old(history), false, None, reply, r, calls)
    {
      r, calls := Send(false, None, reply);
    }

    /** `WebSearchInvoke`: the Google Search tool, no response schema. */
    method WebSearchInvoke(reply: Outcome<GenerateContentResponse>) returns (r: ChatResponse, calls: seq<ServiceCall>)
      modifies this`history
      ensures InvokedWithText(old(history), true, None, reply, r, calls)
    {
      r, calls := Send(true, None, reply);
    }

    /** `InvokeWithStructuredOutput`: the given schema, copied even when it is null. */
    method InvokeWithStructuredOutput(responseSchema: Option<Schema>, reply: Outcome<GenerateContentResponse>)
      returns (r: ChatResponse, calls: seq<ServiceCall>)
      modifies this`history
      ensures InvokedWithText(old(history), false, responseSchema, reply, r, calls)
    {
      r, calls := Send(false, responseSchema, reply);
    }

    /**
     * `InvokeMultimodal`: reject a null or empty path, upload the file, wait while the
     * uploaded handle is PROCESSING, then append a file entry (with the URI and MIME type of
     * the handle the upload returned) and a prompt entry, and send the whole history.
     */
    method InvokeMultimodal(filePath: Option<string>, responseSchema: Option<Schema>,
                            upload: Outcome<FileHandle>, pollReplies: seq<Outcome<FileHandle>>,
                            reply: Outcome<GenerateContentResponse>)
      returns (c: Completion<ChatResponse>, calls: seq<ServiceCall>)
      modifies this`history
      // a missing path fails before any request or history change
      ensures filePath.None? || filePath.value == "" ==>
        c == Returns(Sentinel(MissingFilePathMessage)) && calls == [] && history == old(history)
      // otherwise the upload is the first request
      ensures filePath.Some? && filePath.value != "" ==>
        |calls| > 0 && calls[0] == UploadFile(filePath.value, UploadDisplayName)
      // the result, whichever way the call goes once the file is uploaded
      ensures filePath.Some? && filePath.value != "" ==>
        c == MultimodalResult(upload, pollReplies, Configure(false, responseSchema), reply)
      ensures filePath.Some? && filePath.value != "" && upload.Threw? ==>
        c == Returns(Sentinel(upload.message)) && calls == [UploadFile(filePath.value, UploadDisplayName)]
        && history == old(history)
      // a PROCESSING upload never gets past the wait: the history is untouched and the call
      // ends only through a GetAsync that throws
      ensures filePath.Some? && filePath.value != "" && upload.Returned? && upload.value.state == Some(PROCESSING) ==>
        && history == old(history)
        && (c == NeverReturns <==> forall j :: 0 <= j < |pollReplies| ==> pollReplies[j].Returned?)
        && (FirstThrow(pollReplies).None? ==>
              c == NeverReturns && calls == [calls[0]] + GetCalls(upload.value.name, |pollReplies|))
        // the first poll that throws ends the call with its sentinel, before any generation request
        && (FirstThrow(pollReplies).Some? ==>
              && c == Returns(Sentinel(pollReplies[FirstThrow(pollReplies).value].message))
              && calls == [calls[0]] + GetCalls(upload.value.name, FirstThrow(pollReplies).value + 1))
      // any other state, FAILED included, proceeds at once without polling
      ensures filePath.Some? && filePath.value != "" && upload.Returned? && upload.value.state != Some(PROCESSING) ==>
        var cfg := Configure(false, responseSchema);
        if cfg.Threw? then
          c == Returns(Sentinel(cfg.message)) && calls == [calls[0]] && history == old(history)
        else
          && history == old(history) + [FileTurn(upload.value.uri, upload.value.mimeType), TextTurn("user", userPrompt)]
          && calls == [calls[0], GenerateContent(Value(model).value, history, cfg.value)]
          && c == Returns(Complete(reply))
    {
      if filePath.None? || filePath.value == "" {
        return Returns(Sentinel(MissingFilePathMessage)), [];
      }
      calls := [UploadFile(filePath.value, UploadDisplayName)];
      if upload.Threw? {
        return Returns(Sentinel(upload.message)), calls;
      }
      var uploadResult := upload.value;
      var status, polls := AwaitProcessing(uploadResult, pollReplies);
      calls := calls + GetCalls(uploadResult.name, polls);
      match status {
        case StillProcessing =>
          return NeverReturns, calls;
        case FetchThrew(e) =>
          return Returns(Sentinel(e)), calls;
        case Proceeded =>
      }
      var config := Configure(false, responseSchema);
      if config.Threw? {
        return Returns(Sentinel(config.message)), calls;
      }
      history := history + [FileTurn(uploadResult.uri, uploadResult.mimeType), TextTurn("user", userPrompt)];
      calls := calls + [GenerateContent(Value(model).value, history, config.value)];
      c := Returns(Complete(reply));
    }

    /** `NewMessage`: replaces the prompt; the history is untouched. */
    method NewMessage(newPrompt: string)
      modifies this`userPrompt
      ensures userPrompt == newPrompt
    {
      userPrompt := newPrompt;
    }

    /** `UpdateMemory`: appends one role-mapped entry per message, in order; null or empty is a no-op. */
    method UpdateMemory(messages: Option<seq<ChatMessage>>)
      modifies this`history
      ensures history == old(history) + ToTurns(messages.GetOr([]))
      ensures messages.None? || messages == Some([]) ==> history == old(history)
    {
      if messages.None? || |messages.value| == 0 {
        return;
      }
      history := AppendMessages(history, messages.value);
    }
  }

  /** `new GeminiAgent(client, parameters)`: fails when a field initialiser throws. */
  method NewAgent(req: CreateGeminiAgentRequest) returns (r: Outcome<GeminiAgent>)
    ensures r.Returned? <==> ResolveSettings(req).Returned?
    ensures r.Threw? ==> r.message == ResolveSettings(req).message
    ensures r.Returned? ==>
      var s := ResolveSettings(req).value;
      && fresh(r.value)
      && r.value.model == s.model && r.value.systemPrompt == s.systemPrompt
      && r.value.thinkingLevel == s.thinkingLevel && r.value.temperature == s.temperature
      && r.value.userPrompt == s.userPrompt && r.value.history == []
  {
    match ResolveSettings(req)
    case Threw(e) =>
      r := Threw(e);
    case Returned(s) =>
      var agent := new GeminiAgent(s);
      r := Returned(agent);
  }
}
