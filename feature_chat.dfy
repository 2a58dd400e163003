/**
 * The request-driven chat of the Features namespace (`Features.ChatGemini`): each call takes
 * a `ChatRequest` that names the model, the prompts, the caller's history and the options.
 * The object itself only keeps the accumulated conversation history, which every call
 * extends with the request's history and its prompt before the remote call.
 */
module FeatureChat {
  import opened Types
  import opened GeminiModels
  import opened AgentRequest
  import opened GenAI
  import opened ChatModels
  import opened RequestConfig
  import opened Normalizer
  import opened Conversation
  import opened Upload

  const DefaultSystemPrompt := "Você é um assistente muito útil"
  const WebSearchSystemPrompt := "Você é um assistente de pesquisas web muito útil"
  const StructuredOutputMessage := "Use InvokeWithStructuredOutput method for structured outputs."
  const MissingFilePathMessage := "You must pass a file path for this agent, if you only want text, use Invoke method"

  /**
   * The configuration a request asks for: its system prompt or the given default, its
   * temperature or 0, its thinking level or LOW (only for models that take one).
   */
  function ConfigFor(req: ChatRequest, defaultSystemPrompt: string, googleSearch: bool, schema: Option<Schema>)
    : (r: Outcome<GenerateContentConfig>)
    ensures r.Returned? <==> IsDeclaredModel(req.model)
    ensures r.Returned? ==>
      && r.value.systemInstruction == (if req.systemPrompt.None? then defaultSystemPrompt else req.systemPrompt.value)
      && r.value.temperature == Some(if req.temperature.None? then 0.0 else req.temperature.value)
      && (r.value.thinkingLevel.Some? ==> r.value.thinkingLevel.value == (if req.thinkingLevel.None? then LOW else req.thinkingLevel.value))
      && r.value.googleSearch == googleSearch && r.value.responseSchema == schema
  {
    BuildConfig(req.model, req.systemPrompt.GetOr(defaultSystemPrompt), Some(req.temperature.GetOr(0.0)),
                req.thinkingLevel.GetOr(LOW), googleSearch, schema)
  }

  /** The entries a request adds for its text: its history, role-mapped, then its prompt. */
  function RequestTurns(req: ChatRequest): (r: seq<Content>)
    ensures |r| == |req.history.GetOr([])| + 1
    ensures r[|r| - 1] == TextTurn("user", req.userPrompt)
  {
    ToTurns(req.history.GetOr([])) + [TextTurn("user", req.userPrompt)]
  }

  /** Sending the same request history twice stores it twice. */
  lemma {:induction false} SameHistoryStoredTwice(h0: seq<Content>, req: ChatRequest)
    ensures h0 + RequestTurns(req) + RequestTurns(req)
         == h0 + ToTurns(req.history.GetOr([]) + [ChatMessage("user", req.userPrompt)]
                         + req.history.GetOr([]) + [ChatMessage("user", req.userPrompt)])
  {
    var msgs := req.history.GetOr([]);
    var p := [ChatMessage("user", req.userPrompt)];
    ToTurnsAppend(msgs, p);
    ToTurnsAppend(msgs + p, msgs);
    ToTurnsAppend(msgs + p + msgs, p);
    assert ToTurns(p) == [TextTurn("user", req.userPrompt)];
  }

  class ChatGemini {
    var history: seq<Content>

    constructor ()
      ensures history == []
    {
      history := [];
    }

    /**
     * The outcome of a text call with the given configuration: if it cannot be built nothing
     * changes and no request is sent; otherwise the request's entries are appended, the whole
     * history is sent, and the result is the normalised reply or the exception's sentinel.
     */
    ghost predicate SentText(h0: seq<Content>, req: ChatRequest, cfg: Outcome<GenerateContentConfig>,
                             reply: Outcome<GenerateContentResponse>, r: ChatResponse, calls: seq<ServiceCall>)
      reads this
    {
      if cfg.Threw? then
        history == h0 && calls == [] && r == Sentinel(cfg.message)
      else
        && history == h0 + RequestTurns(req)
        && Value(req.model).Returned?
        && calls == [GenerateContent(Value(req.model).value, history, cfg.value)]
        && r == Complete(reply)
    }

    method Send(req: ChatRequest, cfg: Outcome<GenerateContentConfig>, reply: Outcome<GenerateContentResponse>)
      returns (r: ChatResponse, calls: seq<ServiceCall>)
      requires cfg.Returned? ==> IsDeclaredModel(req.model)
      modifies this
      ensures SentText(old(history), req, cfg, reply, r, calls)
    {
      if cfg.Threw? {
        return Sentinel(cfg.message), [];
      }
      AppendRequestHistory(req.history);
      history := history + [TextTurn("user", req.userPrompt)];
      calls := [GenerateContent(Value(req.model).value, history, cfg.value)];
      r := Complete(reply);
    }

    /** The `foreach` over the request's history, when it is not null. */
    method AppendRequestHistory(msgs: Option<seq<ChatMessage>>)
      modifies this
      ensures history == old(history) + ToTurns(msgs.GetOr([]))
    {
      if msgs.Some? {
        history := AppendMessages(history, msgs.value);
      }
    }

    /** `Invoke`: a request carrying a schema is refused before anything is appended. */
    method Invoke(req: ChatRequest, reply: Outcome<GenerateContentResponse>)
      returns (r: ChatResponse, calls: seq<ServiceCall>)
      modifies this
      ensures req.responseSchema.Some? ==>
        r == Sentinel(StructuredOutputMessage) && calls == [] && history == old(history)
      ensures req.responseSchema.None? ==>
        SentText(old(history), req, ConfigFor(req, DefaultSystemPrompt, false, None), reply, r, calls)
    {
      if req.responseSchema.Some? {
        return Sentinel(StructuredOutputMessage), [];
      }
      r, calls := Send(req, ConfigFor(req, DefaultSystemPrompt, false, None), reply);
    }

    /** `WebSearchInvoke`: as `Invoke`, with the search tool and the web-search default prompt. */
    method WebSearchInvoke(req: ChatRequest, reply: Outcome<GenerateContentResponse>)
      returns (r: ChatResponse, calls: seq<ServiceCall>)
      modifies this
      ensures req.responseSchema.Some? ==>
        r == Sentinel(StructuredOutputMessage) && calls == [] && history == old(history)
      ensures req.responseSchema.None? ==>
        SentText(old(history), req, ConfigFor(req, WebSearchSystemPrompt, true, None), reply, r, calls)
    {
      if req.responseSchema.Some? {
        return Sentinel(StructuredOutputMessage), [];
      }
      r, calls := Send(req, ConfigFor(req, WebSearchSystemPrompt, true, None), reply);
    }

    /** `InvokeWithStructuredOutput`: copies the request's schema, null or not, without checking it. */
    method InvokeWithStructuredOutput(req: ChatRequest, reply: Outcome<GenerateContentResponse>)
      returns (r: ChatResponse, calls: seq<ServiceCall>)
      modifies this
      ensures SentText(old(history), req, ConfigFor(req, DefaultSystemPrompt, false, req.responseSchema), reply, r, calls)
    {
      r, calls := Send(req, ConfigFor(req, DefaultSystemPrompt, false, req.responseSchema), reply);
    }

    /**
     * `InvokeMultimodalAgent`: reject a null or empty path, upload, wait while the uploaded
     * handle is PROCESSING, then append the request's history, a file entry and a prompt
     * entry, and send the whole history. The schema is set when the request has one.
     */
    method InvokeMultimodalAgent(req: ChatRequest, filePath: Option<string>,
                                 upload: Outcome<FileHandle>, pollReplies: seq<Outcome<FileHandle>>,
                                 reply: Outcome<GenerateContentResponse>)
      returns (c: Completion<ChatResponse>, calls: seq<ServiceCall>)
      modifies this
      ensures filePath.None? || filePath.value == "" ==>
        c == Returns(Sentinel(MissingFilePathMessage)) && calls == [] && history == old(history)
      ensures filePath.Some? && filePath.value != "" ==>
        |calls| > 0 && calls[0] == UploadFile(filePath.value, UploadDisplayName)
      // the result, whichever way the call goes once the file is uploaded
      ensures filePath.Some? && filePath.value != "" ==>
        c == MultimodalResult(upload, pollReplies, ConfigFor(req, DefaultSystemPrompt, false, req.responseSchema), reply)
      ensures filePath.Some? && filePath.value != "" && upload.Threw? ==>
        c == Returns(Sentinel(upload.message)) && calls == [UploadFile(filePath.value, UploadDisplayName)]
        && history == old(history)
      ensures filePath.Some? && filePath.value != "" && upload.Returned? && upload.value.state == Some(PROCESSING) ==>
        && history == old(history)
        && (c == NeverReturns <==> forall j :: 0 <= j < |pollReplies| ==> pollReplies[j].Returned?)
        && (FirstThrow(pollReplies).None? ==>
              c == NeverReturns && calls == [calls[0]] + GetCalls(upload.value.name, |pollReplies|))
        // the first poll that throws ends the call with its sentinel, before any generation request
        && (FirstThrow(pollReplies).Some? ==>
              && c == Returns(Sentinel(pollReplies[FirstThrow(pollReplies).value].message))
              && calls == [calls[0]] + GetCalls(upload.value.name, FirstThrow(pollReplies).value + 1))
      ensures filePath.Some? && filePath.value != "" && upload.Returned? && upload.value.state != Some(PROCESSING) ==>
        var cfg := ConfigFor(req, DefaultSystemPrompt, false, req.responseSchema);
        if cfg.Threw? then
          c == Returns(Sentinel(cfg.message)) && calls == [calls[0]] && history == old(history)
        else
          && history == old(history) + ToTurns(req.history.GetOr([]))
                        + [FileTurn(upload.value.uri, upload.value.mimeType), TextTurn("user", req.userPrompt)]
          && calls == [calls[0], GenerateContent(Value(req.model).value, history, cfg.value)]
          && c == Returns(Complete(reply))
    {
      if filePath.None? || filePath.value == "" {
        return Returns(Sentinel(MissingFilePathMessage)), [];
      }
      calls := [UploadFile(filePath.value, UploadDisplayName)];
      if upload.Threw? {
        return Returns(Sentinel(upload.message)), calls;
      }
      var uploadResult := upload.value;
      var status, polls := AwaitProcessing(uploadResult, pollReplies);
      calls := calls + GetCalls(uploadResult.name, polls);
      match status {
        case StillProcessing =>
          return NeverReturns, calls;
        case FetchThrew(e) =>
          return Returns(Sentinel(e)), calls;
        case Proceeded =>
      }
      var schema := if req.responseSchema.Some? then req.responseSchema else None;
      var config := ConfigFor(req, DefaultSystemPrompt, false, schema);
      if config.Threw? {
        return Returns(Sentinel(config.message)), calls;
      }
      AppendRequestHistory(req.history);
      history := history + [FileTurn(uploadResult.uri, uploadResult.mimeType), TextTurn("user", req.userPrompt)];
      calls := calls + [GenerateContent(Value(req.model).value, history, config.value)];
      c := Returns(Complete(reply));
    }
  }
}
