/**
 * End-to-end runs of the model: the chatbot example's memory seeding, and sessions that
 * exercise the plain, empty-reply and multimodal paths of a `GeminiAgent`.
 */
module Scenarios {
  import opened Types
  import opened GeminiModels
  import opened AgentRequest
  import opened GenAI
  import opened ChatModels
  import opened Normalizer
  import opened AudioSniffer
  import opened Agent
  import opened Upload
  import TranscriptionFeature

  /** The chatbot example's retrieved context. */
  const RetrievedContext: seq<ChatMessage> := [
    ChatMessage("system", "You are a helpful assistant for a travel booking website."),
    ChatMessage("user", "What is the weather like in New York?"),
    ChatMessage("assistant", "The weather in New York is currently sunny with a high of 75°F.")
  ]

  /**
   * `Chatbot.Chat`: a Gemini 2.5 Flash agent with an empty system prompt is seeded with the
   * context, given the user's message and invoked. The "system" message is stored as a user
   * turn, the empty system prompt is sent as it is, and no thinking config is sent.
   */
  method ChatbotChat(userMessage: string, reply: Outcome<GenerateContentResponse>)
    returns (r: ChatResponse, calls: seq<ServiceCall>)
    ensures r == Complete(reply)
    ensures calls == [GenerateContent("gemini-2.5-flash",
      [TextTurn("user", "You are a helpful assistant for a travel booking website."),
       TextTurn("user", "What is the weather like in New York?"),
       TextTurn("model", "The weather in New York is currently sunny with a high of 75°F."),
       TextTurn("user", userMessage)],
      GenerateContentConfig("", Some(0.0), None, None, false))]
  {
    var req := CreateGeminiAgentRequest(Gemini_2_5_Flash, Some(""), "", DefaultCapacity, 0.0);
    var agent := new GeminiAgent(ResolveSettings(req).value);
    agent.UpdateMemory(Some(RetrievedContext));
    Conversation.ToTurnsAt(RetrievedContext, 0);
    Conversation.ToTurnsAt(RetrievedContext, 1);
    Conversation.ToTurnsAt(RetrievedContext, 2);
    assert agent.history == [
      TextTurn("user", "You are a helpful assistant for a travel booking website."),
      TextTurn("user", "What is the weather like in New York?"),
      TextTurn("model", "The weather in New York is currently sunny with a high of 75°F.")];
    agent.NewMessage(userMessage);
    assert agent.Configure(false, None) == Returned(GenerateContentConfig("", Some(0.0), None, None, false));
    assert Value(agent.model) == Returned("gemini-2.5-flash");
    r, calls := agent.Invoke(reply);
    assert agent.history == [
      TextTurn("user", "You are a helpful assistant for a travel booking website."),
      TextTurn("user", "What is the weather like in New York?"),
      TextTurn("model", "The weather in New York is currently sunny with a high of 75°F."),
      TextTurn("user", userMessage)];
  }

  /** The reply with one candidate, one text part and the given counters. */
  function TextReply(text: string, input: int, output: int, total: int): GenerateContentResponse {
    GenerateContentResponse(
      Some([Candidate(Some(Content(Some("model"), Some([TextPart(Some(text))]))))]),
      Some(UsageMetadata(Some(input), Some(output), Some(total))))
  }

  /** A default agent sends "Hello", gets "Hi there" with usage (3, 2, 5) and has logged one turn. */
  method PlainInvoke() returns (r: ChatResponse, history: seq<Content>)
    ensures r == ChatResponse("Hi there", 3, 2, 5)
    ensures history == [TextTurn("user", "Hello")]
  {
    var req := CreateGeminiAgentRequest(DefaultModel, None, "Hello", DefaultCapacity, 0.0);
    var agent := new GeminiAgent(ResolveSettings(req).value);
    var calls;
    r, calls := agent.Invoke(Returned(TextReply("Hi there", 3, 2, 5)));
    history := agent.history;
  }

  /** A reply without candidates gives empty content and no tokens, and the turn is still logged. */
  method EmptyReplyInvoke() returns (r: ChatResponse, history: seq<Content>)
    ensures r == ChatResponse("", 0, 0, 0)
    ensures history == [TextTurn("user", "Hello")]
  {
    var req := CreateGeminiAgentRequest(DefaultModel, None, "Hello", DefaultCapacity, 0.0);
    var agent := new GeminiAgent(ResolveSettings(req).value);
    var calls;
    r, calls := agent.Invoke(Returned(GenerateContentResponse(Some([]), None)));
    history := agent.history;
  }

  /** A remote failure is returned as a sentinel, and the turn is still logged. */
  method FailedInvoke(message: string) returns (r: ChatResponse, history: seq<Content>)
    ensures r == Sentinel(message)
    ensures history == [TextTurn("user", "Hello")]
  {
    var req := CreateGeminiAgentRequest(DefaultModel, None, "Hello", DefaultCapacity, 0.0);
    var agent := new GeminiAgent(ResolveSettings(req).value);
    var calls;
    r, calls := agent.Invoke(Threw(message));
    history := agent.history;
  }

  /** A WAV upload that is already ACTIVE logs the file turn, then the prompt turn. */
  method MultimodalActiveUpload(uri: string, mime: string)
    returns (c: Completion<ChatResponse>, calls: seq<ServiceCall>, history: seq<Content>)
    ensures c == Returns(ChatResponse("ok", 0, 0, 0))
    ensures |calls| == 2 && calls[0] == UploadFile("audio.wav", UploadDisplayName)
    ensures calls[1].GenerateContent? && !calls[1].config.googleSearch && calls[1].config.responseSchema.None?
    ensures history == [FileTurn(Some(uri), Some(mime)), TextTurn("user", "Transcribe")]
  {
    var req := CreateGeminiAgentRequest(Gemini_2_5_Flash, None, "Transcribe", DefaultCapacity, 0.0);
    var agent := new GeminiAgent(ResolveSettings(req).value);
    var handle := FileHandle(Some("files/1"), Some(uri), Some(mime), Some(ACTIVE));
    c, calls := agent.InvokeMultimodal(Some("audio.wav"), None, Returned(handle), [],
                                       Returned(GenerateContentResponse(
                                         Some([Candidate(Some(Content(None, Some([TextPart(Some("ok"))]))))]), None)));
    history := agent.history;
  }

  /**
   * An upload that is PROCESSING when first returned never gets past the wait, even when the
   * file becomes ACTIVE at the first poll: the call does not return and nothing is logged.
   */
  method MultimodalProcessingUpload(pollsGiven: nat) returns (c: Completion<ChatResponse>, history: seq<Content>)
    ensures c == NeverReturns
    ensures history == []
  {
    var req := CreateGeminiAgentRequest(Gemini_2_5_Flash, None, "Transcribe", DefaultCapacity, 0.0);
    var agent := new GeminiAgent(ResolveSettings(req).value);
    var processing := FileHandle(Some("files/1"), Some("uri"), Some("audio/wav"), Some(PROCESSING));
    var active := FileHandle(Some("files/1"), Some("uri"), Some("audio/wav"), Some(ACTIVE));
    var calls;
    c, calls := agent.InvokeMultimodal(Some("audio.wav"), None, Returned(processing),
                                       seq(pollsGiven, _ => Returned(active)), Returned(GenerateContentResponse(None, None)));
    history := agent.history;
  }

  /** An empty path fails before any request, and the history is unchanged. */
  method MultimodalEmptyPath() returns (c: Completion<ChatResponse>, calls: seq<ServiceCall>, history: seq<Content>)
    ensures c == Returns(Sentinel(MissingFilePathMessage))
    ensures calls == [] && history == []
  {
    var req := CreateGeminiAgentRequest(Gemini_2_5_Flash, None, "Transcribe", DefaultCapacity, 0.0);
    var agent := new GeminiAgent(ResolveSettings(req).value);
    c, calls := agent.InvokeMultimodal(Some(""), None, Threw("not uploaded"), [], Threw("not sent"));
    history := agent.history;
  }

  /**
   * A PROCESSING upload whose first poll throws: the call ends with that exception's
   * sentinel after one poll, and no generation request is sent.
   */
  method MultimodalPollThrows() returns (c: Completion<ChatResponse>, calls: seq<ServiceCall>, history: seq<Content>)
    ensures c == Returns(Sentinel("boom"))
    ensures calls == [UploadFile("audio.wav", UploadDisplayName), GetFile(Some("files/1"))]
    ensures history == []
  {
    var req := CreateGeminiAgentRequest(Gemini_2_5_Flash, None, "Transcribe", DefaultCapacity, 0.0);
    var agent := new GeminiAgent(ResolveSettings(req).value);
    var processing := FileHandle(Some("files/1"), Some("uri"), Some("audio/wav"), Some(PROCESSING));
    assert FirstThrow([Threw("boom")]) == Some(0);
    c, calls := agent.InvokeMultimodal(Some("audio.wav"), None, Returned(processing), [Threw("boom")],
                                       Returned(GenerateContentResponse(None, None)));
    history := agent.history;
  }

  /** A WAV file whose upload is already ACTIVE is transcribed to the reply's text. */
  method TranscribeActiveWav(text: string) returns (r: Completion<Outcome<string>>)
    ensures r == Returns(Returned(text))
  {
    var wav := [B('R'), B('I'), B('F'), B('F'), 0, 0, 0, 0, B('W'), B('A'), B('V'), B('E')];
    assert LooksLikeWav(Header(wav));
    assert "audio.wav"[0] == 'a' && !IsWhiteSpace('a');
    var file := FileEntry(true, false, wav);
    assert AcceptedAudio(Some("audio.wav"), file);
    assert Complete(Returned(TextReply(text, 1, 1, 2))).content == text;
    var feature := new TranscriptionFeature.Transcription();
    var handle := FileHandle(Some("files/1"), Some("uri"), Some("audio/wav"), Some(ACTIVE));
    var calls;
    r, calls := feature.TranscribeAudio(Some("audio.wav"), file,
                                        TranscriptionFeature.Prompts("system", "Transcribe"),
                                        Returned(handle), [], Returned(TextReply(text, 1, 1, 2)));
  }
}
