/** `ChatMessage`, `ChatRequest` and `ChatResponse`: plain records of the library's API. */
module ChatModels {
  import opened Types
  import opened AgentRequest
  import opened GenAI

  datatype ChatMessage = ChatMessage(role: string, message: string)

  /**
   * `ChatRequest`. Besides the fields its declaration shows, the request-driven chat
   * reads `ResponseSchema`, `Temperature` and `ThinkingLevel`, all nullable.
   */
  datatype ChatRequest = ChatRequest(
    model: int,
    systemPrompt: Option<string>,
    userPrompt: string,
    history: Option<seq<ChatMessage>>,
    responseSchema: Option<Schema>,
    temperature: Option<real>,
    thinkingLevel: Option<ThinkingLevel>)

  datatype ChatResponse = ChatResponse(
    content: string,
    inputTokens: int,
    outputTokens: int,
    totalTokens: int)

  /** The response every `catch` block builds: the exception's message and no tokens. */
  function Sentinel(message: string): (r: ChatResponse)
    ensures r.content == message
    ensures r.inputTokens == 0 && r.outputTokens == 0 && r.totalTokens == 0
  {
    ChatResponse(message, 0, 0, 0)
  }

  /** `FeelingAnalysysDetail`: the analysis part of the structured reply. */
  datatype FeelingAnalysisDetail = FeelingAnalysisDetail(
    dominantFeeling: string,
    confidenceLevel: string,
    justification: string)

  /** `FeelingAnalysysOutput`: the structured reply the analysis asks for, once decoded. */
  datatype FeelingAnalysisOutput = FeelingAnalysisOutput(
    transcriptedText: string,
    feelingAnalysis: FeelingAnalysisDetail)

  /** `response.Content` of a call that returned, as the result of an operation that may also throw. */
  function ContentOf(c: Completion<ChatResponse>): (r: Completion<Outcome<string>>)
    ensures r.Returns? <==> c.Returns?
    ensures r.Returns? ==> r.value == Returned(c.value.content)
  {
    match c
    case Returns(response) => Returns(Returned(response.content))
    case NeverReturns => NeverReturns
  }

  /**
   * The decoding step after a call: an exception already thrown is kept, returned text is
   * handed to `deserialize` (`JsonSerializer.Deserialize`), which may itself throw.
   */
  function Decoded(r: Completion<Outcome<string>>, deserialize: string -> Outcome<FeelingAnalysisOutput>)
    : (d: Completion<Outcome<FeelingAnalysisOutput>>)
    ensures d.Returns? <==> r.Returns?
    ensures r.Returns? && r.value.Threw? ==> d.value == Threw(r.value.message)
    ensures r.Returns? && r.value.Returned? ==> d.value == deserialize(r.value.value)
  {
    match r
    case NeverReturns => NeverReturns
    case Returns(Threw(e)) => Returns(Threw(e))
    case Returns(Returned(text)) => Returns(deserialize(text))
  }
}
