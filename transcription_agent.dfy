/**
 * The transcription example built on two `GeminiAgent`s (Gemini 2.5 Flash, one for
 * transcription and one for feeling analysis): both operations refuse a file the audio
 * check rejects, with an `ArgumentException`, before any agent is invoked.
 */
module TranscriptionExample {
  import opened Types
  import opened GeminiModels
  import opened AgentRequest
  import opened GenAI
  import opened ChatModels
  import opened Normalizer
  import opened Upload
  import opened AudioSniffer
  import Agent

  const TranscribeRejectedPrefix := "The audio file isn't supported: "
  const AnalyzeRejectedPrefix := "O arquivo fornecido não é um arquivo de áudio válido: "

  /** A system prompt and a user prompt, whose text is not part of this model. */
  datatype Prompts = Prompts(systemPrompt: string, userPrompt: string)

  /** The request each agent is created from: Gemini 2.5 Flash, other fields left at their defaults. */
  function AgentRequestFor(p: Prompts): CreateGeminiAgentRequest {
    CreateGeminiAgentRequest(Gemini_2_5_Flash, Some(p.systemPrompt), p.userPrompt, DefaultCapacity, 0.0)
  }

  /** Such an agent takes no thinking config, whatever its settings. */
  lemma ExampleAgentsDoNotThink(p: Prompts)
    ensures Agent.ResolveSettings(AgentRequestFor(p)).Returned?
    ensures var s := Agent.ResolveSettings(AgentRequestFor(p)).value;
      s.model == Gemini_2_5_Flash && s.thinkingLevel == LOW
  {
  }

  /**
   * What an operation yields before any decoding: the rejection with the check's reason, or
   * the content of the agent's multimodal reply under the agent's configuration, or nothing
   * while the upload stays PROCESSING.
   */
  function TranscriptionResult(prefix: string, audioPath: Option<string>, file: FileEntry,
                               cfg: Outcome<GenerateContentConfig>, upload: Outcome<FileHandle>,
                               pollReplies: seq<Outcome<FileHandle>>, reply: Outcome<GenerateContentResponse>)
    : (r: Completion<Outcome<string>>)
    ensures !AcceptedAudio(audioPath, file) ==>
      && r.Returns? && r.value.Threw?
      && |r.value.message| > |prefix|
      && r.value.message[..|prefix|] == prefix
    ensures !AcceptedAudio(audioPath, file) ==> r == Returns(Threw(prefix + RejectionReason(audioPath, file)))
    ensures AcceptedAudio(audioPath, file) ==> (r.Returns? ==> r.value.Returned?)
    ensures AcceptedAudio(audioPath, file) && upload.Threw? ==> r == Returns(Returned(upload.message))
    ensures AcceptedAudio(audioPath, file) && upload.Returned? && upload.value.state != Some(PROCESSING)
            && cfg.Returned? ==>
      r == Returns(Returned(Complete(reply).content))
  {
    if !AcceptedAudio(audioPath, file) then Returns(Threw(prefix + RejectionReason(audioPath, file)))
    else ContentOf(MultimodalResult(upload, pollReplies, cfg, reply))
  }

  class TranscriptionAgent {
    const transcriptionAgent: Agent.GeminiAgent
    const feelingAnalysisAgent: Agent.GeminiAgent

    /** What construction establishes: two distinct Gemini 2.5 Flash agents at temperature 0. */
    predicate Valid() {
      && transcriptionAgent != feelingAnalysisAgent
      && transcriptionAgent.model == Gemini_2_5_Flash && feelingAnalysisAgent.model == Gemini_2_5_Flash
      && transcriptionAgent.temperature == 0.0 && feelingAnalysisAgent.temperature == 0.0
    }

    constructor (transcription: Prompts, feelingAnalysis: Prompts)
      ensures Valid()
      ensures fresh(transcriptionAgent) && fresh(feelingAnalysisAgent)
      ensures transcriptionAgent.systemPrompt == transcription.systemPrompt
      ensures transcriptionAgent.userPrompt == transcription.userPrompt
      ensures feelingAnalysisAgent.systemPrompt == feelingAnalysis.systemPrompt
      ensures feelingAnalysisAgent.userPrompt == feelingAnalysis.userPrompt
      ensures transcriptionAgent.thinkingLevel == LOW && feelingAnalysisAgent.thinkingLevel == LOW
      ensures transcriptionAgent.history == [] && feelingAnalysisAgent.history == []
    {
      ExampleAgentsDoNotThink(transcription);
      ExampleAgentsDoNotThink(feelingAnalysis);
      transcriptionAgent := new Agent.GeminiAgent(Agent.ResolveSettings(AgentRequestFor(transcription)).value);
      feelingAnalysisAgent := new Agent.GeminiAgent(Agent.ResolveSettings(AgentRequestFor(feelingAnalysis)).value);
    }

    /**
     * The requests an operation sends through an agent and what it does to that agent's
     * history: nothing for a rejected file; for an accepted one the upload comes first. A
     * failed upload stops there; a PROCESSING one is polled until a poll throws (or forever),
     * with the history left alone; once the upload needs no wait the file entry and the
     * agent's prompt entry are appended and the whole history is sent to Gemini 2.5 Flash
     * with the agent's system prompt.
     */
    ghost predicate Sent(agent: Agent.GeminiAgent, h0: seq<Content>, audioPath: Option<string>, file: FileEntry,
                         schema: Option<Schema>, upload: Outcome<FileHandle>,
                         pollReplies: seq<Outcome<FileHandle>>, calls: seq<ServiceCall>)
      reads agent
    {
      if !AcceptedAudio(audioPath, file) then
        calls == [] && agent.history == h0
      else
        && |calls| > 0 && calls[0] == UploadFile(audioPath.value, UploadDisplayName)
        // an upload that throws, a poll that throws, or polls that never end leave the history alone
        && (upload.Threw? ==> agent.history == h0 && calls == [calls[0]])
        && (upload.Returned? && upload.value.state == Some(PROCESSING) && FirstThrow(pollReplies).Some? ==>
              && agent.history == h0
              && calls == [calls[0]] + GetCalls(upload.value.name, FirstThrow(pollReplies).value + 1))
        && (upload.Returned? && upload.value.state == Some(PROCESSING) && FirstThrow(pollReplies).None? ==>
              && agent.history == h0
              && calls == [calls[0]] + GetCalls(upload.value.name, |pollReplies|))
        && (upload.Returned? && upload.value.state != Some(PROCESSING) ==>
              && agent.history == h0 + [FileTurn(upload.value.uri, upload.value.mimeType), TextTurn("user", agent.userPrompt)]
              && calls == [calls[0], GenerateContent("gemini-2.5-flash", agent.history,
                                                     GenerateContentConfig(agent.systemPrompt, Some(0.0), None, schema, false))])
    }

    /**
     * `TranscribeAudio`: the content of the transcription agent's multimodal reply. A rejected
     * file throws with the check's reason and sends nothing; an accepted one is uploaded.
     */
    method TranscribeAudio(audioPath: Option<string>, file: FileEntry,
                           upload: Outcome<FileHandle>, pollReplies: seq<Outcome<FileHandle>>,
                           reply: Outcome<GenerateContentResponse>)
      returns (r: Completion<Outcome<string>>, calls: seq<ServiceCall>)
      requires Valid()
      modifies transcriptionAgent`history
      ensures r == TranscriptionResult(TranscribeRejectedPrefix, audioPath, file, transcriptionAgent.Configure(false, None),
                                       upload, pollReplies, reply)
      ensures transcriptionAgent.Configure(false, None).Returned?
      ensures Sent(transcriptionAgent, old(transcriptionAgent.history), audioPath, file, None, upload, pollReplies, calls)
    {
      var ok, reason := IsAudioFile(audioPath, file);
      if !ok {
        return Returns(Threw(TranscribeRejectedPrefix + reason)), [];
      }
      var c;
      c, calls := transcriptionAgent.InvokeMultimodal(audioPath, None, upload, pollReplies, reply);
      r := match c
           case Returns(response) => Returns(Returned(response.content))
           case NeverReturns => NeverReturns;
    }

    /**
     * `TranscribeAndAnalyze`: the analysis agent's multimodal reply under the output schema,
     * handed to the JSON deserialiser, which is given as `deserialize` and may throw.
     */
    method TranscribeAndAnalyze(audioPath: Option<string>, file: FileEntry, outputSchema: Schema,
                                deserialize: string -> Outcome<FeelingAnalysisOutput>,
                                upload: Outcome<FileHandle>, pollReplies: seq<Outcome<FileHandle>>,
                                reply: Outcome<GenerateContentResponse>)
      returns (r: Completion<Outcome<FeelingAnalysisOutput>>, calls: seq<ServiceCall>)
      requires Valid()
      modifies feelingAnalysisAgent`history
      ensures r == Decoded(TranscriptionResult(AnalyzeRejectedPrefix, audioPath, file,
                                               feelingAnalysisAgent.Configure(false, Some(outputSchema)),
                                               upload, pollReplies, reply), deserialize)
      ensures feelingAnalysisAgent.Configure(false, Some(outputSchema)).Returned?
      ensures Sent(feelingAnalysisAgent, old(feelingAnalysisAgent.history), audioPath, file, Some(outputSchema), upload, pollReplies, calls)
    {
      var ok, reason := IsAudioFile(audioPath, file);
      if !ok {
        return Returns(Threw(AnalyzeRejectedPrefix + reason)), [];
      }
      var c;
      c, calls := feelingAnalysisAgent.InvokeMultimodal(audioPath, Some(outputSchema), upload, pollReplies, reply);
      r := match c
           case NeverReturns => NeverReturns
           case Returns(response) => Returns(deserialize(response.content));
    }
  }
}
