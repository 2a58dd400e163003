/**
 * The transcription feature built on the request-driven chat: each operation refuses a file
 * the audio check rejects, with an `ArgumentException`, before `InvokeMultimodalAgent` is
 * called; otherwise it sends a Gemini 2.5 Flash request with the operation's prompts.
 */
module TranscriptionFeature {
  import opened Types
  import opened GeminiModels
  import opened GenAI
  import opened ChatModels
  import opened Normalizer
  import opened Upload
  import opened AudioSniffer
  import FeatureChat

  const RejectedPrefix := "O arquivo fornecido não é um arquivo de áudio válido: "

  /** A system prompt and a user prompt, whose text is not part of this model. */
  datatype Prompts = Prompts(systemPrompt: string, userPrompt: string)

  /** The request each operation builds: Gemini 2.5 Flash, its prompts and, for the analysis, a schema. */
  function RequestFor(p: Prompts, schema: Option<Schema>): (r: ChatRequest)
    ensures r.model == Gemini_2_5_Flash && r.history.None? && r.responseSchema == schema
    ensures r.systemPrompt == Some(p.systemPrompt) && r.userPrompt == p.userPrompt
    ensures r.temperature.None? && r.thinkingLevel.None?
  {
    ChatRequest(Gemini_2_5_Flash, Some(p.systemPrompt), p.userPrompt, None, schema, None, None)
  }

  /**
   * The configuration such a request is sent with: the operation's system prompt, the
   * temperature 0 that a missing one defaults to, no thinking config (Gemini 2.5 Flash is
   * on the no-thinking list), the schema, and no search tool.
   */
  lemma RequestConfigFor(p: Prompts, schema: Option<Schema>)
    ensures FeatureChat.ConfigFor(RequestFor(p, schema), FeatureChat.DefaultSystemPrompt, false, schema)
         == Returned(GenerateContentConfig(p.systemPrompt, Some(0.0), None, schema, false))
  {
  }

  /**
   * What an operation yields before any decoding: the rejection with the check's reason, or
   * the content of the multimodal reply, or nothing while the upload stays PROCESSING.
   */
  function TranscriptionResult(audioPath: Option<string>, file: FileEntry, p: Prompts, schema: Option<Schema>,
                               upload: Outcome<FileHandle>, pollReplies: seq<Outcome<FileHandle>>,
                               reply: Outcome<GenerateContentResponse>): (r: Completion<Outcome<string>>)
    ensures !AcceptedAudio(audioPath, file) ==>
      && r.Returns? && r.value.Threw?
      && |r.value.message| > |RejectedPrefix|
      && r.value.message[..|RejectedPrefix|] == RejectedPrefix
    ensures !AcceptedAudio(audioPath, file) ==> r == Returns(Threw(RejectedPrefix + RejectionReason(audioPath, file)))
    ensures AcceptedAudio(audioPath, file) ==> (r.Returns? ==> r.value.Returned?)
    ensures AcceptedAudio(audioPath, file) && upload.Threw? ==> r == Returns(Returned(upload.message))
    ensures AcceptedAudio(audioPath, file) && upload.Returned? && upload.value.state != Some(PROCESSING) ==>
      r == Returns(Returned(Complete(reply).content))
  {
    if !AcceptedAudio(audioPath, file) then
      Returns(Threw(RejectedPrefix + RejectionReason(audioPath, file)))
    else
      ContentOf(MultimodalResult(upload, pollReplies,
                                 Returned(GenerateContentConfig(p.systemPrompt, Some(0.0), None, schema, false)), reply))
  }

  class Transcription {
    const gemini: FeatureChat.ChatGemini

    constructor ()
      ensures fresh(gemini) && gemini.history == []
    {
      gemini := new FeatureChat.ChatGemini();
    }

    /**
     * The requests an operation sends and what it does to the chat's history: nothing for a
     * rejected file; for an accepted one the upload comes first. A failed upload stops there;
     * a PROCESSING one is polled until a poll throws (or forever), with the history left
     * alone; once the upload needs no wait the file entry and the prompt entry are appended
     * and the whole history is sent to Gemini 2.5 Flash with the operation's configuration.
     */
    ghost predicate Sent(h0: seq<Content>, audioPath: Option<string>, file: FileEntry, p: Prompts,
                         schema: Option<Schema>, upload: Outcome<FileHandle>,
                         pollReplies: seq<Outcome<FileHandle>>, calls: seq<ServiceCall>)
      reads gemini
    {
      if !AcceptedAudio(audioPath, file) then
        calls == [] && gemini.history == h0
      else
        && |calls| > 0 && calls[0] == UploadFile(audioPath.value, UploadDisplayName)
        // an upload that throws, a poll that throws, or polls that never end leave the history alone
        && (upload.Threw? ==> gemini.history == h0 && calls == [calls[0]])
        && (upload.Returned? && upload.value.state == Some(PROCESSING) && FirstThrow(pollReplies).Some? ==>
              && gemini.history == h0
              && calls == [calls[0]] + GetCalls(upload.value.name, FirstThrow(pollReplies).value + 1))
        && (upload.Returned? && upload.value.state == Some(PROCESSING) && FirstThrow(pollReplies).None? ==>
              && gemini.history == h0
              && calls == [calls[0]] + GetCalls(upload.value.name, |pollReplies|))
        && (upload.Returned? && upload.value.state != Some(PROCESSING) ==>
              && gemini.history == h0 + [FileTurn(upload.value.uri, upload.value.mimeType), TextTurn("user", p.userPrompt)]
              && calls == [calls[0], GenerateContent("gemini-2.5-flash", gemini.history,
                                                     GenerateContentConfig(p.systemPrompt, Some(0.0), None, schema, false))])
    }

    /** `TranscribeAudio`: the content of the multimodal reply, or the rejection. */
    method TranscribeAudio(audioPath: Option<string>, file: FileEntry, prompts: Prompts,
                           upload: Outcome<FileHandle>, pollReplies: seq<Outcome<FileHandle>>,
                           reply: Outcome<GenerateContentResponse>)
      returns (r: Completion<Outcome<string>>, calls: seq<ServiceCall>)
      modifies gemini
      ensures r == TranscriptionResult(audioPath, file, prompts, None, upload, pollReplies, reply)
      ensures Sent(old(gemini.history), audioPath, file, prompts, None, upload, pollReplies, calls)
    {
      r, calls := Transcribe(audioPath, file, prompts, None, upload, pollReplies, reply);
    }

    /**
     * `TranscribeAndAnalyze`: the multimodal reply under the output schema, handed to the
     * JSON deserialiser, which is given as `deserialize` and may throw.
     */
    method TranscribeAndAnalyze(audioPath: Option<string>, file: FileEntry, prompts: Prompts, outputSchema: Schema,
                                deserialize: string -> Outcome<FeelingAnalysisOutput>,
                                upload: Outcome<FileHandle>, pollReplies: seq<Outcome<FileHandle>>,
                                reply: Outcome<GenerateContentResponse>)
      returns (r: Completion<Outcome<FeelingAnalysisOutput>>, calls: seq<ServiceCall>)
      modifies gemini
      ensures r == Decoded(TranscriptionResult(audioPath, file, prompts, Some(outputSchema), upload, pollReplies, reply),
                           deserialize)
      ensures Sent(old(gemini.history), audioPath, file, prompts, Some(outputSchema), upload, pollReplies, calls)
    {
      var content;
      content, calls := Transcribe(audioPath, file, prompts, Some(outputSchema), upload, pollReplies, reply);
      r := match content
           case NeverReturns => NeverReturns
           case Returns(Threw(e)) => Returns(Threw(e))
           case Returns(Returned(text)) => Returns(deserialize(text));
    }

    /** The guard and the call both operations share. */
    method Transcribe(audioPath: Option<string>, file: FileEntry, prompts: Prompts, schema: Option<Schema>,
                      upload: Outcome<FileHandle>, pollReplies: seq<Outcome<FileHandle>>,
                      reply: Outcome<GenerateContentResponse>)
      returns (r: Completion<Outcome<string>>, calls: seq<ServiceCall>)
      modifies gemini
      ensures r == TranscriptionResult(audioPath, file, prompts, schema, upload, pollReplies, reply)
      ensures Sent(old(gemini.history), audioPath, file, prompts, schema, upload, pollReplies, calls)
    {
      var ok, reason := IsAudioFile(audioPath, file);
      if !ok {
        return Returns(Threw(RejectedPrefix + reason)), [];
      }
      var req := RequestFor(prompts, schema);
      RequestConfigFor(prompts, schema);
      var c;
      c, calls := gemini.InvokeMultimodalAgent(req, audioPath, upload, pollReplies, reply);
      r := match c
           case Returns(response) => Returns(Returned(response.content))
           case NeverReturns => NeverReturns;
    }
  }
}
