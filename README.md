# Maestro Gemini sessions, modelled in Dafny

Maestro is a C# wrapper around Google's Gemini SDK. This project models the session logic
of its three chat classes and the audio pre-check in front of its transcription helpers:

- `GeminiAgent` is a stateful agent built from a `CreateGeminiAgentRequest`. It holds a
  conversation history and a current user prompt. `Invoke`, `WebSearchInvoke`,
  `InvokeWithStructuredOutput` and `InvokeMultimodal` append to the history, send the
  whole history and normalise the reply. `NewMessage` replaces the prompt. `UpdateMemory`
  seeds the history from chat messages. This is the `Agent` module.
- `Features.ChatGemini` is a request-driven chat. Every call takes a `ChatRequest`
  carrying the model, the prompts, the caller's history and the options. This is the
  `FeatureChat` module.
- The older `ChatGemini` is bound to an API key and sends a system instruction only. This
  is the `LegacyChat` module.
- The `GeminiModel` → identifier table and the `ThinkingCapacity` → `ThinkingLevel` table
  are the `GeminiModels` and `AgentRequest` modules.
- `IsAudioFile` and its six magic-number sniffers are the `AudioSniffer` module. The copies
  in `Features/Transcription.cs` and in `Examples/TextTranscription/TranscriptionAgent.cs`
  are identical; the table cites the first one. The transcription operations that guard
  on it are the `TranscriptionFeature` and `TranscriptionExample` modules.

The model follows a few conventions:

- **Enums are integer codes.** A C# enum value is any integer, so the models and
  capacities are `int` codes. The two tables return `Outcome` values, `Returned(x)` or
  `Threw(message)`, because an undeclared code throws.
- **Remote calls are parameters.** No remote call is made. Each operation takes the
  service's replies as parameters: the upload reply, the successive `GetAsync` replies
  and the `GenerateContentAsync` reply, each one either a value or an exception.
- **Requests are returned as a trace.** Each operation returns `calls`, the requests it
  sent, in order.
- **Errors become sentinels.** Every invoke turns any exception into a sentinel response:
  the exception's message as content and zero tokens.
- **Classes keep the source's state.** `history` is a `seq<Content>` field that the methods
  reassign. Readonly fields are `const`s.

Two orderings from the source are kept exactly:

- `GeminiAgent` and `Features.ChatGemini` resolve the model identifier while building the
  configuration, before anything is appended. An undeclared model therefore leaves their
  history untouched.
- The legacy `ChatGemini` resolves it only as the argument of the remote call, after
  appending. An undeclared model there still leaves the request's entries in the history.

The wait after an upload tests the state of the handle the upload returned, and its body
never updates that handle. The model keeps this behaviour:

- A handle that is not `PROCESSING` (even `FAILED`) proceeds at once, without a poll.
- A `PROCESSING` handle is polled until a `GetAsync` throws. If none throws, it never
  proceeds. With a finite sequence of poll replies this shows as `NeverReturns` once every
  reply has been used (`Upload.ActiveRepliesDoNotEndWait`, `Scenarios.MultimodalProcessingUpload`).

Some behaviours of the code are easy to misread; the model follows the code:

- **Role mapping.** Role mapping is not idempotent. A stored "model" role maps to "user" if
  it is fed back (`Conversation.RoleForNotIdempotent`).
- **System prompt.** Only a null system prompt is replaced by the default; an empty one is
  sent as it is (`Agent.EmptySystemPromptKept`, `Scenarios.ChatbotChat`).
- **Enum defaults.** A request for `Gemini_3_Pro` or for `MINIMAL` thinking cannot be told
  from the enum's default. The agent therefore uses Gemini 2.5 Flash Lite and LOW instead
  (`Agent.DefaultMembersUnreachable`).
- **Schemas.** Text and structured output are not mutually exclusive everywhere. Only
  `Features.ChatGemini.Invoke` and `WebSearchInvoke` reject a request that carries a
  schema. The agent's `InvokeWithStructuredOutput` accepts a null schema. Multimodal calls
  take a schema.
- **Failed uploads.** A `FAILED` upload is not rejected: it proceeds to generation.

## Model

| member | source | states |
|---|---|---|
| GeminiModels.Value | Gemini/Models/GeminiModels.cs:15-24 | an identifier is returned exactly for the six declared members, and it is non-empty; any other code throws "Modelo Gemini não suportado." |
| GeminiModels.ValueInjective | Gemini/Models/GeminiModels.cs:15-24 | distinct declared models never share an identifier |
| GeminiModels.DefaultIsGemini3Pro | Gemini/Models/GeminiModels.cs:3-11 | `default(GeminiModel)` is Gemini_3_Pro, whose identifier is "gemini-3-pro-preview" |
| AgentRequest.ToThinkingLevel | Gemini/Models/Requests/CreateGeminiAgentRequest.cs:24-34 | a level is returned exactly for the four declared capacities; any other code throws ArgumentOutOfRangeException |
| AgentRequest.CapacityOf | Gemini/Models/Requests/CreateGeminiAgentRequest.cs:14-20 | every thinking level is named by a declared capacity |
| AgentRequest.ThinkingLevelRoundTrip | Gemini/Models/Requests/CreateGeminiAgentRequest.cs:24-34 | the capacity table and its inverse undo each other in both directions |
| AgentRequest.ToThinkingLevelInjective | Gemini/Models/Requests/CreateGeminiAgentRequest.cs:24-34 | distinct declared capacities map to distinct levels |
| RequestConfig.ThinkingOnlyForGemini3 | Gemini/GeminiAgent.cs:44-51 | among declared models, the no-thinking list excludes exactly the two Gemini 3 identifiers |
| RequestConfig.BuildConfig | Gemini/GeminiAgent.cs:31-51 | a configuration exists iff the model is declared; it carries the system instruction, temperature, schema and search flag, and a thinking level iff the model is a Gemini 3 model |
| ChatModels.ContentOf | Gemini/Features/Transcription.cs:36 | a call that returned yields its response's content; a call that never returns yields nothing |
| ChatModels.Decoded | Gemini/Features/Transcription.cs:57-59 | an earlier exception is kept; returned content is handed to the deserialiser, whose outcome is the result |
| ChatModels.Sentinel | Gemini/GeminiAgent.cs:96-107 | the catch block's response carries the exception's message and zero in all three counters |
| Normalizer.Normalize | Gemini/GeminiAgent.cs:67-94 | counters come from the usage metadata, defaulting to 0; content is "" without candidates or parts, and non-empty content is the first part's text |
| Normalizer.NormalizeTakesFirstText | Gemini/GeminiAgent.cs:87-94 | a first part with text yields exactly that text |
| Normalizer.NormalizeIgnoresLaterCandidates | Gemini/GeminiAgent.cs:77-94 | candidates after the first never change the response |
| Normalizer.NormalizeIgnoresLaterParts | Gemini/GeminiAgent.cs:87-94 | parts after the first never change the response |
| Normalizer.CountersIndependentOfContent | Gemini/GeminiAgent.cs:67-94 | two replies with the same usage metadata report the same counters |
| Normalizer.SentinelIndistinguishable | Gemini/GeminiAgent.cs:87-107 | a reply whose text is an error message and that has no usage cannot be told from the error sentinel |
| Normalizer.Complete | Gemini/GeminiAgent.cs:60-107 | a thrown call yields the sentinel of its message; a reply yields its normalisation |
| Conversation.RoleFor | Gemini/GeminiAgent.cs:441-445 | "assistant" maps to "model" and every other role to "user", both directions |
| Conversation.ToTurns | Gemini/GeminiAgent.cs:439-446 | one history entry per message |
| Conversation.ToTurnsAt | Gemini/GeminiAgent.cs:439-446 | the k-th entry is the k-th message's text under its mapped role |
| Conversation.ToTurnsAppend | Gemini/GeminiAgent.cs:439-446 | converting a concatenation is the concatenation of the conversions |
| Conversation.RoleForNotIdempotent | Gemini/GeminiAgent.cs:441-445 | mapping "assistant" twice yields "user": stored roles do not survive being fed back |
| Conversation.AppendMessages | Gemini/GeminiAgent.cs:439-446 | the loop leaves the old history followed by the messages' entries, in order |
| Upload.FirstThrow | Gemini/GeminiAgent.cs:314-319 | the first exception among the poll replies, if any: all earlier replies returned, and none is found iff every reply returned |
| Upload.MultimodalResult | Gemini/GeminiAgent.cs:295-419 | a multimodal call hangs iff the upload is PROCESSING and no poll throws; once the upload needs no wait and the configuration is built, it returns the completed reply |
| Upload.GetCalls | Gemini/GeminiAgent.cs:314-319 | n polls are n GetAsync requests for the uploaded name |
| Upload.AwaitProcessing | Gemini/GeminiAgent.cs:311-319 | the wait proceeds iff the upload was not PROCESSING, without polling; otherwise it ends exactly at the first poll that throws, with that exception and that many polls, or has used up every reply |
| Upload.ActiveRepliesDoNotEndWait | Gemini/GeminiAgent.cs:311-319 | polls reporting ACTIVE do not end the wait on a PROCESSING upload |
| Agent.ResolveSettings | Gemini/GeminiAgent.cs:17-21 | construction succeeds iff the capacity is declared; a default model becomes Flash Lite, a default capacity LOW, a null system prompt the default |
| Agent.DefaultMembersUnreachable | Gemini/GeminiAgent.cs:17-20 | an agent never runs Gemini_3_Pro and never thinks at MINIMAL |
| Agent.EmptySystemPromptKept | Gemini/GeminiAgent.cs:18 | an empty system prompt is not replaced by the default |
| Agent.NewAgent | Gemini/GeminiAgent.cs:8-21 | a new agent exists iff the settings resolve, with those settings and an empty history |
| Agent.GeminiAgent.constructor | Gemini/GeminiAgent.cs:16-21 | fields take the resolved settings; the history starts empty |
| Agent.GeminiAgent.Send | Gemini/GeminiAgent.cs:27-108 | an undeclared model changes nothing and sends nothing; otherwise one user entry is appended, the whole history sent, and the reply completed |
| Agent.GeminiAgent.Invoke | Gemini/GeminiAgent.cs:27-108 | as Send, with neither search tool nor schema |
| Agent.GeminiAgent.WebSearchInvoke | Gemini/GeminiAgent.cs:114-200 | as Send, with the Google Search tool |
| Agent.GeminiAgent.InvokeWithStructuredOutput | Gemini/GeminiAgent.cs:206-289 | as Send, with the given schema, null included |
| Agent.GeminiAgent.InvokeMultimodal | Gemini/GeminiAgent.cs:295-419 | an empty path fails before any request; the upload comes first; a PROCESSING upload sends only polls, up to and including the first that throws, whose sentinel is the result; otherwise a file entry then a prompt entry are appended and sent |
| Agent.GeminiAgent.NewMessage | Gemini/GeminiAgent.cs:425-428 | the prompt is replaced and the history untouched |
| Agent.GeminiAgent.UpdateMemory | Gemini/GeminiAgent.cs:434-447 | the messages' entries are appended in order; null or empty messages change nothing |
| FeatureChat.ConfigFor | Gemini/Features/ChatGemini.cs:37-57 | a configuration exists iff the model is declared; it uses the request's prompt, temperature (or 0) and level (or LOW) |
| FeatureChat.RequestTurns | Gemini/Features/ChatGemini.cs:59-77 | a request adds one entry per history message and then its prompt |
| FeatureChat.SameHistoryStoredTwice | Gemini/Features/ChatGemini.cs:59-77 | sending the same request history twice stores it twice |
| FeatureChat.ChatGemini.constructor | Gemini/Features/ChatGemini.cs:17-21 | the history starts empty |
| FeatureChat.ChatGemini.Send | Gemini/Features/ChatGemini.cs:27-127 | an undeclared model changes nothing and sends nothing; otherwise the request's entries are appended, the whole history sent, the reply completed |
| FeatureChat.ChatGemini.AppendRequestHistory | Gemini/Features/ChatGemini.cs:59-70 | the request history's entries are appended, in order; null adds nothing |
| FeatureChat.ChatGemini.Invoke | Gemini/Features/ChatGemini.cs:27-127 | a request with a schema is refused before any change; otherwise as Send with the default prompt |
| FeatureChat.ChatGemini.WebSearchInvoke | Gemini/Features/ChatGemini.cs:133-238 | a request with a schema is refused; otherwise as Send with the search tool and the web-search prompt |
| FeatureChat.ChatGemini.InvokeWithStructuredOutput | Gemini/Features/ChatGemini.cs:244-340 | as Send, with the request's schema, unchecked |
| FeatureChat.ChatGemini.InvokeMultimodalAgent | Gemini/Features/ChatGemini.cs:346-483 | an empty path fails before any request; the upload comes first; a PROCESSING upload sends only polls, up to and including the first that throws, whose sentinel is the result; otherwise the request history, a file entry and a prompt entry are appended and sent |
| LegacyChat.LegacyConfig | Gemini/ChatGemini.cs:24-33 | only the system instruction (or its default) is configured |
| LegacyChat.ChatGemini.constructor | Gemini/ChatGemini.cs:13-18 | the history starts empty |
| LegacyChat.ChatGemini.Invoke | Gemini/ChatGemini.cs:20-98 | the request's entries are appended whatever follows; a declared model sends the history, an undeclared one yields the unsupported-model sentinel |
| AudioSniffer.WavIsRiffWave | Gemini/Features/Transcription.cs:123-126 | WAV means "RIFF" at 0 and "WAVE" at 8 |
| AudioSniffer.FlacAndOggArePrefixes | Gemini/Features/Transcription.cs:128-134 | FLAC and Ogg mean the prefixes "fLaC" and "OggS" |
| AudioSniffer.BrandNames | Gemini/Features/Transcription.cs:160-164 | the five brand constants spell "M4A ", "isom", "mp42", "MSNV", "MP41" |
| AudioSniffer.BrandValueIsBytewise | Gemini/Features/Transcription.cs:158-164 | a big-endian word equals a brand constant iff its four bytes are that brand |
| AudioSniffer.M4aIsFtypBrand | Gemini/Features/Transcription.cs:151-165 | M4A/MP4 means "ftyp" at 4 and one of the five brands at 8 |
| AudioSniffer.AdtsIsAlsoMp3 | Gemini/Features/Transcription.cs:136-172 | every ADTS header of three bytes or more also passes the MP3 frame-sync test |
| AudioSniffer.ShortFrameSyncIsNotMp3 | Gemini/Features/Transcription.cs:136-149 | a two-byte frame sync is ADTS but not MP3 |
| AudioSniffer.OnlyFirstTwelveBytesMatter | Gemini/Features/Transcription.cs:105-111 | headers agreeing on the first twelve bytes get the same verdict |
| AudioSniffer.Header | Gemini/Features/Transcription.cs:98-102 | the header is the file's first min(length, 64) bytes |
| AudioSniffer.RejectionReason | Gemini/Features/Transcription.cs:67-118 | the reason is empty iff the file is accepted, and is otherwise one of the five fixed texts |
| AudioSniffer.IsAudioFile | Gemini/Features/Transcription.cs:67-118 | accepted iff every test passes; the reason is that of the first failing test, in source order, and empty on success |
| AudioSniffer.WavHeaderAccepted | Gemini/Features/Transcription.cs:105-114 | a 44-byte RIFF/WAVE header is recognised |
| AudioSniffer.ZerosRejected | Gemini/Features/Transcription.cs:105-117 | a file of zero bytes matches no format |
| TranscriptionExample.ExampleAgentsDoNotThink | Gemini/Examples/TextTranscription/TranscriptionAgent.cs:22-40 | both agents are Gemini 2.5 Flash at the default LOW level |
| TranscriptionExample.TranscriptionAgent.constructor | Gemini/Examples/TextTranscription/TranscriptionAgent.cs:22-40 | two distinct fresh Gemini 2.5 Flash agents with their system and user prompts, LOW thinking, temperature 0 and empty histories |
| TranscriptionExample.TranscriptionResult | Gemini/Examples/TextTranscription/TranscriptionAgent.cs:46-54 | a rejected file throws exactly the prefix followed by the check's reason; an accepted one never throws: a failed upload yields its exception text as content, and once the upload needs no wait the completed reply's content |
| TranscriptionExample.TranscriptionAgent.TranscribeAudio | Gemini/Examples/TextTranscription/TranscriptionAgent.cs:46-54 | the result is the transcription result under the agent's configuration; a rejected file sends nothing; an accepted one is uploaded first; a failed upload, a throwing poll or endless polling leave the history alone and send only the upload and the polls up to the throw; with no wait, the file and prompt entries are sent to Gemini 2.5 Flash with the agent's system prompt and no schema |
| TranscriptionExample.TranscriptionAgent.TranscribeAndAnalyze | Gemini/Examples/TextTranscription/TranscriptionAgent.cs:60-70 | as TranscribeAudio with the output schema and the Portuguese prefix, and the content is then handed to the deserialiser, whose exception becomes the result |
| TranscriptionFeature.RequestFor | Gemini/Features/Transcription.cs:29-34 | each request names Gemini 2.5 Flash and the operation's prompts, carries no history, temperature or level, and the given schema |
| TranscriptionFeature.RequestConfigFor | Gemini/Features/Transcription.cs:29-34 | such a request is sent with its system prompt, temperature 0, no thinking config, the schema and no search tool |
| TranscriptionFeature.TranscriptionResult | Gemini/Features/Transcription.cs:24-36 | a rejected file throws exactly the prefix followed by the check's reason; an accepted one never throws: a failed upload yields its exception text as content, and once the upload needs no wait the completed reply's content |
| TranscriptionFeature.Transcription.constructor | Gemini/Features/Transcription.cs:14-17 | a fresh chat with an empty history |
| TranscriptionFeature.Transcription.Transcribe | Gemini/Features/Transcription.cs:24-36 | the result is the transcription result; a rejected file sends nothing and leaves the history; an accepted one is uploaded first; a failed upload, a throwing poll or endless polling leave the history alone and send only the upload and the polls up to the throw; with no wait, the file and prompt entries are sent to Gemini 2.5 Flash with the request's configuration |
| TranscriptionFeature.Transcription.TranscribeAudio | Gemini/Features/Transcription.cs:24-37 | as Transcribe, without a schema |
| TranscriptionFeature.Transcription.TranscribeAndAnalyze | Gemini/Features/Transcription.cs:44-60 | as Transcribe with the output schema, and the content is then handed to the deserialiser, whose exception becomes the result |
| Scenarios.ChatbotChat | Gemini/Examples/Chatbot/Chatbot.cs:23-51 | the seeded context is sent with "system" as a user turn, the empty system prompt kept, and no thinking config |
| Scenarios.PlainInvoke | Gemini/GeminiAgent.cs:27-108 | a text reply with usage (3, 2, 5) comes back as is, after one logged turn |
| Scenarios.EmptyReplyInvoke | Gemini/GeminiAgent.cs:67-75 | a reply without candidates gives "" and zero tokens; the turn is still logged |
| Scenarios.FailedInvoke | Gemini/GeminiAgent.cs:96-107 | a failing call gives the sentinel; the turn is still logged |
| Scenarios.MultimodalActiveUpload | Gemini/GeminiAgent.cs:295-419 | an ACTIVE upload logs the file turn then the prompt turn and sends two requests |
| Scenarios.MultimodalProcessingUpload | Gemini/GeminiAgent.cs:311-319 | a PROCESSING upload never returns, even when every poll reports ACTIVE |
| Scenarios.MultimodalPollThrows | Gemini/GeminiAgent.cs:311-319 | a PROCESSING upload whose first poll throws ends with that sentinel after one poll, sending no generation request |
| Scenarios.TranscribeActiveWav | Gemini/Features/Transcription.cs:24-37 | a WAV file whose upload is ACTIVE is transcribed to exactly the reply's text |
| Scenarios.MultimodalEmptyPath | Gemini/GeminiAgent.cs:299-303 | an empty path fails with no request and no history change |

## Left out

- The SDK client, `Task`/`async`, `Task.Delay(2000)` and `Console.WriteLine` are left out. Remote calls are replaced by reply parameters and a trace of requests.
- Upload.AwaitProcessing: a wait that never ends is shown as using up a finite sequence of poll replies, since no loop without a termination measure is modelled.
- GeminiModels.Value: `ArgumentOutOfRangeException.Message` also appends the parameter name and actual value to the text; the model keeps only the given text.
- AgentRequest.ToThinkingLevel: the exception is created without a message, so its text is .NET's generic one for the exception type; the model carries that text as a stand-in and leaves out the appended parameter name and actual value.
- The float `Temperature` is modelled as a `real` passed through unchanged; rounding is not modelled.
- `Schema` is an opaque token, and the prompt texts are not part of this model.
- TranscriptionFeature.Transcription.TranscribeAndAnalyze, TranscriptionExample.TranscriptionAgent.TranscribeAndAnalyze: `JsonSerializer.Deserialize` is a `deserialize` parameter, so which texts make it throw a `JsonException` (the sentinel text of a failed call, "") is not stated.
- Null prompts are not modelled; the source only copies them into a part.
- Null elements in a message list are not modelled. The source reads `Role` of each element, so a null element throws `NullReferenceException` after the earlier entries were appended. In `UpdateMemory` that exception escapes; in the chats it becomes the sentinel.
- A null `Candidates[0]` or null `Parts[0]` in a reply is not modelled: it throws `NullReferenceException`, which becomes the sentinel. The reply datatypes cannot express it.
- A `FileStream.Read` that returns fewer bytes than available is not modelled: the header is the file's first min(length, 64) bytes.
- `File.Exists` (false for a directory) and the directory attribute are modelled as two independent fields of `FileEntry`.
- The null-client `ArgumentNullException` is not modelled, because the client is not part of this model.
- `GeminiClient`, `GeminiMaestro` and `IAgent` are not part of this model; they only wire the classes together.
- Concurrent use of one session is not modelled.
- The sniffer predicates (`LooksLikeWav` … `LooksLikeAacAdts`) are definitions without contracts of their own. Their meaning is stated by the lemmas in the table above.
