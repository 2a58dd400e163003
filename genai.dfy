/**
 * The values this code exchanges with the Google GenAI SDK: conversation contents,
 * generation responses, the request configuration, file handles, and the record of
 * the calls made to the remote service. The SDK itself is not modelled; each call's
 * reply is supplied by the caller of the model (see `Types.Outcome`).
 */
module GenAI {
  import opened Types
  import opened AgentRequest

  /** A structured-output schema, carried as an opaque token. */
  datatype Schema = Schema(description: string)

  /** A part of a content: text (possibly null) or a reference to an uploaded file. */
  datatype Part =
    | TextPart(text: Option<string>)
    | FilePart(fileUri: Option<string>, mimeType: Option<string>)

  /** `Content`: a role and a (possibly null) list of parts. */
  datatype Content = Content(role: Option<string>, parts: Option<seq<Part>>)

  /** The history entry holding one text part under the given role. */
  function TextTurn(role: string, text: string): Content {
    Content(Some(role), Some([TextPart(Some(text))]))
  }

  /** The history entry holding one file reference under the role "user". */
  function FileTurn(uri: Option<string>, mimeType: Option<string>): Content {
    Content(Some("user"), Some([FilePart(uri, mimeType)]))
  }

  datatype Candidate = Candidate(content: Option<Content>)

  datatype UsageMetadata = UsageMetadata(
    promptTokenCount: Option<int>,
    candidatesTokenCount: Option<int>,
    totalTokenCount: Option<int>)

  /** `GenerateContentResponse`: (possibly null) candidates and usage counters. */
  datatype GenerateContentResponse = GenerateContentResponse(
    candidates: Option<seq<Candidate>>,
    usageMetadata: Option<UsageMetadata>)

  /**
   * `GenerateContentConfig`, restricted to what this code sets: the system instruction
   * text, the temperature, the thinking level of the thinking config, the response
   * schema and whether the Google Search tool is present.
   */
  datatype GenerateContentConfig = GenerateContentConfig(
    systemInstruction: string,
    temperature: Option<real>,
    thinkingLevel: Option<ThinkingLevel>,
    responseSchema: Option<Schema>,
    googleSearch: bool)

  datatype FileState = STATE_UNSPECIFIED | PROCESSING | ACTIVE | FAILED

  /** The SDK's `File` handle returned by `UploadAsync` and `GetAsync`. */
  datatype FileHandle = FileHandle(
    name: Option<string>,
    uri: Option<string>,
    mimeType: Option<string>,
    state: Option<FileState>)

  /** One request sent to the remote service. */
  datatype ServiceCall =
    | UploadFile(filePath: string, displayName: string)
    | GetFile(fileName: Option<string>)
    | GenerateContent(model: string, contents: seq<Content>, config: GenerateContentConfig)

  /** The display name every upload in this code uses. */
  const UploadDisplayName := "My file"
}
