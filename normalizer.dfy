/**
 * The response normaliser that every invoke applies to the service's reply: the text of
 * the first part of the first candidate, or "" when there is none, with each token
 * counter read on its own and defaulting to 0.
 */
module Normalizer {
  import opened Types
  import opened GenAI
  import opened ChatModels

  /** `UsageMetadata?.PromptTokenCount ?? 0` and its two siblings. */
  function InputTokens(resp: GenerateContentResponse): int {
    if resp.usageMetadata.Some? then resp.usageMetadata.value.promptTokenCount.GetOr(0) else 0
  }

  function OutputTokens(resp: GenerateContentResponse): int {
    if resp.usageMetadata.Some? then resp.usageMetadata.value.candidatesTokenCount.GetOr(0) else 0
  }

  function TotalTokens(resp: GenerateContentResponse): int {
    if resp.usageMetadata.Some? then resp.usageMetadata.value.totalTokenCount.GetOr(0) else 0
  }

  /** The parts of the first candidate, when there is a candidate with content and parts. */
  function FirstCandidateParts(resp: GenerateContentResponse): Option<seq<Part>> {
    if resp.candidates.None? || |resp.candidates.value| == 0 then None
    else
      var c := resp.candidates.value[0];
      if c.content.None? then None else c.content.value.parts
  }

  /** The three-branch normalisation of a service response. */
  function Normalize(resp: GenerateContentResponse): (r: ChatResponse)
    ensures r.inputTokens == InputTokens(resp)
    ensures r.outputTokens == OutputTokens(resp)
    ensures r.totalTokens == TotalTokens(resp)
    ensures resp.candidates.None? || resp.candidates == Some([]) ==> r.content == ""
    ensures FirstCandidateParts(resp).None? || FirstCandidateParts(resp) == Some([]) ==> r.content == ""
    ensures r.content != "" ==>
      && FirstCandidateParts(resp).Some?
      && |FirstCandidateParts(resp).value| > 0
      && FirstCandidateParts(resp).value[0] == TextPart(Some(r.content))
  {
    var inTok, outTok, totTok := InputTokens(resp), OutputTokens(resp), TotalTokens(resp);
    if resp.candidates.None? || |resp.candidates.value| == 0 then
      ChatResponse("", inTok, outTok, totTok)
    else
      var candidate := resp.candidates.value[0];
      if candidate.content.None? || candidate.content.value.parts.None? || |candidate.content.value.parts.value| == 0 then
        ChatResponse("", inTok, outTok, totTok)
      else
        var first := candidate.content.value.parts.value[0];
        var text := if first.TextPart? then first.text.GetOr("") else "";
        ChatResponse(text, inTok, outTok, totTok)
  }

  /** A first part that carries text yields exactly that text. */
  lemma NormalizeTakesFirstText(resp: GenerateContentResponse, t: string)
    requires FirstCandidateParts(resp).Some?
    requires var p := FirstCandidateParts(resp).value; |p| > 0 && p[0] == TextPart(Some(t))
    ensures Normalize(resp).content == t
  {
  }

  /** Candidates after the first one never influence the result. */
  lemma NormalizeIgnoresLaterCandidates(c: Candidate, rest: seq<Candidate>, usage: Option<UsageMetadata>)
    ensures Normalize(GenerateContentResponse(Some([c] + rest), usage))
         == Normalize(GenerateContentResponse(Some([c]), usage))
  {
  }

  /** Parts after the first one never influence the result. */
  lemma NormalizeIgnoresLaterParts(role: Option<string>, p: Part, rest: seq<Part>,
                                   others: seq<Candidate>, usage: Option<UsageMetadata>)
    ensures Normalize(GenerateContentResponse(Some([Candidate(Some(Content(role, Some([p] + rest))))] + others), usage))
         == Normalize(GenerateContentResponse(Some([Candidate(Some(Content(role, Some([p]))))]), usage))
  {
  }

  /** The counters depend on the usage metadata only, never on the candidates. */
  lemma CountersIndependentOfContent(a: GenerateContentResponse, b: GenerateContentResponse)
    requires a.usageMetadata == b.usageMetadata
    ensures Normalize(a).inputTokens == Normalize(b).inputTokens
    ensures Normalize(a).outputTokens == Normalize(b).outputTokens
    ensures Normalize(a).totalTokens == Normalize(b).totalTokens
  {
  }

  /**
   * A reply whose text equals an exception message and that reports no usage normalises
   * to the same value as the `catch` sentinel: callers cannot tell the two apart.
   */
  lemma SentinelIndistinguishable(message: string)
    ensures Normalize(GenerateContentResponse(
              Some([Candidate(Some(Content(Some("model"), Some([TextPart(Some(message))]))))]), None))
         == Sentinel(message)
  {
  }

  /** What an invoke returns once the service has answered or thrown. */
  function Complete(reply: Outcome<GenerateContentResponse>): (r: ChatResponse)
    ensures reply.Threw? ==> r == Sentinel(reply.message)
    ensures reply.Returned? ==> r == Normalize(reply.value)
  {
    match reply
    case Returned(resp) => Normalize(resp)
    case Threw(e) => Sentinel(e)
  }
}
