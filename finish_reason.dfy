/** The finish-reason vocabularies: the five-way mapping shared by the chat
    model (src/utils/map-finish-reason.ts) and the coarse three-way mapping of the
    completion model (`mapFinishReason` in src/apertis-completion-language-model.ts). */
module FinishReasons {
  import opened Wrappers

  /** The chat protocol's finish-reason tags. */
  datatype FinishReason = Stop | Length | ContentFilter | ToolCalls | Error | Other | Unknown

  /** The completion protocol's unified tags. */
  datatype UnifiedFinishReason = UStop | ULength | UContentFilter | UToolCalls | UError | UOther

  /** The completion protocol's finish reason: the unified tag and the upstream string. */
  datatype CompletionFinishReason = CompletionFinishReason(unified: UnifiedFinishReason, raw: Option<string>)

  /** The upstream strings the five-way mapping recognises. */
  const KnownUpstreamReasons: set<string> := {"stop", "length", "tool_calls", "content_filter"}

  /** The upstream string each recognised tag comes from: the inverse of the mapping. */
  function UpstreamName(tag: FinishReason): (s: Option<string>)
    ensures s.Some? ==> s.value in KnownUpstreamReasons
  {
    match tag
    case Stop => Some("stop")
    case Length => Some("length")
    case ToolCalls => Some("tool_calls")
    case ContentFilter => Some("content_filter")
    case _ => None
  }

  /** `mapApertisFinishReason`: a switch with a default, total over null, undefined and every string. */
  function MapApertisFinishReason(finishReason: Option<string>): (r: FinishReason)
    ensures r != Error && r != Other
    ensures r == Unknown <==> !(finishReason.Some? && finishReason.value in KnownUpstreamReasons)
    ensures r != Unknown ==> UpstreamName(r) == finishReason
  {
    if finishReason == Some("stop") then Stop
    else if finishReason == Some("length") then Length
    else if finishReason == Some("tool_calls") then ToolCalls
    else if finishReason == Some("content_filter") then ContentFilter
    else Unknown
  }

  /** Mapping the upstream name of a recognised tag gives the tag back. */
  lemma MapApertisFinishReasonInverse(tag: FinishReason)
    requires UpstreamName(tag).Some?
    ensures MapApertisFinishReason(UpstreamName(tag)) == tag
  {
  }

  /** The cases of the unit tests of the mapping. */
  lemma MapApertisFinishReasonCases()
    ensures MapApertisFinishReason(Some("stop")) == Stop
    ensures MapApertisFinishReason(Some("length")) == Length
    ensures MapApertisFinishReason(Some("tool_calls")) == ToolCalls
    ensures MapApertisFinishReason(Some("content_filter")) == ContentFilter
    ensures MapApertisFinishReason(None) == Unknown
    ensures MapApertisFinishReason(Some("something_else")) == Unknown
  {
  }

  /** The tag the completion model's inline stream mapping chooses for a finish reason. */
  function InlineUnified(finishReason: string): (u: UnifiedFinishReason)
  {
    if finishReason == "stop" then UStop
    else if finishReason == "length" then ULength
    else UOther
  }

  /** `mapFinishReason` of the completion model: stop, length, or other; `raw` carries
      the upstream value, with null read as undefined. */
  function MapFinishReason(finishReason: Option<string>): (r: CompletionFinishReason)
    ensures r.raw == finishReason
    ensures r.unified in {UStop, ULength, UOther}
    ensures r.unified == UStop <==> finishReason == Some("stop")
    ensures r.unified == ULength <==> finishReason == Some("length")
  {
    match finishReason
    case Some("stop") => CompletionFinishReason(UStop, finishReason)
    case Some("length") => CompletionFinishReason(ULength, finishReason)
    case _ => CompletionFinishReason(UOther, finishReason)
  }

  /** The inline mapping of the stream's finish event agrees with `mapFinishReason`. */
  lemma InlineAgreesWithMapFinishReason(finishReason: string)
    ensures CompletionFinishReason(InlineUnified(finishReason), Some(finishReason)) == MapFinishReason(Some(finishReason))
  {
  }

  /** The chat tag collapsed onto the coarse completion vocabulary. */
  function Coarsen(tag: FinishReason): UnifiedFinishReason
  {
    match tag
    case Stop => UStop
    case Length => ULength
    case _ => UOther
  }

  /** The coarse mapping is the five-way mapping followed by collapsing every tag
      other than stop and length onto `other`. */
  lemma CoarseMappingRefinesFiveWay(finishReason: Option<string>)
    ensures MapFinishReason(finishReason).unified == Coarsen(MapApertisFinishReason(finishReason))
  {
  }
}
