/** The streaming transform of src/apertis-completion-language-model.ts
    (lines 116-190), as pure functions. Its one piece of state is the closure
    variable `textId`, together with the id counter; `textId` is set by the
    first chunk with text and never reset. `CompletionStreamTransformer` (the
    class) runs the same steps in place and is proved equal to these
    functions. */
module CompletionStream {
  import opened Wrappers
  import opened Ids
  import opened FinishReasons
  import opened CompletionSchema

  /** `textId` (`None` for `null`) and the number of ids generated so far. */
  datatype CompletionState = CompletionState(textId: Option<string>, nextId: nat)

  /** The input and output token totals of a finish event; the unset cache,
      text and reasoning counts are omitted. */
  datatype Totals = Totals(inputTotal: int, outputTotal: int)

  /** The events the transform enqueues. */
  datatype CompletionPart =
    | TextStart(id: string)
    | TextDelta(id: string, delta: string)
    | TextEnd(id: string)
    | Finish(finishReason: CompletionFinishReason, usage: Totals)

  const Initial: CompletionState := CompletionState(None, 0)

  function TotalsOf(usage: Option<CompletionUsage>): Totals
  {
    match usage
    case None => Totals(0, 0)
    case Some(u) => Totals(u.promptTokens, u.completionTokens)
  }

  /** The inline finish mapping of the stream: the unified tag, and `raw`
      that is the upstream string itself. */
  function InlineFinishReason(finishReason: string): CompletionFinishReason
  {
    CompletionFinishReason(InlineUnified(finishReason), Some(finishReason))
  }

  /** The state and parts after the text branch: on the first text, a fresh
      id and `text-start`; then `text-delta` with the current id. */
  function TextStep(s: CompletionState, text: string): (CompletionState, seq<CompletionPart>)
  {
    if text == "" then (s, [])
    else if !Truthy(s.textId) then
      var id := GeneratedId(s.nextId);
      (CompletionState(Some(id), s.nextId + 1), [TextStart(id), TextDelta(id, text)])
    else (s, [TextDelta(s.textId.value, text)])
  }

  /** `text-end` for the current id when there is one. */
  function TextEndOf(s: CompletionState): seq<CompletionPart>
  {
    if Truthy(s.textId) then [TextEnd(s.textId.value)] else []
  }

  /** `transform(parseResult, controller)`: the new state and the parts enqueued. */
  function Step(s: CompletionState, r: ParseResult<CompletionChunk>): (CompletionState, seq<CompletionPart>)
  {
    match r
    case ParseFailure => (s, [])
    case ParseSuccess(chunk) =>
      if |chunk.choices| == 0 then (s, [])
      else
        var choice := chunk.choices[0];
        var (s1, text) := TextStep(s, choice.text);
        if Truthy(choice.finishReason) then
          (s1, text + TextEndOf(s1) + [Finish(InlineFinishReason(choice.finishReason.value), TotalsOf(chunk.usage))])
        else (s1, text)
  }

  /** `flush(controller)`: `text-end` whenever a text id was ever set. */
  function Flush(s: CompletionState): seq<CompletionPart>
  {
    TextEndOf(s)
  }

  /** The state and the parts after a sequence of parse results. */
  function RunFrom(s: CompletionState, rs: seq<ParseResult<CompletionChunk>>): (CompletionState, seq<CompletionPart>)
  {
    if rs == [] then (s, [])
    else
      var prev := RunFrom(s, rs[..|rs| - 1]);
      var last := Step(prev.0, rs[|rs| - 1]);
      (last.0, prev.1 + last.1)
  }

  /** Everything a whole stream enqueues: every chunk, then the flush. */
  function StreamOutput(rs: seq<ParseResult<CompletionChunk>>): seq<CompletionPart>
  {
    var run := RunFrom(Initial, rs);
    run.1 + Flush(run.0)
  }
}
