/** The streaming transform of src/apertis-chat-language-model.ts (lines
    121-207), as pure functions: the state is the tool-call buffer Map, written
    as the sequence of its keys in insertion order plus the key-to-buffer map,
    together with the id counter. `ChatStreamTransformer` (the class) runs the
    same steps in place and is proved equal to these functions. */
module ChatStream {
  import opened Wrappers
  import opened Ids
  import opened FinishReasons
  import opened ChatSchema

  datatype ToolCallBuffer = ToolCallBuffer(id: string, name: string, arguments: string)

  /** `order` lists the Map's keys in insertion order; `nextId` counts the calls
      to the id generator so far. */
  datatype ChatState = ChatState(order: seq<int>, buffers: map<int, ToolCallBuffer>, nextId: nat)

  datatype TokenUsage = TokenUsage(promptTokens: int, completionTokens: int)

  /** The events the transform enqueues. */
  datatype StreamPart =
    | TextDelta(textDelta: string)
    | ToolCall(toolCallId: string, toolName: string, args: string)
    | Finish(finishReason: FinishReason, usage: TokenUsage)

  const Initial: ChatState := ChatState([], map[], 0)

  predicate Distinct(xs: seq<int>)
  {
    forall i, j :: 0 <= i < j < |xs| ==> xs[i] != xs[j]
  }

  /** The Map's keys, each once, are exactly the indexes of `order`. */
  predicate WellFormed(s: ChatState)
  {
    && (forall i :: 0 <= i < |s.order| ==> s.order[i] in s.buffers)
    && (forall k :: k in s.buffers ==> k in s.order)
    && Distinct(s.order)
  }

  // ------------------------------------------------------- tool-call fragments

  function NameFragment(tc: ToolCallDelta): string
  {
    if tc.fn.Some? && Truthy(tc.fn.value.name) then tc.fn.value.name.value else ""
  }

  function ArgumentsFragment(tc: ToolCallDelta): string
  {
    if tc.fn.Some? && Truthy(tc.fn.value.arguments) then tc.fn.value.arguments.value else ""
  }

  /** `if (tc.id) buffer.id = tc.id; if (name) buffer.name += name; if (arguments) buffer.arguments += arguments`. */
  function Accumulate(b: ToolCallBuffer, tc: ToolCallDelta): ToolCallBuffer
  {
    ToolCallBuffer(
      if Truthy(tc.id) then tc.id.value else b.id,
      b.name + NameFragment(tc),
      b.arguments + ArgumentsFragment(tc))
  }

  /** One fragment: look up the buffer for its index, creating it as
      `{ id: tc.id ?? generateId(), name: "", arguments: "" }` when the index is
      new, then accumulate the fragment into it. */
  function ApplyDelta(s: ChatState, tc: ToolCallDelta): ChatState
  {
    if tc.index in s.buffers then
      s.(buffers := s.buffers[tc.index := Accumulate(s.buffers[tc.index], tc)])
    else
      var created := ToolCallBuffer(Coalesce(tc.id, GeneratedId(s.nextId)), "", "");
      var nextId := if tc.id.None? then s.nextId + 1 else s.nextId;
      ChatState(s.order + [tc.index], s.buffers[tc.index := Accumulate(created, tc)], nextId)
  }

  /** The fragments of one chunk, applied in order. */
  function ApplyDeltas(s: ChatState, tcs: seq<ToolCallDelta>): (s': ChatState)
    requires WellFormed(s)
    ensures WellFormed(s')
  {
    if tcs == [] then s
    else
      var mid := ApplyDeltas(s, tcs[..|tcs| - 1]);
      var tc := tcs[|tcs| - 1];
      var r := ApplyDelta(mid, tc);
      assert forall i :: 0 <= i < |mid.order| ==> r.order[i] == mid.order[i];
      r
  }

  // ---------------------------------------------------------------- emission

  function ToolCallEvent(b: ToolCallBuffer): StreamPart
  {
    ToolCall(b.id, b.name, b.arguments)
  }

  /** `for (const [, buffer] of toolCallBuffers) if (buffer.name) enqueue(tool-call)`:
      the buffers in the Map's iteration order, those with an empty name skipped. */
  function EmitBuffers(order: seq<int>, buffers: map<int, ToolCallBuffer>): seq<StreamPart>
    requires forall i :: 0 <= i < |order| ==> order[i] in buffers
  {
    if order == [] then []
    else
      var b := buffers[order[|order| - 1]];
      EmitBuffers(order[..|order| - 1], buffers) + (if b.name != "" then [ToolCallEvent(b)] else [])
  }

  function UsageOf(usage: Option<Usage>): TokenUsage
  {
    match usage
    case None => TokenUsage(0, 0)
    case Some(u) => TokenUsage(u.promptTokens, u.completionTokens)
  }

  /** The fragments a parse result carries to the tool-call loop. */
  function ChunkDeltas(r: ParseResult<ChatChunk>): seq<ToolCallDelta>
  {
    if r.ParseFailure? || |r.value.choices| == 0 then []
    else Coalesce(r.value.choices[0].delta.toolCalls, [])
  }

  /** Whether a parse result reaches the finish branch. */
  predicate Finishes(r: ParseResult<ChatChunk>)
  {
    r.ParseSuccess? && |r.value.choices| > 0 && Truthy(r.value.choices[0].finishReason)
  }

  /** `transform(parseResult, controller)`: the new state and the parts enqueued. */
  function Step(s: ChatState, r: ParseResult<ChatChunk>): (res: (ChatState, seq<StreamPart>))
    requires WellFormed(s)
    ensures WellFormed(res.0)
  {
    match r
    case ParseFailure => (s, [])
    case ParseSuccess(chunk) =>
      if |chunk.choices| == 0 then (s, [])
      else
        var choice := chunk.choices[0];
        var text := if Truthy(choice.delta.content) then [TextDelta(choice.delta.content.value)] else [];
        var s1 := match choice.delta.toolCalls
                  case None => s
                  case Some(tcs) => ApplyDeltas(s, tcs);
        if Truthy(choice.finishReason) then
          (ChatState([], map[], s1.nextId),
           text + EmitBuffers(s1.order, s1.buffers)
                + [Finish(MapApertisFinishReason(choice.finishReason), UsageOf(chunk.usage))])
        else (s1, text)
  }

  /** `flush(controller)`: the remaining named buffers; no finish event. */
  function Flush(s: ChatState): seq<StreamPart>
    requires WellFormed(s)
  {
    EmitBuffers(s.order, s.buffers)
  }

  /** The state and the parts after a sequence of parse results. */
  function RunFrom(s: ChatState, rs: seq<ParseResult<ChatChunk>>): (res: (ChatState, seq<StreamPart>))
    requires WellFormed(s)
    ensures WellFormed(res.0)
  {
    if rs == [] then (s, [])
    else
      var prev := RunFrom(s, rs[..|rs| - 1]);
      var last := Step(prev.0, rs[|rs| - 1]);
      (last.0, prev.1 + last.1)
  }

  /** Everything a whole stream enqueues: every chunk, then the flush. */
  function StreamOutput(rs: seq<ParseResult<ChatChunk>>): seq<StreamPart>
  {
    var run := RunFrom(Initial, rs);
    run.1 + Flush(run.0)
  }
}
