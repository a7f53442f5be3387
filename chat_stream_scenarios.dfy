/** Concrete streams run through the chat transform, each worked out chunk by
    chunk: one tool call whose name and arguments arrive over three chunks,
    two tool-call indexes whose fragments interleave, and a stream that ends
    without a finish reason, so that only the flush emits its tool call. */
module ChatStreamScenarios {
  import opened Wrappers
  import opened Ids
  import opened FinishReasons
  import opened ChatSchema
  import opened ChatStream
  import opened ChatStreamProperties

  /** A chunk whose first choice carries one tool-call fragment and nothing else. */
  function ToolChunk(x: ToolCallDelta): ParseResult<ChatChunk>
  {
    ParseSuccess(ChatChunk("chunk", [ChunkChoice(0, Delta(None, Some([x])), None)], None))
  }

  /** A chunk whose first choice carries only a finish reason. */
  function FinishChunk(reason: string): ParseResult<ChatChunk>
  {
    ParseSuccess(ChatChunk("chunk", [ChunkChoice(0, Delta(None, None), Some(reason))], None))
  }

  function Fragment(index: int, id: Option<string>, name: Option<string>, arguments: Option<string>): ToolCallDelta
  {
    ToolCallDelta(index, id, Some(FunctionDelta(name, arguments)))
  }

  lemma RunFromSnoc(rs: seq<ParseResult<ChatChunk>>, r: ParseResult<ChatChunk>)
    ensures var prev := RunFrom(Initial, rs);
      RunFrom(Initial, rs + [r]) == (Step(prev.0, r).0, prev.1 + Step(prev.0, r).1)
  {
    assert (rs + [r])[..|rs|] == rs;
  }

  /** A fragment chunk enqueues nothing and applies its one fragment. */
  lemma StepToolChunk(s: ChatState, x: ToolCallDelta)
    requires WellFormed(s)
    ensures Step(s, ToolChunk(x)) == (ApplyDelta(s, x), [])
  {
    assert [x][..0] == [];
    assert ChunkDeltas(ToolChunk(x)) == [x];
    StepWithoutFinish(s, ToolChunk(x));
  }

  /** A run of fragment chunks from the empty Map enqueues nothing. */
  lemma QuietRun(rs: seq<ParseResult<ChatChunk>>, x: ToolCallDelta, t: ChatState)
    requires RunFrom(Initial, rs).1 == []
    requires ApplyDelta(RunFrom(Initial, rs).0, x) == t
    ensures RunFrom(Initial, rs + [ToolChunk(x)]) == (t, [])
  {
    RunFromSnoc(rs, ToolChunk(x));
    StepToolChunk(RunFrom(Initial, rs).0, x);
    var e: seq<StreamPart> := [];
    assert e + e == e;
  }

  /** A finish chunk after a run that enqueued nothing. */
  lemma FinishAfterQuietRun(rs: seq<ParseResult<ChatChunk>>, reason: string)
    requires RunFrom(Initial, rs).1 == []
    requires reason != ""
    ensures var s := RunFrom(Initial, rs).0;
      RunFrom(Initial, rs + [FinishChunk(reason)]).1
        == EmitBuffers(s.order, s.buffers) + [Finish(MapApertisFinishReason(Some(reason)), TokenUsage(0, 0))]
  {
    var s := RunFrom(Initial, rs).0;
    RunFromSnoc(rs, FinishChunk(reason));
    StepWithFinish(s, FinishChunk(reason));
    assert ChunkDeltas(FinishChunk(reason)) == [];
    var e: seq<StreamPart> := [];
    var tail := EmitBuffers(s.order, s.buffers) + [Finish(MapApertisFinishReason(Some(reason)), TokenUsage(0, 0))];
    assert e + (e + EmitBuffers(s.order, s.buffers) + [Finish(MapApertisFinishReason(Some(reason)), TokenUsage(0, 0))]) == tail;
  }

  function EmittedFor(b: ToolCallBuffer): seq<StreamPart>
  {
    if b.name != "" then [ToolCallEvent(b)] else []
  }

  /** Emission from a two-key Map: the first-inserted key first. */
  lemma EmitTwo(a: int, c: int, buffers: map<int, ToolCallBuffer>)
    requires a in buffers && c in buffers
    ensures EmitBuffers([a, c], buffers) == EmittedFor(buffers[a]) + EmittedFor(buffers[c])
  {
    assert [a, c][..1] == [a];
    assert [a][..0] == [];
    var e: seq<StreamPart> := [];
    assert EmitBuffers([a], buffers) == e + EmittedFor(buffers[a]);
  }

  // ------------------------------------------------------------- get_time

  const GetTime1: ToolCallDelta := Fragment(0, Some("call_1"), Some("get_"), None)
  const GetTime2: ToolCallDelta := Fragment(0, None, Some("time"), None)
  const GetTime3: ToolCallDelta := Fragment(0, None, None, Some("{}"))

  const GetTimeState1: ChatState := ChatState([0], map[0 := ToolCallBuffer("call_1", "get_", "")], 0)
  const GetTimeState2: ChatState := ChatState([0], map[0 := ToolCallBuffer("call_1", "get_time", "")], 0)
  const GetTimeState3: ChatState := ChatState([0], map[0 := ToolCallBuffer("call_1", "get_time", "{}")], 0)

  /** The first fragment creates the buffer with the supplied id. */
  lemma GetTimeStep1()
    ensures ApplyDelta(Initial, GetTime1) == GetTimeState1
  {
    assert NameFragment(GetTime1) == "get_" && ArgumentsFragment(GetTime1) == "";
    assert Accumulate(ToolCallBuffer("call_1", "", ""), GetTime1) == GetTimeState1.buffers[0];
  }

  /** The second appends to the name. */
  lemma GetTimeStep2()
    ensures ApplyDelta(GetTimeState1, GetTime2) == GetTimeState2
  {
    assert NameFragment(GetTime2) == "time" && ArgumentsFragment(GetTime2) == "";
    assert Accumulate(GetTimeState1.buffers[0], GetTime2) == GetTimeState2.buffers[0];
  }

  /** The third appends to the arguments. */
  lemma GetTimeStep3()
    ensures ApplyDelta(GetTimeState2, GetTime3) == GetTimeState3
  {
    assert NameFragment(GetTime3) == "" && ArgumentsFragment(GetTime3) == "{}";
    assert Accumulate(GetTimeState2.buffers[0], GetTime3) == GetTimeState3.buffers[0];
  }

  lemma GetTimeRun1()
    ensures RunFrom(Initial, [ToolChunk(GetTime1)]) == (GetTimeState1, [])
  {
    assert [ToolChunk(GetTime1)] == [] + [ToolChunk(GetTime1)];
    GetTimeStep1();
    QuietRun([], GetTime1, GetTimeState1);
  }

  lemma GetTimeRun2()
    ensures RunFrom(Initial, [ToolChunk(GetTime1), ToolChunk(GetTime2)]) == (GetTimeState2, [])
  {
    assert [ToolChunk(GetTime1), ToolChunk(GetTime2)] == [ToolChunk(GetTime1)] + [ToolChunk(GetTime2)];
    GetTimeRun1();
    GetTimeStep2();
    QuietRun([ToolChunk(GetTime1)], GetTime2, GetTimeState2);
  }

  lemma GetTimeFragments()
    ensures RunFrom(Initial, [ToolChunk(GetTime1), ToolChunk(GetTime2), ToolChunk(GetTime3)]) == (GetTimeState3, [])
  {
    var c1, c2, c3 := ToolChunk(GetTime1), ToolChunk(GetTime2), ToolChunk(GetTime3);
    assert [c1, c2, c3] == [c1, c2] + [c3];
    GetTimeRun2();
    GetTimeStep3();
    QuietRun([c1, c2], GetTime3, GetTimeState3);
  }

  const GetTimeStream: seq<ParseResult<ChatChunk>> :=
    [ToolChunk(GetTime1), ToolChunk(GetTime2), ToolChunk(GetTime3), FinishChunk("stop")]

  lemma GetTimeFinish()
    ensures RunFrom(Initial, GetTimeStream).1 == [ToolCall("call_1", "get_time", "{}"), Finish(Stop, TokenUsage(0, 0))]
  {
    var rs := [ToolChunk(GetTime1), ToolChunk(GetTime2), ToolChunk(GetTime3)];
    GetTimeFragments();
    assert [0][..0] == [];
    assert EmitBuffers(GetTimeState3.order, GetTimeState3.buffers) == [ToolCall("call_1", "get_time", "{}")];
    FinishAfterQuietRun(rs, "stop");
    assert rs + [FinishChunk("stop")] == GetTimeStream;
  }

  /** Name fragments "get_" and "time" and arguments "{}" for index 0, then
      finish reason "stop": one "get_time" call with arguments "{}", then one
      finish event with reason stop and zero usage. */
  lemma GetTimeScenario()
    ensures StreamOutput(GetTimeStream) == [ToolCall("call_1", "get_time", "{}"), Finish(Stop, TokenUsage(0, 0))]
  {
    GetTimeFinish();
    assert Finishes(GetTimeStream[3]);
    FlushAfterFinishAddsNothing(GetTimeStream);
  }

  // ---------------------------------------------------------- interleaved

  const Second1: ToolCallDelta := Fragment(1, Some("call_b"), Some("second"), Some("{\"x\""))
  const First: ToolCallDelta := Fragment(0, Some("call_a"), Some("first"), Some("{}"))
  const Second2: ToolCallDelta := Fragment(1, None, None, Some(":1}"))

  const SecondPartial: ToolCallBuffer := ToolCallBuffer("call_b", "second", "{\"x\"")
  const SecondWhole: ToolCallBuffer := ToolCallBuffer("call_b", "second", "{\"x\":1}")
  const FirstWhole: ToolCallBuffer := ToolCallBuffer("call_a", "first", "{}")

  const InterleavedState1: ChatState := ChatState([1], map[1 := SecondPartial], 0)
  const InterleavedState2: ChatState := ChatState([1, 0], map[1 := SecondPartial, 0 := FirstWhole], 0)
  const InterleavedState3: ChatState := ChatState([1, 0], map[1 := SecondWhole, 0 := FirstWhole], 0)

  lemma InterleavedStep1()
    ensures ApplyDelta(Initial, Second1) == InterleavedState1
  {
    assert NameFragment(Second1) == "second" && ArgumentsFragment(Second1) == "{\"x\"";
    assert Accumulate(ToolCallBuffer("call_b", "", ""), Second1) == SecondPartial;
  }

  lemma InterleavedStep2()
    ensures ApplyDelta(InterleavedState1, First) == InterleavedState2
  {
    assert NameFragment(First) == "first" && ArgumentsFragment(First) == "{}";
    assert Accumulate(ToolCallBuffer("call_a", "", ""), First) == FirstWhole;
  }

  lemma InterleavedStep3()
    ensures ApplyDelta(InterleavedState2, Second2) == InterleavedState3
  {
    assert NameFragment(Second2) == "" && ArgumentsFragment(Second2) == ":1}";
    assert Accumulate(SecondPartial, Second2) == SecondWhole;
  }

  lemma InterleavedRun1()
    ensures RunFrom(Initial, [ToolChunk(Second1)]) == (InterleavedState1, [])
  {
    assert [ToolChunk(Second1)] == [] + [ToolChunk(Second1)];
    InterleavedStep1();
    QuietRun([], Second1, InterleavedState1);
  }

  lemma InterleavedRun2()
    ensures RunFrom(Initial, [ToolChunk(Second1), ToolChunk(First)]) == (InterleavedState2, [])
  {
    assert [ToolChunk(Second1), ToolChunk(First)] == [ToolChunk(Second1)] + [ToolChunk(First)];
    InterleavedRun1();
    InterleavedStep2();
    QuietRun([ToolChunk(Second1)], First, InterleavedState2);
  }

  lemma InterleavedFragments()
    ensures RunFrom(Initial, [ToolChunk(Second1), ToolChunk(First), ToolChunk(Second2)]) == (InterleavedState3, [])
  {
    var c1, c2, c3 := ToolChunk(Second1), ToolChunk(First), ToolChunk(Second2);
    assert [c1, c2, c3] == [c1, c2] + [c3];
    InterleavedRun2();
    InterleavedStep3();
    QuietRun([c1, c2], Second2, InterleavedState3);
  }

  const InterleavedStream: seq<ParseResult<ChatChunk>> :=
    [ToolChunk(Second1), ToolChunk(First), ToolChunk(Second2), FinishChunk("tool_calls")]

  /** Emission follows the Map's insertion order: index 1, then index 0. */
  lemma InterleavedEmit()
    ensures EmitBuffers(InterleavedState3.order, InterleavedState3.buffers) ==
      [ToolCall("call_b", "second", "{\"x\":1}"), ToolCall("call_a", "first", "{}")]
  {
    EmitTwo(1, 0, InterleavedState3.buffers);
  }

  lemma InterleavedFinish()
    ensures RunFrom(Initial, InterleavedStream).1 ==
      [ToolCall("call_b", "second", "{\"x\":1}"), ToolCall("call_a", "first", "{}"), Finish(ToolCalls, TokenUsage(0, 0))]
  {
    var rs := [ToolChunk(Second1), ToolChunk(First), ToolChunk(Second2)];
    InterleavedFragments();
    InterleavedEmit();
    FinishAfterQuietRun(rs, "tool_calls");
    assert rs + [FinishChunk("tool_calls")] == InterleavedStream;
  }

  /** Index 1 arrives before index 0 and is completed after it: the calls are
      enqueued in first-seen order, index 1 first, not in ascending index order. */
  lemma InterleavedScenario()
    ensures StreamOutput(InterleavedStream) ==
      [ToolCall("call_b", "second", "{\"x\":1}"), ToolCall("call_a", "first", "{}"), Finish(ToolCalls, TokenUsage(0, 0))]
  {
    InterleavedFinish();
    assert Finishes(InterleavedStream[3]);
    FlushAfterFinishAddsNothing(InterleavedStream);
  }

  // ------------------------------------------------------------ abrupt end

  const Lookup: ToolCallDelta := Fragment(0, None, Some("lookup"), Some("{\"q\":"))
  const Nameless: ToolCallDelta := Fragment(2, Some("call_c"), None, Some("{}"))

  const LookupBuffer: ToolCallBuffer := ToolCallBuffer(GeneratedId(0), "lookup", "{\"q\":")
  const NamelessBuffer: ToolCallBuffer := ToolCallBuffer("call_c", "", "{}")

  const AbruptState1: ChatState := ChatState([0], map[0 := LookupBuffer], 1)
  const AbruptState2: ChatState := ChatState([0, 2], map[0 := LookupBuffer, 2 := NamelessBuffer], 1)

  /** Without an id the buffer takes the generator's first id. */
  lemma AbruptStep1()
    ensures ApplyDelta(Initial, Lookup) == AbruptState1
  {
    assert NameFragment(Lookup) == "lookup" && ArgumentsFragment(Lookup) == "{\"q\":";
    assert Accumulate(ToolCallBuffer(GeneratedId(0), "", ""), Lookup) == LookupBuffer;
  }

  lemma AbruptStep2()
    ensures ApplyDelta(AbruptState1, Nameless) == AbruptState2
  {
    assert NameFragment(Nameless) == "" && ArgumentsFragment(Nameless) == "{}";
    assert Accumulate(ToolCallBuffer("call_c", "", ""), Nameless) == NamelessBuffer;
  }

  lemma AbruptRun1()
    ensures RunFrom(Initial, [ToolChunk(Lookup)]) == (AbruptState1, [])
  {
    assert [ToolChunk(Lookup)] == [] + [ToolChunk(Lookup)];
    AbruptStep1();
    QuietRun([], Lookup, AbruptState1);
  }

  lemma AbruptRun2()
    ensures RunFrom(Initial, [ToolChunk(Lookup), ToolChunk(Nameless)]) == (AbruptState2, [])
  {
    assert [ToolChunk(Lookup), ToolChunk(Nameless)] == [ToolChunk(Lookup)] + [ToolChunk(Nameless)];
    AbruptRun1();
    AbruptStep2();
    QuietRun([ToolChunk(Lookup)], Nameless, AbruptState2);
  }

  /** A stream that ends without a finish reason: the flush enqueues the named
      call, whose id comes from the generator; the nameless buffer at index 2
      is dropped; no finish event is produced. */
  lemma AbruptEndScenario()
    ensures StreamOutput([ToolChunk(Lookup), ToolChunk(Nameless)]) == [ToolCall(GeneratedId(0), "lookup", "{\"q\":")]
  {
    AbruptRun2();
    EmitTwo(0, 2, AbruptState2.buffers);
    var calls := [ToolCall(GeneratedId(0), "lookup", "{\"q\":")];
    assert EmitBuffers(AbruptState2.order, AbruptState2.buffers) == calls;
    var e: seq<StreamPart> := [];
    assert e + calls == calls;
  }
}
