/** The `TransformStream` of the chat model's `doStream`
    (src/apertis-chat-language-model.ts, lines 121-207) as an object: the
    tool-call buffer Map and the id generator are fields the transform and the
    flush update in place, and `enqueued` collects what is passed to
    `controller.enqueue`. Each method is proved to do what the functions of
    `ChatStream` say. */
module ChatStreamTransform {
  import opened Wrappers
  import opened Ids
  import opened FinishReasons
  import opened ChatSchema
  import opened ChatStream
  import opened ChatStreamProperties

  class ChatStreamTransformer {
    /** The Map's keys in insertion order, and the Map itself. */
    var order: seq<int>
    var buffers: map<int, ToolCallBuffer>
    /** How many ids the generator has handed out. */
    var nextId: nat
    /** Every part enqueued so far. */
    var enqueued: seq<StreamPart>

    function State(): ChatState
      reads this
    {
      ChatState(order, buffers, nextId)
    }

    predicate Valid()
      reads this
    {
      WellFormed(State())
    }

    /** `new Map()` before the first chunk. */
    constructor()
      ensures Valid()
      ensures State() == Initial && enqueued == []
    {
      order := [];
      buffers := map[];
      nextId := 0;
      enqueued := [];
    }

    /** One iteration of the loop over `delta.tool_calls`. */
    method AddFragment(tc: ToolCallDelta)
      requires Valid()
      modifies this
      ensures Valid()
      ensures State() == ApplyDelta(old(State()), tc)
      ensures enqueued == old(enqueued)
    {
      ghost var target := ApplyDelta(State(), tc);
      ApplyDeltaWellFormed(State(), tc);
      if tc.index !in buffers {
        var id: string;
        if tc.id.Some? {
          id := tc.id.value;
        } else {
          id := GeneratedId(nextId);
          nextId := nextId + 1;
        }
        order := order + [tc.index];
        buffers := buffers[tc.index := ToolCallBuffer(id, "", "")];
      }
      var buffer := UpdateBuffer(buffers[tc.index], tc);
      buffers := buffers[tc.index := buffer];
      assert State() == target;
    }

    /** The loop over `delta.tool_calls`. */
    method AddFragments(tcs: seq<ToolCallDelta>)
      requires Valid()
      modifies this
      ensures Valid()
      ensures State() == ApplyDeltas(old(State()), tcs)
      ensures enqueued == old(enqueued)
    {
      ghost var start := State();
      var i := 0;
      while i < |tcs|
        invariant 0 <= i <= |tcs|
        invariant Valid()
        invariant State() == ApplyDeltas(start, tcs[..i])
        invariant enqueued == old(enqueued)
      {
        ApplyDeltasSnoc(start, tcs, i);
        AddFragment(tcs[i]);
        i := i + 1;
      }
      assert tcs[..|tcs|] == tcs;
    }

    /** Finish: the loop over the Map, `toolCallBuffers.clear()`, and the
        finish part. */
    method FinishStream(finishReason: Option<string>, usage: Option<Usage>)
      requires Valid()
      modifies this
      ensures Valid()
      ensures State() == ChatState([], map[], old(nextId))
      ensures enqueued == old(enqueued) + EmitBuffers(old(order), old(buffers))
                          + [Finish(MapApertisFinishReason(finishReason), UsageOf(usage))]
    {
      EnqueueNamedBuffers();
      order := [];
      buffers := map[];
      var tokens := if usage.Some? then TokenUsage(usage.value.promptTokens, usage.value.completionTokens)
                    else TokenUsage(0, 0);
      enqueued := enqueued + [Finish(MapApertisFinishReason(finishReason), tokens)];
    }

    /** The loop over the Map: one tool-call part per buffer with a non-empty
        name, in insertion order. */
    method EnqueueNamedBuffers()
      requires Valid()
      modifies this`enqueued
      ensures enqueued == old(enqueued) + EmitBuffers(order, buffers)
    {
      var j := 0;
      while j < |order|
        invariant 0 <= j <= |order|
        invariant enqueued == old(enqueued) + EmitBuffers(order[..j], buffers)
      {
        var buffer := buffers[order[j]];
        assert order[..j + 1][..j] == order[..j];
        var before := EmitBuffers(order[..j], buffers);
        if buffer.name != "" {
          enqueued := enqueued + [ToolCall(buffer.id, buffer.name, buffer.arguments)];
          AppendAssoc(old(enqueued), before, [ToolCallEvent(buffer)]);
        } else {
          assert before + [] == before;
        }
        j := j + 1;
      }
      assert order[..|order|] == order;
    }

    /** `transform(parseResult, controller)`. */
    method Transform(r: ParseResult<ChatChunk>)
      requires Valid()
      modifies this
      ensures Valid()
      ensures State() == Step(old(State()), r).0
      ensures enqueued == old(enqueued) + Step(old(State()), r).1
    {
      ghost var s0 := State();
      if r.ParseFailure? || |r.value.choices| == 0 {
        StepSkips(s0, r);
        return;
      }
      var choice := r.value.choices[0];
      TextAndFragments(choice);
      if Truthy(choice.finishReason) {
        ghost var s1 := State();
        ghost var text := enqueued[|old(enqueued)|..];
        assert enqueued == old(enqueued) + text;
        StepWithFinish(s0, r);
        FinishStream(choice.finishReason, r.value.usage);
        var emitted := EmitBuffers(s1.order, s1.buffers);
        var finish := [Finish(MapApertisFinishReason(choice.finishReason), UsageOf(r.value.usage))];
        AppendAssoc(old(enqueued), text, emitted);
        AppendAssoc(old(enqueued), text + emitted, finish);
      } else {
        StepWithoutFinish(s0, r);
      }
    }

    /** The text delta and the tool-call fragments of the first choice. */
    method TextAndFragments(choice: ChunkChoice)
      requires Valid()
      modifies this
      ensures Valid()
      ensures State() == ApplyDeltas(old(State()), Coalesce(choice.delta.toolCalls, []))
      ensures enqueued == old(enqueued) + (if Truthy(choice.delta.content) then [TextDelta(choice.delta.content.value)] else [])
    {
      if Truthy(choice.delta.content) {
        enqueued := enqueued + [TextDelta(choice.delta.content.value)];
      }
      if choice.delta.toolCalls.Some? {
        AddFragments(choice.delta.toolCalls.value);
      }
    }

    /** `flush(controller)`: the remaining named buffers, and no finish part. */
    method Flush()
      requires Valid()
      modifies this`enqueued
      ensures enqueued == old(enqueued) + ChatStream.Flush(State())
    {
      EnqueueNamedBuffers();
    }
  }

  /** `if (tc.id) buffer.id = tc.id; if (name) buffer.name += name; if (arguments) buffer.arguments += arguments`. */
  method UpdateBuffer(b: ToolCallBuffer, tc: ToolCallDelta) returns (buffer: ToolCallBuffer)
    ensures buffer == Accumulate(b, tc)
  {
    buffer := b;
    if Truthy(tc.id) {
      buffer := buffer.(id := tc.id.value);
    }
    if tc.fn.Some? && Truthy(tc.fn.value.name) {
      buffer := buffer.(name := buffer.name + tc.fn.value.name.value);
    }
    if tc.fn.Some? && Truthy(tc.fn.value.arguments) {
      buffer := buffer.(arguments := buffer.arguments + tc.fn.value.arguments.value);
    }
  }

  lemma ApplyDeltaWellFormed(s: ChatState, tc: ToolCallDelta)
    requires WellFormed(s)
    ensures WellFormed(ApplyDelta(s, tc))
  {
    var r := ApplyDelta(s, tc);
    assert forall i :: 0 <= i < |s.order| ==> r.order[i] == s.order[i];
  }

  lemma ApplyDeltasSnoc(s: ChatState, tcs: seq<ToolCallDelta>, i: nat)
    requires WellFormed(s) && i < |tcs|
    ensures ApplyDeltas(s, tcs[..i + 1]) == ApplyDelta(ApplyDeltas(s, tcs[..i]), tcs[i])
  {
    assert tcs[..i + 1][..i] == tcs[..i];
  }

  lemma RunFromSnoc(rs: seq<ParseResult<ChatChunk>>, i: nat)
    requires i < |rs|
    ensures var prev := RunFrom(Initial, rs[..i]);
      var last := Step(prev.0, rs[i]);
      RunFrom(Initial, rs[..i + 1]) == (last.0, prev.1 + last.1)
  {
    assert rs[..i + 1][..i] == rs[..i];
  }

  /** Feeding a whole stream to a fresh transformer and then flushing it
      enqueues exactly `StreamOutput`. */
  method RunStream(rs: seq<ParseResult<ChatChunk>>) returns (out: seq<StreamPart>)
    ensures out == StreamOutput(rs)
  {
    var t := new ChatStreamTransformer();
    var i := 0;
    while i < |rs|
      invariant 0 <= i <= |rs|
      invariant t.Valid()
      invariant t.State() == RunFrom(Initial, rs[..i]).0
      invariant t.enqueued == RunFrom(Initial, rs[..i]).1
    {
      RunFromSnoc(rs, i);
      t.Transform(rs[i]);
      i := i + 1;
    }
    assert rs[..|rs|] == rs;
    t.Flush();
    out := t.enqueued;
  }
}
