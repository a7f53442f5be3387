/** The `TransformStream` of the completion model's `doStream`
    (src/apertis-completion-language-model.ts, lines 116-190) as an object:
    `textId` and the id generator are fields the transform updates in place,
    and `enqueued` collects what is passed to `controller.enqueue`. Each method
    is proved to do what the functions of `CompletionStream` say. */
module CompletionStreamTransform {
  import opened Wrappers
  import opened Ids
  import opened FinishReasons
  import opened CompletionSchema
  import opened CompletionStream

  class CompletionStreamTransformer {
    /** `let textId: string | null = null`. */
    var textId: Option<string>
    /** How many ids the generator has handed out. */
    var nextId: nat
    /** Every part enqueued so far. */
    var enqueued: seq<CompletionPart>

    function State(): CompletionState
      reads this
    {
      CompletionState(textId, nextId)
    }

    constructor()
      ensures State() == Initial && enqueued == []
    {
      textId := None;
      nextId := 0;
      enqueued := [];
    }

    /** `transform(parseResult, controller)`. */
    method Transform(r: ParseResult<CompletionChunk>)
      modifies this
      ensures State() == Step(old(State()), r).0
      ensures enqueued == old(enqueued) + Step(old(State()), r).1
    {
      if r.ParseFailure? {
        return;
      }
      var chunk := r.value;
      if |chunk.choices| == 0 {
        return;
      }
      var choice := chunk.choices[0];
      var text: seq<CompletionPart> := [];
      if choice.text != "" {
        if !Truthy(textId) {
          textId := Some(GeneratedId(nextId));
          nextId := nextId + 1;
          text := [TextStart(textId.value), TextDelta(textId.value, choice.text)];
        } else {
          text := [TextDelta(textId.value, choice.text)];
        }
        enqueued := enqueued + text;
      }
      assert (State(), text) == TextStep(old(State()), choice.text);
      if Truthy(choice.finishReason) {
        var end: seq<CompletionPart> := [];
        if Truthy(textId) {
          end := [TextEnd(textId.value)];
          enqueued := enqueued + end;
        }
        var usage := if chunk.usage.Some? then Totals(chunk.usage.value.promptTokens, chunk.usage.value.completionTokens)
                     else Totals(0, 0);
        var finish := [Finish(CompletionFinishReason(InlineUnified(choice.finishReason.value), choice.finishReason), usage)];
        enqueued := enqueued + finish;
        AppendAssoc(old(enqueued), text, end);
        AppendAssoc(old(enqueued), text + end, finish);
      }
    }

    /** `flush(controller)`: `text-end` whenever a text id was ever set. */
    method Flush()
      modifies this`enqueued
      ensures enqueued == old(enqueued) + CompletionStream.Flush(State())
    {
      if Truthy(textId) {
        enqueued := enqueued + [TextEnd(textId.value)];
      }
    }
  }

  /** Feeding a whole stream to a fresh transformer and then flushing it
      enqueues exactly `StreamOutput`. */
  method RunStream(rs: seq<ParseResult<CompletionChunk>>) returns (out: seq<CompletionPart>)
    ensures out == StreamOutput(rs)
  {
    var t := new CompletionStreamTransformer();
    var i := 0;
    while i < |rs|
      invariant 0 <= i <= |rs|
      invariant (t.State(), t.enqueued) == RunFrom(Initial, rs[..i])
    {
      assert rs[..i + 1][..i] == rs[..i];
      t.Transform(rs[i]);
      i := i + 1;
    }
    assert rs[..|rs|] == rs;
    t.Flush();
    out := t.enqueued;
  }
}
