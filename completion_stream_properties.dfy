/** What the completion stream transform promises, proved about the
    functions of `CompletionStream`: at most one `text-start`, issued before
    any other text part and with the only id ever generated; deltas that
    reproduce the chunk texts verbatim; one `finish` per finishing chunk; and a
    flush that emits `text-end` whenever text was ever seen, also after a
    finish that already emitted one. */
module CompletionStreamProperties {
  import opened Wrappers
  import opened Ids
  import opened FinishReasons
  import opened CompletionSchema
  import opened CompletionStream

  /** The text of the first choice of a parse result, or "" when there is none. */
  function ChunkText(r: ParseResult<CompletionChunk>): string
  {
    if r.ParseFailure? || |r.value.choices| == 0 then "" else r.value.choices[0].text
  }

  /** Whether a parse result reaches the finish branch. */
  predicate Finishes(r: ParseResult<CompletionChunk>)
  {
    r.ParseSuccess? && |r.value.choices| > 0 && Truthy(r.value.choices[0].finishReason)
  }

  /** The texts of a stream's chunks, concatenated. */
  function StreamText(rs: seq<ParseResult<CompletionChunk>>): string
  {
    if rs == [] then "" else StreamText(rs[..|rs| - 1]) + ChunkText(rs[|rs| - 1])
  }

  /** The deltas of a sequence of parts, concatenated. */
  function DeltaText(out: seq<CompletionPart>): string
  {
    if out == [] then ""
    else DeltaText(out[..|out| - 1]) + (if out[|out| - 1].TextDelta? then out[|out| - 1].delta else "")
  }

  function CountStarts(out: seq<CompletionPart>): nat
  {
    if out == [] then 0 else CountStarts(out[..|out| - 1]) + (if out[|out| - 1].TextStart? then 1 else 0)
  }

  function CountFinish(out: seq<CompletionPart>): nat
  {
    if out == [] then 0 else CountFinish(out[..|out| - 1]) + (if out[|out| - 1].Finish? then 1 else 0)
  }

  function CountFinishing(rs: seq<ParseResult<CompletionChunk>>): nat
  {
    if rs == [] then 0 else CountFinishing(rs[..|rs| - 1]) + (if Finishes(rs[|rs| - 1]) then 1 else 0)
  }

  /** The one id a stream can generate. */
  const FirstId: string := GeneratedId(0)

  /** The state once text has been seen. */
  const Started: CompletionState := CompletionState(Some(FirstId), 1)

  // ------------------------------------------------------------ one step

  /** A failed parse result, or a chunk without choices, emits nothing and
      leaves `textId` alone. */
  lemma StepSkips(s: CompletionState, r: ParseResult<CompletionChunk>)
    requires r.ParseFailure? || |r.value.choices| == 0
    ensures Step(s, r) == (s, [])
  {
  }

  /** A finishing chunk emits its text parts, then `text-end` iff a text id
      is set, then one finish event whose reason agrees with
      `mapFinishReason` and whose totals default to 0. */
  lemma StepWithFinish(s: CompletionState, r: ParseResult<CompletionChunk>)
    requires Finishes(r)
    ensures var (s1, text) := TextStep(s, ChunkText(r));
      var fr := r.value.choices[0].finishReason;
      && Step(s, r).0 == s1
      && Step(s, r).1 == text + TextEndOf(s1) + [Finish(MapFinishReason(fr), TotalsOf(r.value.usage))]
      && (r.value.usage.None? ==> TotalsOf(r.value.usage) == Totals(0, 0))
  {
    InlineAgreesWithMapFinishReason(r.value.choices[0].finishReason.value);
  }

  /** Any other chunk emits only its text parts. */
  lemma StepWithoutFinish(s: CompletionState, r: ParseResult<CompletionChunk>)
    requires !Finishes(r)
    ensures Step(s, r) == TextStep(s, ChunkText(r))
  {
  }

  lemma {:induction false} CountStartsAppend(a: seq<CompletionPart>, b: seq<CompletionPart>)
    ensures CountStarts(a + b) == CountStarts(a) + CountStarts(b)
    decreases |b|
  {
    if b == [] {
      assert a + b == a;
    } else {
      assert (a + b)[..|a + b| - 1] == a + b[..|b| - 1];
      CountStartsAppend(a, b[..|b| - 1]);
    }
  }

  lemma {:induction false} CountFinishAppend(a: seq<CompletionPart>, b: seq<CompletionPart>)
    ensures CountFinish(a + b) == CountFinish(a) + CountFinish(b)
    decreases |b|
  {
    if b == [] {
      assert a + b == a;
    } else {
      assert (a + b)[..|a + b| - 1] == a + b[..|b| - 1];
      CountFinishAppend(a, b[..|b| - 1]);
    }
  }

  lemma {:induction false} DeltaTextAppend(a: seq<CompletionPart>, b: seq<CompletionPart>)
    ensures DeltaText(a + b) == DeltaText(a) + DeltaText(b)
    decreases |b|
  {
    if b == [] {
      assert a + b == a;
    } else {
      var b' := b[..|b| - 1];
      assert (a + b)[..|a + b| - 1] == a + b';
      DeltaTextAppend(a, b');
      var x := b[|b| - 1];
      AppendAssoc(DeltaText(a), DeltaText(b'), if x.TextDelta? then x.delta else "");
    }
  }

  /** The three counts distribute over concatenation. */
  lemma CountsAppend(a: seq<CompletionPart>, b: seq<CompletionPart>)
    ensures CountStarts(a + b) == CountStarts(a) + CountStarts(b)
    ensures CountFinish(a + b) == CountFinish(a) + CountFinish(b)
    ensures DeltaText(a + b) == DeltaText(a) + DeltaText(b)
  {
    CountStartsAppend(a, b);
    CountFinishAppend(a, b);
    DeltaTextAppend(a, b);
  }

  /** The counts of the text branch's parts. */
  lemma TextStepCounts(s: CompletionState, text: string)
    requires s == Initial || s == Started
    ensures var parts := TextStep(s, text).1;
      && CountStarts(parts) == (if s == Initial && text != "" then 1 else 0)
      && CountFinish(parts) == 0
      && DeltaText(parts) == text
  {
    var parts := TextStep(s, text).1;
    var e: string := "";
    assert e + e == e && e + text == text;
    if text != "" {
      var d := TextDelta(FirstId, text);
      assert [d][..0] == [];
      assert DeltaText([d]) == e + text;
      if s == Initial {
        var st := TextStart(FirstId);
        assert parts == [st, d] && parts[..1] == [st] && [st][..0] == [];
        assert DeltaText([st]) == e + e;
        assert CountStarts([st]) == 1 && CountFinish([st]) == 0;
      } else {
        assert parts == [d];
      }
    }
  }

  /** The finish branch's parts: at most a `text-end`, then the finish event. */
  lemma FinishCounts(s1: CompletionState, f: CompletionPart)
    requires f.Finish?
    ensures var parts := TextEndOf(s1) + [f];
      CountStarts(parts) == 0 && CountFinish(parts) == 1 && DeltaText(parts) == ""
  {
    var parts := TextEndOf(s1) + [f];
    var e: string := "";
    assert e + e == e;
    assert parts[..|parts| - 1] == TextEndOf(s1);
    if TextEndOf(s1) != [] {
      assert TextEndOf(s1)[..0] == [];
      assert DeltaText(TextEndOf(s1)) == e + e;
      assert CountStarts(TextEndOf(s1)) == 0 && CountFinish(TextEndOf(s1)) == 0;
    }
  }

  /** The counts of one step's output, from a state reachable from the start. */
  lemma StepCounts(s: CompletionState, r: ParseResult<CompletionChunk>)
    requires s == Initial || s == Started
    ensures CountStarts(Step(s, r).1) == (if s == Initial && ChunkText(r) != "" then 1 else 0)
    ensures CountFinish(Step(s, r).1) == (if Finishes(r) then 1 else 0)
    ensures DeltaText(Step(s, r).1) == ChunkText(r)
  {
    var (s1, text) := TextStep(s, ChunkText(r));
    TextStepCounts(s, ChunkText(r));
    if Finishes(r) {
      var f := Finish(InlineFinishReason(r.value.choices[0].finishReason.value), TotalsOf(r.value.usage));
      FinishCounts(s1, f);
      CountsAppend(text, TextEndOf(s1) + [f]);
      AppendAssoc(text, TextEndOf(s1), [f]);
    } else {
      assert Step(s, r).1 == text;
    }
  }

  /** Within one step a `text-start` can only be the first part, and only
      from the initial state. */
  lemma StepStart(s: CompletionState, r: ParseResult<CompletionChunk>)
    requires s == Initial || s == Started
    ensures forall i :: 0 <= i < |Step(s, r).1| && Step(s, r).1[i].TextStart? ==> i == 0 && s == Initial
  {
    var (s1, text) := TextStep(s, ChunkText(r));
    if Finishes(r) {
      var fin := [Finish(InlineFinishReason(r.value.choices[0].finishReason.value), TotalsOf(r.value.usage))];
      assert Step(s, r).1 == text + TextEndOf(s1) + fin;
    }
  }

  // ------------------------------------------------------ a whole stream

  /** Before any text the state is the initial one and only finish events
      have been emitted; from the first text on, `textId` is the first
      generated id and the generator has been called exactly once. */
  lemma {:induction false} RunState(rs: seq<ParseResult<CompletionChunk>>)
    ensures var (s, out) := RunFrom(Initial, rs);
      && (StreamText(rs) == "" ==> s == Initial && forall i :: 0 <= i < |out| ==> out[i].Finish?)
      && (StreamText(rs) != "" ==> s == Started)
  {
    if rs != [] {
      var rs' := rs[..|rs| - 1];
      var r := rs[|rs| - 1];
      RunState(rs');
      var (p, pout) := RunFrom(Initial, rs');
      var (s, step) := Step(p, r);
      if StreamText(rs) == "" {
        assert StreamText(rs') == "" && ChunkText(r) == "";
        assert TextStep(p, ChunkText(r)) == (p, []);
        assert forall i :: 0 <= i < |step| ==> step[i].Finish?;
        assert forall i :: 0 <= i < |pout + step| ==> (pout + step)[i].Finish? by {
          forall i | 0 <= i < |pout + step| ensures (pout + step)[i].Finish? {
            if i < |pout| {
              assert (pout + step)[i] == pout[i];
            } else {
              assert (pout + step)[i] == step[i - |pout|];
            }
          }
        }
      }
    }
  }

  /** Every text part of a stream carries the first generated id. */
  lemma {:induction false} RunIds(rs: seq<ParseResult<CompletionChunk>>)
    ensures var out := RunFrom(Initial, rs).1;
      forall i :: 0 <= i < |out| && !out[i].Finish? ==> out[i].id == FirstId
  {
    if rs != [] {
      var rs' := rs[..|rs| - 1];
      var r := rs[|rs| - 1];
      RunIds(rs');
      RunState(rs');
      var (p, pout) := RunFrom(Initial, rs');
      var (s, step) := Step(p, r);
      assert p == Initial || p == Started;
      assert forall i :: 0 <= i < |step| && !step[i].Finish? ==> step[i].id == FirstId;
      forall i | 0 <= i < |pout + step| && !(pout + step)[i].Finish?
        ensures (pout + step)[i].id == FirstId
      {
        if i < |pout| {
          assert (pout + step)[i] == pout[i];
        } else {
          assert (pout + step)[i] == step[i - |pout|];
        }
      }
    }
  }

  /** A stream emits `text-start` once if it has any text and never otherwise,
      and every part before it is a finish event: no delta or `text-end`
      comes before the start. */
  lemma {:induction false} RunStarts(rs: seq<ParseResult<CompletionChunk>>)
    ensures var out := RunFrom(Initial, rs).1;
      && CountStarts(out) == (if StreamText(rs) == "" then 0 else 1)
      && forall i, j :: 0 <= j < i < |out| && out[i].TextStart? ==> out[j].Finish?
  {
    if rs != [] {
      var rs' := rs[..|rs| - 1];
      var r := rs[|rs| - 1];
      RunStarts(rs');
      RunState(rs');
      var (p, pout) := RunFrom(Initial, rs');
      var (s, step) := Step(p, r);
      StepCounts(p, r);
      StepStart(p, r);
      CountsAppend(pout, step);
      var out := pout + step;
      forall i, j | 0 <= j < i < |out| && out[i].TextStart? ensures out[j].Finish? {
        if i < |pout| {
          assert out[i] == pout[i] && out[j] == pout[j];
        } else if j < |pout| {
          // the start lies in this step, so nothing but finishes came before
          assert out[j] == pout[j];
          assert step[i - |pout|] == out[i];
        } else {
          // within one step a start is the first part
          assert false;
        }
      }
    }
  }

  /** The deltas of a stream reproduce its chunks' texts, and it emits one
      finish event per finishing chunk. */
  lemma {:induction false} RunCounts(rs: seq<ParseResult<CompletionChunk>>)
    ensures DeltaText(RunFrom(Initial, rs).1) == StreamText(rs)
    ensures CountFinish(RunFrom(Initial, rs).1) == CountFinishing(rs)
  {
    if rs != [] {
      var rs' := rs[..|rs| - 1];
      var r := rs[|rs| - 1];
      RunCounts(rs');
      RunState(rs');
      var (p, pout) := RunFrom(Initial, rs');
      StepCounts(p, r);
      CountsAppend(pout, Step(p, r).1);
    }
  }

  /** The flush emits `text-end` exactly when the stream had text, whatever
      finish events came before; it never emits a finish event. */
  lemma FlushEndsText(rs: seq<ParseResult<CompletionChunk>>)
    ensures Flush(RunFrom(Initial, rs).0) == (if StreamText(rs) == "" then [] else [TextEnd(FirstId)])
  {
    RunState(rs);
  }

  /** Over a whole stream, flush included: one finish event per finishing
      chunk, the chunk texts verbatim in the deltas, and at most one
      `text-start`. */
  lemma StreamSummary(rs: seq<ParseResult<CompletionChunk>>)
    ensures CountFinish(StreamOutput(rs)) == CountFinishing(rs)
    ensures DeltaText(StreamOutput(rs)) == StreamText(rs)
    ensures CountStarts(StreamOutput(rs)) <= 1
  {
    var run := RunFrom(Initial, rs);
    RunCounts(rs);
    RunStarts(rs);
    FlushEndsText(rs);
    var f := Flush(run.0);
    if f != [] {
      assert f == [TextEnd(FirstId)] && f[..0] == [];
      var e: string := "";
      assert e + e == e;
      assert DeltaText(f) == DeltaText([]) + e;
      assert CountStarts(f) == CountStarts([]) + 0;
    }
    assert CountFinish(f) == 0 && CountStarts(f) == 0 && DeltaText(f) == "";
    CountsAppend(run.1, f);
  }

  /** `textId` is never reset: when a chunk with text finishes the stream,
      `text-end` is emitted twice, once before the finish event and once more
      by the flush. */
  lemma TextEndRepeatedAfterFinish(rs: seq<ParseResult<CompletionChunk>>, r: ParseResult<CompletionChunk>)
    requires Finishes(r)
    requires StreamText(rs + [r]) != ""
    ensures var out := StreamOutput(rs + [r]);
      && |out| >= 3
      && out[|out| - 3] == TextEnd(FirstId)
      && out[|out| - 2] == Finish(MapFinishReason(r.value.choices[0].finishReason), TotalsOf(r.value.usage))
      && out[|out| - 1] == TextEnd(FirstId)
  {
    var rs1 := rs + [r];
    assert rs1[..|rs1| - 1] == rs && rs1[|rs1| - 1] == r;
    RunState(rs);
    RunState(rs1);
    var (p, pout) := RunFrom(Initial, rs);
    var (s1, text) := TextStep(p, ChunkText(r));
    StepWithFinish(p, r);
    assert s1 == Started;
    var fin := Finish(MapFinishReason(r.value.choices[0].finishReason), TotalsOf(r.value.usage));
    var out := pout + (text + [TextEnd(FirstId)] + [fin]) + [TextEnd(FirstId)];
    assert StreamOutput(rs1) == out;
  }
}

/** A two-chunk stream written out: text "Hel", then text "lo" with finish
    reason "stop". */
module CompletionStreamScenario {
  import opened Wrappers
  import opened Ids
  import opened FinishReasons
  import opened CompletionSchema
  import opened CompletionStream

  const Hel: ParseResult<CompletionChunk> := ParseSuccess(CompletionChunk("c", [CompletionChoice("Hel", 0, None)], None))
  const Lo: ParseResult<CompletionChunk> :=
    ParseSuccess(CompletionChunk("c", [CompletionChoice("lo", 0, Some("stop"))], Some(CompletionUsage(3, 2, 5))))

  lemma HelStep()
    ensures Step(Initial, Hel) == (CompletionState(Some(GeneratedId(0)), 1), [TextStart(GeneratedId(0)), TextDelta(GeneratedId(0), "Hel")])
  {
  }

  lemma LoStep()
    ensures Step(CompletionState(Some(GeneratedId(0)), 1), Lo).1 ==
      [TextDelta(GeneratedId(0), "lo"), TextEnd(GeneratedId(0)), Finish(CompletionFinishReason(UStop, Some("stop")), Totals(3, 2))]
  {
  }

  /** One start, the two deltas with the same id, `text-end`, the finish
      event with the chunk's usage, and a second `text-end` from the flush. */
  lemma HelloScenario()
    ensures var id := GeneratedId(0);
      StreamOutput([Hel, Lo]) ==
        [TextStart(id), TextDelta(id, "Hel"), TextDelta(id, "lo"), TextEnd(id),
         Finish(CompletionFinishReason(UStop, Some("stop")), Totals(3, 2)), TextEnd(id)]
  {
    var id := GeneratedId(0);
    var rs := [Hel, Lo];
    assert rs[..1] == [Hel] && [Hel][..0] == [];
    HelStep();
    LoStep();
    var started := CompletionState(Some(id), 1);
    var hel := [TextStart(id), TextDelta(id, "Hel")];
    var e: seq<CompletionPart> := [];
    assert e + hel == hel;
    assert RunFrom(Initial, [Hel]) == (started, hel);
    assert Step(started, Lo).0 == started;
    assert RunFrom(Initial, rs).0 == started;
  }
}
