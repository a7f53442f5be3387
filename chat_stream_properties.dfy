/** What the chat stream transform promises, proved about the functions of
    `ChatStream`: per-index concatenation of fragments, first-seen ordering,
    the name filter, "finish is last", and a flush that never repeats what a
    finish already emitted. */
module ChatStreamProperties {
  import opened Wrappers
  import opened Ids
  import opened FinishReasons
  import opened ChatSchema
  import opened ChatStream

  // -------------------------------------------------- views of the fragments

  /** Some fragment of `tcs` is for index `k`. */
  predicate OccursIn(tcs: seq<ToolCallDelta>, k: int)
  {
    exists i :: 0 <= i < |tcs| && tcs[i].index == k
  }

  /** The name fragments for index `k`, concatenated in arrival order. */
  function NameFragments(tcs: seq<ToolCallDelta>, k: int): string
  {
    if tcs == [] then ""
    else
      var last := tcs[|tcs| - 1];
      NameFragments(tcs[..|tcs| - 1], k) + (if last.index == k then NameFragment(last) else "")
  }

  /** The argument fragments for index `k`, concatenated in arrival order. */
  function ArgumentsFragments(tcs: seq<ToolCallDelta>, k: int): string
  {
    if tcs == [] then ""
    else
      var last := tcs[|tcs| - 1];
      ArgumentsFragments(tcs[..|tcs| - 1], k) + (if last.index == k then ArgumentsFragment(last) else "")
  }

  /** The most recent non-empty id supplied for index `k`, if any. */
  function LastTruthyId(tcs: seq<ToolCallDelta>, k: int): Option<string>
  {
    if tcs == [] then None
    else
      var last := tcs[|tcs| - 1];
      if last.index == k && Truthy(last.id) then last.id else LastTruthyId(tcs[..|tcs| - 1], k)
  }

  function BufferName(s: ChatState, k: int): string
  {
    if k in s.buffers then s.buffers[k].name else ""
  }

  function BufferArguments(s: ChatState, k: int): string
  {
    if k in s.buffers then s.buffers[k].arguments else ""
  }

  /** One fragment touches only the buffer of its own index. */
  lemma ApplyDeltaAt(s: ChatState, x: ToolCallDelta, k: int)
    requires WellFormed(s)
    ensures var s' := ApplyDelta(s, x);
      && (k in s'.buffers <==> k in s.buffers || x.index == k)
      && (x.index != k && k in s.buffers ==> s'.buffers[k] == s.buffers[k])
      && (x.index == k ==> s'.buffers[k] == Accumulate(
            if k in s.buffers then s.buffers[k] else ToolCallBuffer(Coalesce(x.id, GeneratedId(s.nextId)), "", ""), x))
      && s'.nextId == (if x.index !in s.buffers && x.id.None? then s.nextId + 1 else s.nextId)
  {
  }

  lemma OccursInSnoc(tcs: seq<ToolCallDelta>, k: int)
    requires tcs != []
    ensures OccursIn(tcs, k) <==> OccursIn(tcs[..|tcs| - 1], k) || tcs[|tcs| - 1].index == k
  {
    var p := tcs[..|tcs| - 1];
    if OccursIn(tcs, k) && tcs[|tcs| - 1].index != k {
      var i :| 0 <= i < |tcs| && tcs[i].index == k;
      assert p[i] == tcs[i];
    }
    if OccursIn(p, k) {
      var i :| 0 <= i < |p| && p[i].index == k;
      assert tcs[i] == p[i];
    }
  }

  /** After a sequence of fragments there is a buffer for exactly the indexes
      that had one before or that some fragment names; the buffers of indexes
      no fragment names are untouched. */
  lemma {:induction false} ApplyDeltasKeys(s: ChatState, tcs: seq<ToolCallDelta>, k: int)
    requires WellFormed(s)
    ensures var s' := ApplyDeltas(s, tcs);
      && (k in s'.buffers <==> k in s.buffers || OccursIn(tcs, k))
      && (!OccursIn(tcs, k) && k in s.buffers ==> s'.buffers[k] == s.buffers[k])
      && s.nextId <= s'.nextId
  {
    if tcs != [] {
      var p := tcs[..|tcs| - 1];
      ApplyDeltasKeys(s, p, k);
      ApplyDeltaAt(ApplyDeltas(s, p), tcs[|tcs| - 1], k);
      OccursInSnoc(tcs, k);
    }
  }

  /** One fragment appends its name and arguments to the buffer of its index. */
  lemma ApplyDeltaConcatenates(s: ChatState, x: ToolCallDelta, k: int)
    requires WellFormed(s)
    ensures var s' := ApplyDelta(s, x);
      && BufferName(s', k) == BufferName(s, k) + (if x.index == k then NameFragment(x) else "")
      && BufferArguments(s', k) == BufferArguments(s, k) + (if x.index == k then ArgumentsFragment(x) else "")
  {
    ApplyDeltaAt(s, x, k);
  }

  /** A buffer's name and arguments are the in-order concatenation of all the
      fragments received for its index. */
  lemma {:induction false} ApplyDeltasConcatenates(s: ChatState, tcs: seq<ToolCallDelta>, k: int)
    requires WellFormed(s)
    ensures var s' := ApplyDeltas(s, tcs);
      && BufferName(s', k) == BufferName(s, k) + NameFragments(tcs, k)
      && BufferArguments(s', k) == BufferArguments(s, k) + ArgumentsFragments(tcs, k)
  {
    if tcs != [] {
      var p := tcs[..|tcs| - 1];
      var x := tcs[|tcs| - 1];
      var mid := ApplyDeltas(s, p);
      assert ApplyDeltas(s, tcs) == ApplyDelta(mid, x);
      ApplyDeltasConcatenates(s, p, k);
      ApplyDeltaConcatenates(mid, x, k);
      var nx := if x.index == k then NameFragment(x) else "";
      var ax := if x.index == k then ArgumentsFragment(x) else "";
      assert NameFragments(tcs, k) == NameFragments(p, k) + nx;
      assert ArgumentsFragments(tcs, k) == ArgumentsFragments(p, k) + ax;
      AppendAssoc(BufferName(s, k), NameFragments(p, k), nx);
      AppendAssoc(BufferArguments(s, k), ArgumentsFragments(p, k), ax);
    }
  }

  /** A buffer's id is the most recent non-empty id supplied for its index;
      without one it keeps the id it had. */
  lemma {:induction false} ApplyDeltasId(s: ChatState, tcs: seq<ToolCallDelta>, k: int)
    requires WellFormed(s)
    ensures var s' := ApplyDeltas(s, tcs);
      && (LastTruthyId(tcs, k).Some? ==> k in s'.buffers && s'.buffers[k].id == LastTruthyId(tcs, k).value)
      && (k in s.buffers && LastTruthyId(tcs, k).None? ==> k in s'.buffers && s'.buffers[k].id == s.buffers[k].id)
  {
    if tcs != [] {
      var p := tcs[..|tcs| - 1];
      var x := tcs[|tcs| - 1];
      var mid := ApplyDeltas(s, p);
      var s' := ApplyDelta(mid, x);
      assert ApplyDeltas(s, tcs) == s';
      ApplyDeltasId(s, p, k);
      ApplyDeltasKeys(s, p, k);
      ApplyDeltaAt(mid, x, k);
      assert LastTruthyId(tcs, k) == if x.index == k && Truthy(x.id) then x.id else LastTruthyId(p, k);
      if x.index == k {
        assert s'.buffers[k].id == if Truthy(x.id) then x.id.value
          else if k in mid.buffers then mid.buffers[k].id else Coalesce(x.id, GeneratedId(mid.nextId));
      } else if k in mid.buffers {
        assert s'.buffers[k] == mid.buffers[k];
      }
    }
  }

  /** Without a non-empty id for its index, a new buffer keeps the id it was
      created with, `tc.id ?? generateId()`: the empty string, or an id generated
      during these fragments. */
  lemma {:induction false} ApplyDeltasCreatedId(s: ChatState, tcs: seq<ToolCallDelta>, k: int)
    requires WellFormed(s)
    requires k !in s.buffers && LastTruthyId(tcs, k).None?
    ensures var s' := ApplyDeltas(s, tcs);
      k in s'.buffers ==>
        s'.buffers[k].id == "" || exists n :: s.nextId <= n < s'.nextId && s'.buffers[k].id == GeneratedId(n)
  {
    if tcs != [] {
      var p := tcs[..|tcs| - 1];
      var x := tcs[|tcs| - 1];
      var mid := ApplyDeltas(s, p);
      var s' := ApplyDelta(mid, x);
      assert ApplyDeltas(s, tcs) == s';
      assert LastTruthyId(tcs, k) == if x.index == k && Truthy(x.id) then x.id else LastTruthyId(p, k);
      ApplyDeltasCreatedId(s, p, k);
      ApplyDeltasKeys(s, p, k);
      ApplyDeltaAt(mid, x, k);
      if k in s'.buffers {
        if k in mid.buffers {
          assert s'.buffers[k].id == mid.buffers[k].id;
          if mid.buffers[k].id != "" {
            var n :| s.nextId <= n < mid.nextId && mid.buffers[k].id == GeneratedId(n);
            assert s.nextId <= n < s'.nextId;
          }
        } else if x.id.None? {
          assert s'.buffers[k].id == GeneratedId(mid.nextId);
          assert s.nextId <= mid.nextId < s'.nextId;
        } else {
          assert s'.buffers[k].id == "";
        }
      }
    }
  }

  // ------------------------------------------------------------------ ordering

  /** `a` stands somewhere before `b` in `xs`. */
  predicate Before(xs: seq<int>, a: int, b: int)
  {
    exists i, j :: 0 <= i < j < |xs| && xs[i] == a && xs[j] == b
  }

  lemma BeforeSnoc(xs: seq<int>, x: int, a: int, b: int)
    ensures Before(xs + [x], a, b) <==> Before(xs, a, b) || (b == x && a in xs)
  {
    var ys := xs + [x];
    if Before(ys, a, b) {
      var i, j :| 0 <= i < j < |ys| && ys[i] == a && ys[j] == b;
      if j < |xs| {
        assert xs[i] == a && xs[j] == b;
      } else {
        assert xs[i] == a;
      }
    }
    if Before(xs, a, b) {
      var i, j :| 0 <= i < j < |xs| && xs[i] == a && xs[j] == b;
      assert ys[i] == a && ys[j] == b;
    }
    if b == x && a in xs {
      var i :| 0 <= i < |xs| && xs[i] == a;
      assert ys[i] == a && ys[|xs|] == b;
    }
  }

  lemma BeforeMembers(xs: seq<int>, a: int, b: int)
    ensures Before(xs, a, b) ==> a in xs && b in xs
  {
  }

  /** Some fragment for `a` arrives while no fragment for `b` has arrived yet:
      `a` was seen first. */
  predicate FirstBefore(tcs: seq<ToolCallDelta>, a: int, b: int)
  {
    exists i :: 0 <= i < |tcs| && tcs[i].index == a && forall j :: 0 <= j <= i ==> tcs[j].index != b
  }

  lemma FirstBeforeSnoc(tcs: seq<ToolCallDelta>, a: int, b: int)
    requires tcs != []
    ensures var p, x := tcs[..|tcs| - 1], tcs[|tcs| - 1];
      FirstBefore(tcs, a, b) <==> FirstBefore(p, a, b) || (x.index == a && a != b && !OccursIn(p, b))
  {
    var p, x := tcs[..|tcs| - 1], tcs[|tcs| - 1];
    if FirstBefore(tcs, a, b) {
      var i :| 0 <= i < |tcs| && tcs[i].index == a && forall j :: 0 <= j <= i ==> tcs[j].index != b;
      if i < |p| {
        assert p[i].index == a && forall j :: 0 <= j <= i ==> p[j].index != b;
      } else {
        assert forall j :: 0 <= j < |p| ==> p[j] == tcs[j];
      }
    }
    if FirstBefore(p, a, b) {
      var i :| 0 <= i < |p| && p[i].index == a && forall j :: 0 <= j <= i ==> p[j].index != b;
      assert tcs[i].index == a && forall j :: 0 <= j <= i ==> tcs[j].index != b;
    }
    if x.index == a && a != b && !OccursIn(p, b) {
      assert forall j :: 0 <= j < |p| ==> tcs[j] == p[j];
      assert tcs[|p|].index == a && forall j :: 0 <= j <= |p| ==> tcs[j].index != b;
    }
  }

  /** If `b` never arrives, `a` was seen first exactly when it arrives at all. */
  lemma FirstBeforeAbsent(tcs: seq<ToolCallDelta>, a: int, b: int)
    ensures FirstBefore(tcs, a, b) ==> OccursIn(tcs, a)
    ensures !OccursIn(tcs, b) ==> (FirstBefore(tcs, a, b) <==> OccursIn(tcs, a))
  {
    if !OccursIn(tcs, b) && OccursIn(tcs, a) {
      var i :| 0 <= i < |tcs| && tcs[i].index == a;
      assert forall j :: 0 <= j <= i ==> tcs[j].index != b;
    }
  }

  lemma OrderMembership(s: ChatState, k: int)
    requires WellFormed(s)
    ensures k in s.order <==> k in s.buffers
  {
    if k in s.order {
      var i :| 0 <= i < |s.order| && s.order[i] == k;
    }
  }

  /** Keys already in the Map keep their places; new keys are only appended. */
  lemma {:induction false} ApplyDeltasPrefix(s: ChatState, tcs: seq<ToolCallDelta>)
    requires WellFormed(s)
    ensures var o, o' := s.order, ApplyDeltas(s, tcs).order;
      |o| <= |o'| && o'[..|o|] == o
  {
    if tcs != [] {
      var p := tcs[..|tcs| - 1];
      var mid := ApplyDeltas(s, p);
      ApplyDeltasPrefix(s, p);
      var o, m, o' := s.order, mid.order, ApplyDeltas(s, tcs).order;
      assert o'[..|m|] == m;
      assert o'[..|o|] == m[..|o|];
    }
  }

  /** The Map iterates in first-seen order: indexes already present keep their
      places, and new indexes follow in the order in which each index first
      arrived (not ascending index). */
  lemma {:induction false} ApplyDeltasOrder(s: ChatState, tcs: seq<ToolCallDelta>, a: int, b: int)
    requires WellFormed(s)
    ensures var o, o' := s.order, ApplyDeltas(s, tcs).order;
      (Before(o', a, b) <==>
            || Before(o, a, b)
            || (a in o && b !in o && b in o')
            || (a !in o && b !in o && a in o' && b in o' && FirstBefore(tcs, a, b)))
  {
    if tcs != [] {
      var p := tcs[..|tcs| - 1];
      var x := tcs[|tcs| - 1];
      var mid := ApplyDeltas(s, p);
      var s' := ApplyDelta(mid, x);
      assert ApplyDeltas(s, tcs) == s';
      ApplyDeltasOrder(s, p, a, b);
      ApplyDeltasPrefix(s, p);
      var o, m, o' := s.order, mid.order, s'.order;
      FirstBeforeSnoc(tcs, a, b);
      FirstBeforeAbsent(p, a, b);
      ApplyDeltasKeys(s, p, a);
      ApplyDeltasKeys(s, p, b);
      OrderMembership(s, a);
      OrderMembership(s, b);
      OrderMembership(mid, a);
      OrderMembership(mid, b);
      OrderMembership(mid, x.index);
      if x.index in mid.buffers {
        assert o' == m;
      } else {
        assert o' == m + [x.index];
        BeforeSnoc(m, x.index, a, b);
        assert forall k :: k in o ==> k in m;
      }
    }
  }

  // ---------------------------------------------------------------- emission

  /** The keys whose buffers have a name, in iteration order. */
  function NamedIndexes(order: seq<int>, buffers: map<int, ToolCallBuffer>): (named: seq<int>)
    requires forall i :: 0 <= i < |order| ==> order[i] in buffers
    ensures forall k :: k in named ==> k in buffers
  {
    if order == [] then []
    else
      var k := order[|order| - 1];
      NamedIndexes(order[..|order| - 1], buffers) + (if buffers[k].name != "" then [k] else [])
  }

  /** Emission enqueues one tool-call event per named buffer, in iteration order,
      carrying that buffer's id, name and arguments. */
  lemma {:induction false} EmitBuffersIsNamedInOrder(order: seq<int>, buffers: map<int, ToolCallBuffer>)
    requires forall i :: 0 <= i < |order| ==> order[i] in buffers
    ensures var out, named := EmitBuffers(order, buffers), NamedIndexes(order, buffers);
      && |out| == |named|
      && forall i :: 0 <= i < |named| ==> out[i] == ToolCallEvent(buffers[named[i]])
  {
    if order != [] {
      EmitBuffersIsNamedInOrder(order[..|order| - 1], buffers);
    }
  }

  /** A key is kept exactly when its buffer's name is non-empty. */
  lemma {:induction false} NamedIndexesMembers(order: seq<int>, buffers: map<int, ToolCallBuffer>)
    requires forall i :: 0 <= i < |order| ==> order[i] in buffers
    ensures var named := NamedIndexes(order, buffers);
      && (forall i :: 0 <= i < |order| ==> (order[i] in named <==> buffers[order[i]].name != ""))
      && (forall k :: k in named ==> k in order)
      && (forall k :: k in order && k in buffers ==> (k in named <==> buffers[k].name != ""))
  {
    if order != [] {
      var p, k := order[..|order| - 1], order[|order| - 1];
      NamedIndexesMembers(p, buffers);
      assert forall i :: 0 <= i < |p| ==> order[i] == p[i];
    }
    var named := NamedIndexes(order, buffers);
    forall k | k in order && k in buffers
      ensures k in named <==> buffers[k].name != ""
    {
      var i :| 0 <= i < |order| && order[i] == k;
    }
  }

  /** Filtering keeps the relative order of the keys it keeps. */
  lemma {:induction false} NamedIndexesKeepOrder(order: seq<int>, buffers: map<int, ToolCallBuffer>, a: int, b: int)
    requires forall i :: 0 <= i < |order| ==> order[i] in buffers
    ensures var named := NamedIndexes(order, buffers);
      Before(named, a, b) <==> Before(order, a, b) && a in named && b in named
  {
    if order != [] {
      var p, k := order[..|order| - 1], order[|order| - 1];
      NamedIndexesKeepOrder(p, buffers, a, b);
      NamedIndexesMembers(p, buffers);
      var np := NamedIndexes(p, buffers);
      assert order == p + [k];
      BeforeSnoc(p, k, a, b);
      BeforeMembers(p, a, b);
      BeforeMembers(np, a, b);
      if buffers[k].name != "" {
        BeforeSnoc(np, k, a, b);
        assert NamedIndexes(order, buffers) == np + [k];
      } else {
        assert NamedIndexes(order, buffers) == np;
      }
    }
  }

  /** Every emitted event is a tool call with a non-empty name: nameless buffers
      are dropped. */
  lemma {:induction false} EmitBuffersOnlyNamedToolCalls(order: seq<int>, buffers: map<int, ToolCallBuffer>)
    requires forall i :: 0 <= i < |order| ==> order[i] in buffers
    ensures forall e :: e in EmitBuffers(order, buffers) ==> e.ToolCall? && e.toolName != ""
  {
    if order != [] {
      EmitBuffersOnlyNamedToolCalls(order[..|order| - 1], buffers);
    }
  }

  // ------------------------------------------------------------ one chunk

  /** The text-delta a chunk enqueues: its content verbatim, when non-empty. */
  function ChunkText(r: ParseResult<ChatChunk>): seq<StreamPart>
  {
    if r.ParseSuccess? && |r.value.choices| > 0 && Truthy(r.value.choices[0].delta.content)
    then [TextDelta(r.value.choices[0].delta.content.value)]
    else []
  }

  /** A failed parse result, or a chunk without a first choice, enqueues nothing
      and leaves every buffer as it was. */
  lemma StepSkips(s: ChatState, r: ParseResult<ChatChunk>)
    requires WellFormed(s)
    requires r.ParseFailure? || |r.value.choices| == 0
    ensures Step(s, r) == (s, [])
  {
  }

  /** Without a finish reason a chunk enqueues at most its text; its tool-call
      fragments only update the buffers. */
  lemma StepWithoutFinish(s: ChatState, r: ParseResult<ChatChunk>)
    requires WellFormed(s)
    requires !Finishes(r)
    ensures Step(s, r) == (ApplyDeltas(s, ChunkDeltas(r)), ChunkText(r))
  {
  }

  /** A chunk with a finish reason enqueues its text first, then one tool call
      per named buffer, then exactly one finish event, last, with the mapped
      reason and the usage counts (0 when absent); the buffers are cleared, so a
      flush right after it enqueues nothing. */
  lemma StepWithFinish(s: ChatState, r: ParseResult<ChatChunk>)
    requires WellFormed(s)
    requires Finishes(r)
    ensures var res := Step(s, r);
      var mid := ApplyDeltas(s, ChunkDeltas(r));
      var out := res.1;
      && res.0.order == [] && res.0.buffers == map[] && Flush(res.0) == []
      && out == ChunkText(r) + EmitBuffers(mid.order, mid.buffers)
                + [Finish(MapApertisFinishReason(r.value.choices[0].finishReason), UsageOf(r.value.usage))]
      && (forall i :: 0 <= i < |out| - 1 ==> !out[i].Finish?)
      && (forall i :: |ChunkText(r)| <= i < |out| - 1 ==> out[i].ToolCall? && out[i].toolName != "")
  {
    var mid := ApplyDeltas(s, ChunkDeltas(r));
    var emitted := EmitBuffers(mid.order, mid.buffers);
    EmitBuffersOnlyNamedToolCalls(mid.order, mid.buffers);
    var out := Step(s, r).1;
    forall i | |ChunkText(r)| <= i < |out| - 1
      ensures out[i].ToolCall? && out[i].toolName != ""
    {
      assert out[i] == emitted[i - |ChunkText(r)|];
    }
  }

  /** The flush enqueues only tool calls with non-empty names, and never a finish event. */
  lemma FlushOnlyNamedToolCalls(s: ChatState)
    requires WellFormed(s)
    ensures forall e :: e in Flush(s) ==> e.ToolCall? && e.toolName != ""
  {
    EmitBuffersOnlyNamedToolCalls(s.order, s.buffers);
  }

  // ---------------------------------------------------------------- streams

  /** All tool-call fragments of a sequence of parse results, in arrival order. */
  function StreamDeltas(rs: seq<ParseResult<ChatChunk>>): seq<ToolCallDelta>
  {
    if rs == [] then [] else StreamDeltas(rs[..|rs| - 1]) + ChunkDeltas(rs[|rs| - 1])
  }

  predicate NoFinish(rs: seq<ParseResult<ChatChunk>>)
  {
    forall i :: 0 <= i < |rs| ==> !Finishes(rs[i])
  }

  lemma {:induction false} ApplyDeltasAppend(s: ChatState, a: seq<ToolCallDelta>, b: seq<ToolCallDelta>)
    requires WellFormed(s)
    ensures ApplyDeltas(s, a + b) == ApplyDeltas(ApplyDeltas(s, a), b)
    decreases |b|
  {
    if b == [] {
      assert a + b == a;
    } else {
      var b' := b[..|b| - 1];
      assert (a + b)[..|a + b| - 1] == a + b';
      assert (a + b)[|a + b| - 1] == b[|b| - 1];
      ApplyDeltasAppend(s, a, b');
    }
  }

  /** Until a finish reason arrives, the chunks only fold their fragments into
      the buffers and enqueue nothing but text. */
  lemma {:induction false} RunWithoutFinish(s: ChatState, rs: seq<ParseResult<ChatChunk>>)
    requires WellFormed(s)
    requires NoFinish(rs)
    ensures RunFrom(s, rs).0 == ApplyDeltas(s, StreamDeltas(rs))
    ensures forall e :: e in RunFrom(s, rs).1 ==> e.TextDelta?
  {
    if rs != [] {
      var p := rs[..|rs| - 1];
      assert NoFinish(p) by {
        assert forall i :: 0 <= i < |p| ==> p[i] == rs[i];
      }
      assert !Finishes(rs[|rs| - 1]);
      RunWithoutFinish(s, p);
      var mid := RunFrom(s, p).0;
      StepWithoutFinish(mid, rs[|rs| - 1]);
      ApplyDeltasAppend(s, StreamDeltas(p), ChunkDeltas(rs[|rs| - 1]));
      assert RunFrom(s, rs).1 == RunFrom(s, p).1 + ChunkText(rs[|rs| - 1]);
    }
  }

  /** Ordering of the Map's keys from an empty Map: first-seen order. */
  lemma FirstSeenOrder(tcs: seq<ToolCallDelta>, a: int, b: int)
    ensures var o := ApplyDeltas(Initial, tcs).order;
      Before(o, a, b) <==> a in o && b in o && FirstBefore(tcs, a, b)
  {
    ApplyDeltasOrder(Initial, tcs, a, b);
  }

  /** What the flush or a finish chunk enqueues for the fragments tcs received
      since the Map was last empty: one tool call per index of NamedIndexes,
      carrying the concatenation of all name and argument fragments for it. */
  lemma AccumulatedCalls(tcs: seq<ToolCallDelta>)
    ensures var mid := ApplyDeltas(Initial, tcs);
      var named := NamedIndexes(mid.order, mid.buffers);
      var emitted := EmitBuffers(mid.order, mid.buffers);
      && |emitted| == |named|
      && (forall i :: 0 <= i < |named| ==>
            emitted[i] == ToolCall(mid.buffers[named[i]].id, NameFragments(tcs, named[i]), ArgumentsFragments(tcs, named[i])))
  {
    var mid := ApplyDeltas(Initial, tcs);
    EmitBuffersIsNamedInOrder(mid.order, mid.buffers);
    NamedIndexesMembers(mid.order, mid.buffers);
    var named := NamedIndexes(mid.order, mid.buffers);
    forall i | 0 <= i < |named|
      ensures EmitBuffers(mid.order, mid.buffers)[i] ==
        ToolCall(mid.buffers[named[i]].id, NameFragments(tcs, named[i]), ArgumentsFragments(tcs, named[i]))
    {
      ApplyDeltasConcatenates(Initial, tcs, named[i]);
    }
  }

  /** Those indexes are exactly the ones whose name fragments are not all
      empty (a nameless index gets no tool call), in the order in which each
      index first arrived. */
  lemma AccumulatedIndexes(tcs: seq<ToolCallDelta>)
    ensures var mid := ApplyDeltas(Initial, tcs);
      var named := NamedIndexes(mid.order, mid.buffers);
      && (forall k :: k in named <==> OccursIn(tcs, k) && NameFragments(tcs, k) != "")
      && (forall a, b :: Before(named, a, b) <==> a in named && b in named && FirstBefore(tcs, a, b))
  {
    var mid := ApplyDeltas(Initial, tcs);
    NamedIndexesMembers(mid.order, mid.buffers);
    var named := NamedIndexes(mid.order, mid.buffers);
    forall k
      ensures k in named <==> OccursIn(tcs, k) && NameFragments(tcs, k) != ""
    {
      ApplyDeltasKeys(Initial, tcs, k);
      ApplyDeltasConcatenates(Initial, tcs, k);
    }
    forall a, b
      ensures Before(named, a, b) <==> a in named && b in named && FirstBefore(tcs, a, b)
    {
      NamedIndexesKeepOrder(mid.order, mid.buffers, a, b);
      FirstSeenOrder(tcs, a, b);
    }
  }

  /** The first finish chunk of a stream enqueues its text, the tool calls
      accumulated from every fragment so far, and its finish event. */
  lemma FirstFinishOutput(rs: seq<ParseResult<ChatChunk>>, r: ParseResult<ChatChunk>)
    requires NoFinish(rs)
    requires Finishes(r)
    ensures var mid := ApplyDeltas(Initial, StreamDeltas(rs) + ChunkDeltas(r));
      RunFrom(Initial, rs + [r]).1 ==
        RunFrom(Initial, rs).1 + ChunkText(r) + EmitBuffers(mid.order, mid.buffers)
        + [Finish(MapApertisFinishReason(r.value.choices[0].finishReason), UsageOf(r.value.usage))]
  {
    RunWithoutFinish(Initial, rs);
    var before := RunFrom(Initial, rs);
    assert (rs + [r])[..|rs|] == rs;
    var step := Step(before.0, r);
    assert RunFrom(Initial, rs + [r]) == (step.0, before.1 + step.1);
    ApplyDeltasAppend(Initial, StreamDeltas(rs), ChunkDeltas(r));
    var mid := ApplyDeltas(Initial, StreamDeltas(rs) + ChunkDeltas(r));
    assert mid == ApplyDeltas(before.0, ChunkDeltas(r));
    StepWithFinish(before.0, r);
    var t, e := ChunkText(r), EmitBuffers(mid.order, mid.buffers);
    var f := [Finish(MapApertisFinishReason(r.value.choices[0].finishReason), UsageOf(r.value.usage))];
    assert step.1 == t + e + f;
    AppendAssoc(before.1, t + e, f);
    AppendAssoc(before.1, t, e);
  }

  /** Hence, just before the first finish event of a stream come the calls
      described by AccumulatedCalls and AccumulatedIndexes for all fragments received up to it. */
  lemma FinishEmitsAccumulatedCalls(rs: seq<ParseResult<ChatChunk>>, r: ParseResult<ChatChunk>)
    requires NoFinish(rs)
    requires Finishes(r)
    ensures var tcs := StreamDeltas(rs) + ChunkDeltas(r);
      var mid := ApplyDeltas(Initial, tcs);
      var named := NamedIndexes(mid.order, mid.buffers);
      var out := RunFrom(Initial, rs + [r]).1;
      var start := |out| - 1 - |named|;
      && start >= 0
      && out[|out| - 1] == Finish(MapApertisFinishReason(r.value.choices[0].finishReason), UsageOf(r.value.usage))
      && (forall i :: 0 <= i < |named| ==>
            out[start + i] ==
              ToolCall(mid.buffers[named[i]].id, NameFragments(tcs, named[i]), ArgumentsFragments(tcs, named[i])))
  {
    var tcs := StreamDeltas(rs) + ChunkDeltas(r);
    var f := Finish(MapApertisFinishReason(r.value.choices[0].finishReason), UsageOf(r.value.usage));
    FirstFinishOutput(rs, r);
    var out, pre := RunFrom(Initial, rs + [r]).1, RunFrom(Initial, rs).1 + ChunkText(r);
    CallsBeforeFinish(out, pre, tcs, f);
    var mid := ApplyDeltas(Initial, tcs);
    var named := NamedIndexes(mid.order, mid.buffers);
    assert |out| - 1 - |named| == |pre|;
  }

  /** The same, for any output that ends with the emitted buffers and `f`. */
  lemma CallsBeforeFinish(out: seq<StreamPart>, pre: seq<StreamPart>, tcs: seq<ToolCallDelta>, f: StreamPart)
    requires var mid := ApplyDeltas(Initial, tcs);
      out == pre + EmitBuffers(mid.order, mid.buffers) + [f]
    ensures var mid := ApplyDeltas(Initial, tcs);
      var named := NamedIndexes(mid.order, mid.buffers);
      && |out| == |pre| + |named| + 1
      && out[|out| - 1] == f
      && (forall i :: 0 <= i < |named| ==>
            out[|pre| + i] ==
              ToolCall(mid.buffers[named[i]].id, NameFragments(tcs, named[i]), ArgumentsFragments(tcs, named[i])))
  {
    var mid := ApplyDeltas(Initial, tcs);
    var named := NamedIndexes(mid.order, mid.buffers);
    var calls := AccumulatedCallsSeq(tcs);
    EndsWithBlock(out, pre, calls, f);
  }

  /** The emitted tool calls, as AccumulatedCalls describes them. */
  lemma AccumulatedCallsSeq(tcs: seq<ToolCallDelta>) returns (calls: seq<StreamPart>)
    ensures var mid := ApplyDeltas(Initial, tcs);
      var named := NamedIndexes(mid.order, mid.buffers);
      && calls == EmitBuffers(mid.order, mid.buffers)
      && |calls| == |named|
      && (forall i :: 0 <= i < |named| ==>
            calls[i] == ToolCall(mid.buffers[named[i]].id, NameFragments(tcs, named[i]), ArgumentsFragments(tcs, named[i])))
  {
    var mid := ApplyDeltas(Initial, tcs);
    AccumulatedCalls(tcs);
    calls := EmitBuffers(mid.order, mid.buffers);
  }

  lemma EndsWithBlock(out: seq<StreamPart>, pre: seq<StreamPart>, block: seq<StreamPart>, f: StreamPart)
    requires out == pre + block + [f]
    ensures |out| == |pre| + |block| + 1
    ensures out[|out| - 1] == f
    ensures forall i :: 0 <= i < |block| ==> out[|pre| + i] == block[i]
  {
  }

  /** A stream whose last chunk carries a finish reason ends with that finish
      event: the flush adds nothing, so no tool call is enqueued twice. */
  lemma FlushAfterFinishAddsNothing(rs: seq<ParseResult<ChatChunk>>)
    requires rs != [] && Finishes(rs[|rs| - 1])
    ensures var run := RunFrom(Initial, rs);
      && Flush(run.0) == []
      && StreamOutput(rs) == run.1
      && run.1 != [] && run.1[|run.1| - 1].Finish?
  {
    var prev := RunFrom(Initial, rs[..|rs| - 1]);
    StepWithFinish(prev.0, rs[|rs| - 1]);
  }

  // --------------------------------------------------------- finish counting

  function CountFinish(out: seq<StreamPart>): nat
  {
    if out == [] then 0
    else CountFinish(out[..|out| - 1]) + (if out[|out| - 1].Finish? then 1 else 0)
  }

  function CountFinishing(rs: seq<ParseResult<ChatChunk>>): nat
  {
    if rs == [] then 0
    else CountFinishing(rs[..|rs| - 1]) + (if Finishes(rs[|rs| - 1]) then 1 else 0)
  }

  lemma {:induction false} CountFinishAppend(a: seq<StreamPart>, b: seq<StreamPart>)
    ensures CountFinish(a + b) == CountFinish(a) + CountFinish(b)
    decreases |b|
  {
    if b == [] {
      assert a + b == a;
    } else {
      var b' := b[..|b| - 1];
      assert (a + b)[..|a + b| - 1] == a + b';
      assert (a + b)[|a + b| - 1] == b[|b| - 1];
      CountFinishAppend(a, b');
    }
  }

  lemma {:induction false} CountFinishNone(out: seq<StreamPart>)
    requires forall e :: e in out ==> !e.Finish?
    ensures CountFinish(out) == 0
  {
    if out != [] {
      assert out[|out| - 1] in out;
      assert forall e :: e in out[..|out| - 1] ==> e in out;
      CountFinishNone(out[..|out| - 1]);
    }
  }

  /** A stream enqueues exactly one finish event per chunk that carries a finish
      reason, and the flush contributes none. */
  lemma {:induction false} RunFinishCount(rs: seq<ParseResult<ChatChunk>>)
    ensures CountFinish(RunFrom(Initial, rs).1) == CountFinishing(rs)
  {
    if rs != [] {
      var p := rs[..|rs| - 1];
      var r := rs[|rs| - 1];
      RunFinishCount(p);
      var prev := RunFrom(Initial, p);
      var step := Step(prev.0, r);
      assert RunFrom(Initial, rs).1 == prev.1 + step.1;
      StepFinishCount(prev.0, r);
      CountFinishAppend(prev.1, step.1);
    }
  }

  /** The flush adds no finish event. */
  lemma StreamFinishCount(rs: seq<ParseResult<ChatChunk>>)
    ensures CountFinish(StreamOutput(rs)) == CountFinishing(rs)
  {
    RunFinishCount(rs);
    var run := RunFrom(Initial, rs);
    FlushOnlyNamedToolCalls(run.0);
    CountFinishNone(Flush(run.0));
    CountFinishAppend(run.1, Flush(run.0));
  }

  /** One chunk enqueues one finish event if it carries a finish reason, none otherwise. */
  lemma StepFinishCount(s: ChatState, r: ParseResult<ChatChunk>)
    requires WellFormed(s)
    ensures CountFinish(Step(s, r).1) == if Finishes(r) then 1 else 0
  {
    var out := Step(s, r).1;
    if Finishes(r) {
      StepWithFinish(s, r);
      var init := out[..|out| - 1];
      assert out == init + [out[|out| - 1]];
      CountFinishNone(init);
      CountFinishAppend(init, [out[|out| - 1]]);
      assert CountFinish([out[|out| - 1]]) == 1 by {
        assert [out[|out| - 1]][..0] == [];
      }
    } else {
      StepWithoutFinish(s, r);
      CountFinishNone(out);
    }
  }

  // ------------------------------------------------------------------- text

  /** The concatenation of the text deltas among some parts. */
  function TextOf(out: seq<StreamPart>): string
  {
    if out == [] then ""
    else TextOf(out[..|out| - 1]) + (if out[|out| - 1].TextDelta? then out[|out| - 1].textDelta else "")
  }

  /** The concatenation of the non-empty `delta.content` strings of a stream. */
  function StreamContent(rs: seq<ParseResult<ChatChunk>>): string
  {
    if rs == [] then ""
    else
      var r := rs[|rs| - 1];
      StreamContent(rs[..|rs| - 1]) + (if ChunkText(r) != [] then r.value.choices[0].delta.content.value else "")
  }

  lemma {:induction false} TextOfAppend(a: seq<StreamPart>, b: seq<StreamPart>)
    ensures TextOf(a + b) == TextOf(a) + TextOf(b)
    decreases |b|
  {
    if b == [] {
      assert a + b == a;
    } else {
      var b' := b[..|b| - 1];
      var x := b[|b| - 1];
      assert (a + b)[..|a + b| - 1] == a + b';
      assert (a + b)[|a + b| - 1] == x;
      TextOfAppend(a, b');
      var tx := if x.TextDelta? then x.textDelta else "";
      AppendAssoc(TextOf(a), TextOf(b'), tx);
    }
  }

  lemma {:induction false} TextOfNone(out: seq<StreamPart>)
    requires forall e :: e in out ==> !e.TextDelta?
    ensures TextOf(out) == ""
  {
    if out != [] {
      assert out[|out| - 1] in out;
      assert forall e :: e in out[..|out| - 1] ==> e in out;
      TextOfNone(out[..|out| - 1]);
    }
  }

  lemma TextOfChunkText(r: ParseResult<ChatChunk>)
    ensures TextOf(ChunkText(r)) == (if ChunkText(r) != [] then r.value.choices[0].delta.content.value else "")
  {
    if ChunkText(r) != [] {
      assert ChunkText(r)[..0] == [];
    }
  }

  /** One chunk's parts carry exactly its own text. */
  lemma StepText(s: ChatState, r: ParseResult<ChatChunk>)
    requires WellFormed(s)
    ensures TextOf(Step(s, r).1) == TextOf(ChunkText(r))
  {
    if Finishes(r) {
      StepWithFinish(s, r);
      var mid := ApplyDeltas(s, ChunkDeltas(r));
      var e := EmitBuffers(mid.order, mid.buffers);
      var f := [Finish(MapApertisFinishReason(r.value.choices[0].finishReason), UsageOf(r.value.usage))];
      EmitBuffersOnlyNamedToolCalls(mid.order, mid.buffers);
      TextOfNone(e + f);
      AppendAssoc(ChunkText(r), e, f);
      TextOfAppend(ChunkText(r), e + f);
    } else {
      StepWithoutFinish(s, r);
    }
  }

  /** The text deltas of a whole stream, flush included, spell out the
      concatenation of its non-empty `delta.content` strings, in order. */
  lemma {:induction false} StreamTextIsContent(rs: seq<ParseResult<ChatChunk>>)
    ensures TextOf(RunFrom(Initial, rs).1) == StreamContent(rs)
    ensures TextOf(StreamOutput(rs)) == StreamContent(rs)
  {
    if rs != [] {
      var p := rs[..|rs| - 1];
      var r := rs[|rs| - 1];
      StreamTextIsContent(p);
      var prev := RunFrom(Initial, p);
      TextOfAppend(prev.1, Step(prev.0, r).1);
      StepText(prev.0, r);
      TextOfChunkText(r);
    }
    var run := RunFrom(Initial, rs);
    FlushOnlyNamedToolCalls(run.0);
    TextOfNone(Flush(run.0));
    TextOfAppend(run.1, Flush(run.0));
  }
}
