/** The non-streaming parts of src/apertis-completion-language-model.ts: the
    response of `doGenerate` (lines 67-97), the request body of
    `buildRequestBody` (lines 198-231) and the prompt flattening of
    `convertPromptToText` (lines 233-257). */
module CompletionModel {
  import opened Wrappers
  import opened FinishReasons
  import opened CompletionSchema
  import opened CompletionStream
  import opened RequestBody

  // ------------------------------------------------------------------ prompt

  /** A content part of a user or assistant message: text, or a part of any
      other type (file, reasoning, tool call, ...), which is not read. */
  datatype PromptPart = TextPart(text: string) | OtherPart(partType: string)

  /** A message of the call's prompt; the content of a tool message is not
      read and is omitted. */
  datatype PromptMessage =
    | SystemMessage(content: string)
    | UserMessage(parts: seq<PromptPart>)
    | AssistantMessage(parts: seq<PromptPart>)
    | ToolMessage

  type CompletionPrompt = seq<PromptMessage>

  /** The texts of the text parts, in order. */
  function PartTexts(parts: seq<PromptPart>): (r: seq<string>)
    ensures forall t :: t in r <==> TextPart(t) in parts
    ensures |r| <= |parts|
  {
    if parts == [] then []
    else
      var init := parts[..|parts| - 1];
      var last := parts[|parts| - 1];
      assert forall x :: x in parts <==> x in init || x == last;
      PartTexts(init) + (if last.TextPart? then [last.text] else [])
  }

  /** What one message pushes onto `parts`: a system message its content, a
      user or assistant message the texts of its text parts, a tool message
      nothing. */
  function MessageTexts(m: PromptMessage): (r: seq<string>)
    ensures m.ToolMessage? ==> r == []
    ensures forall t :: t in r <==>
      (m.SystemMessage? && t == m.content) || ((m.UserMessage? || m.AssistantMessage?) && TextPart(t) in m.parts)
  {
    match m
    case SystemMessage(content) => [content]
    case UserMessage(parts) => PartTexts(parts)
    case AssistantMessage(parts) => PartTexts(parts)
    case ToolMessage => []
  }

  /** Every message's texts, in prompt order. */
  function PromptTexts(prompt: CompletionPrompt): seq<string>
  {
    if prompt == [] then [] else PromptTexts(prompt[..|prompt| - 1]) + MessageTexts(prompt[|prompt| - 1])
  }

  /** A string is among the prompt's texts exactly when some message
      contributes it. */
  lemma {:induction false} PromptTextsMembers(prompt: CompletionPrompt, t: string)
    ensures t in PromptTexts(prompt) <==> exists i :: 0 <= i < |prompt| && t in MessageTexts(prompt[i])
    decreases |prompt|
  {
    if prompt != [] {
      var init := prompt[..|prompt| - 1];
      var last := prompt[|prompt| - 1];
      PromptTextsMembers(init, t);
      if t in PromptTexts(prompt) {
        if t in PromptTexts(init) {
          var i :| 0 <= i < |init| && t in MessageTexts(init[i]);
          assert prompt[i] == init[i];
        } else {
          assert t in MessageTexts(prompt[|prompt| - 1]);
        }
      } else {
        forall i | 0 <= i < |prompt| ensures t !in MessageTexts(prompt[i]) {
          if i < |init| {
            assert prompt[i] == init[i];
          }
        }
      }
    }
  }

  /** `parts.join(sep)`: the parts with `sep` between neighbours. */
  function Join(parts: seq<string>, sep: string): string
  {
    if parts == [] then ""
    else if |parts| == 1 then parts[0]
    else Join(parts[..|parts| - 1], sep) + sep + parts[|parts| - 1]
  }

  function TotalLength(parts: seq<string>): nat
  {
    if parts == [] then 0 else TotalLength(parts[..|parts| - 1]) + |parts[|parts| - 1]|
  }

  /** The joined text is every part and one separator between each two of
      them, nothing more. */
  lemma {:induction false} JoinLength(parts: seq<string>, sep: string)
    requires parts != []
    ensures |Join(parts, sep)| == TotalLength(parts) + |sep| * (|parts| - 1)
    decreases |parts|
  {
    if |parts| > 1 {
      JoinLength(parts[..|parts| - 1], sep);
    } else {
      assert parts[..0] == [];
    }
  }

  /** Joining two non-empty lists at once is joining each and putting one
      separator between them. */
  lemma {:induction false} JoinAppend(a: seq<string>, b: seq<string>, sep: string)
    requires a != [] && b != []
    ensures Join(a + b, sep) == Join(a, sep) + sep + Join(b, sep)
    decreases |b|
  {
    var ab := a + b;
    var x := b[|b| - 1];
    assert ab[|ab| - 1] == x;
    if |b| == 1 {
      assert ab[..|ab| - 1] == a;
    } else {
      var b' := b[..|b| - 1];
      assert ab[..|ab| - 1] == a + b';
      JoinAppend(a, b', sep);
      calc {
        Join(ab, sep);
        Join(a + b', sep) + sep + x;
        Join(a, sep) + sep + Join(b', sep) + sep + x;
        { AppendAssoc(Join(a, sep) + sep, Join(b', sep), sep + x); }
        Join(a, sep) + sep + (Join(b', sep) + sep + x);
      }
    }
  }

  /** Texts of consecutive prompt pieces line up. */
  lemma {:induction false} PromptTextsAppend(a: CompletionPrompt, b: CompletionPrompt)
    ensures PromptTexts(a + b) == PromptTexts(a) + PromptTexts(b)
    decreases |b|
  {
    if b == [] {
      assert a + b == a;
    } else {
      var b' := b[..|b| - 1];
      assert (a + b)[..|a + b| - 1] == a + b';
      assert (a + b)[|a + b| - 1] == b[|b| - 1];
      PromptTextsAppend(a, b');
      AppendAssoc(PromptTexts(a), PromptTexts(b'), MessageTexts(b[|b| - 1]));
    }
  }

  /** A tool message anywhere in the prompt changes nothing. */
  lemma ToolMessageIgnored(a: CompletionPrompt, b: CompletionPrompt)
    ensures PromptTexts(a + [ToolMessage] + b) == PromptTexts(a + b)
  {
    PromptTextsAppend(a + [ToolMessage], b);
    PromptTextsAppend(a, [ToolMessage]);
    assert [ToolMessage][..0] == [];
    assert PromptTexts([ToolMessage]) == [];
    assert PromptTexts(a) + [] == PromptTexts(a);
    PromptTextsAppend(a, b);
  }

  /** The text of two prompts, each with some text, is the text of the first,
      a blank line, and the text of the second. */
  lemma PromptTextAppend(a: CompletionPrompt, b: CompletionPrompt)
    requires PromptTexts(a) != [] && PromptTexts(b) != []
    ensures Join(PromptTexts(a + b), "\n\n") == Join(PromptTexts(a), "\n\n") + "\n\n" + Join(PromptTexts(b), "\n\n")
  {
    PromptTextsAppend(a, b);
    JoinAppend(PromptTexts(a), PromptTexts(b), "\n\n");
  }

  // -------------------------------------------------- convertPromptToText

  /** `convertPromptToText(prompt)`: the loops push each message's texts onto
      `parts`, which is then joined with blank lines. */
  method ConvertPromptToText(prompt: CompletionPrompt) returns (text: string)
    ensures text == Join(PromptTexts(prompt), "\n\n")
  {
    var parts: seq<string> := [];
    var i := 0;
    while i < |prompt|
      invariant 0 <= i <= |prompt|
      invariant parts == PromptTexts(prompt[..i])
    {
      var message := prompt[i];
      assert prompt[..i + 1][..i] == prompt[..i];
      match message {
        case SystemMessage(content) =>
          parts := parts + [content];
        case UserMessage(ps) =>
          parts := PushTextParts(parts, ps);
        case AssistantMessage(ps) =>
          parts := PushTextParts(parts, ps);
        case ToolMessage =>
          assert parts + [] == parts;
      }
      i := i + 1;
    }
    assert prompt[..|prompt|] == prompt;
    text := Join(parts, "\n\n");
  }

  /** `for (const part of message.content) if (part.type === "text") parts.push(part.text)`. */
  method PushTextParts(parts: seq<string>, ps: seq<PromptPart>) returns (r: seq<string>)
    ensures r == parts + PartTexts(ps)
  {
    r := parts;
    var j := 0;
    while j < |ps|
      invariant 0 <= j <= |ps|
      invariant r == parts + PartTexts(ps[..j])
    {
      assert ps[..j + 1][..j] == ps[..j];
      if ps[j].TextPart? {
        AppendAssoc(parts, PartTexts(ps[..j]), [ps[j].text]);
        r := r + [ps[j].text];
      } else {
        assert PartTexts(ps[..j]) + [] == PartTexts(ps[..j]);
      }
      j := j + 1;
    }
    assert ps[..|ps|] == ps;
  }

  const ScenarioSystem: PromptMessage := SystemMessage("Be brief.")
  const ScenarioUser: PromptMessage := UserMessage([TextPart("Hi"), OtherPart("file")])
  const ScenarioAssistant: PromptMessage := AssistantMessage([TextPart("Hello")])
  /** A prompt with a system message, a user message carrying a file part, a
      tool message and an assistant message. */
  const ScenarioPrompt: CompletionPrompt := [ScenarioSystem, ScenarioUser, ToolMessage, ScenarioAssistant]

  lemma ScenarioMessageTexts()
    ensures MessageTexts(ScenarioUser) == ["Hi"]
    ensures MessageTexts(ScenarioAssistant) == ["Hello"]
  {
    assert [TextPart("Hi"), OtherPart("file")][..1] == [TextPart("Hi")];
    assert [TextPart("Hi")][..0] == [] && [TextPart("Hello")][..0] == [];
  }

  /** The file part and the tool message contribute no text. */
  lemma ScenarioPromptTexts()
    ensures PromptTexts(ScenarioPrompt) == ["Be brief.", "Hi", "Hello"]
  {
    ScenarioMessageTexts();
    var p := ScenarioPrompt;
    assert p[..1][..0] == [];
    assert PromptTexts(p[..1]) == ["Be brief."];
    assert p[..2][..1] == p[..1];
    assert PromptTexts(p[..2]) == ["Be brief.", "Hi"];
    assert p[..3][..2] == p[..2];
    assert PromptTexts(p[..3]) == ["Be brief.", "Hi"];
    assert p[..4][..3] == p[..3] && p[..4] == p;
  }

  lemma ScenarioJoin()
    ensures Join(["Be brief.", "Hi", "Hello"], "\n\n") == "Be brief.\n\nHi\n\nHello"
  {
    var js := ["Be brief.", "Hi", "Hello"];
    assert js[..2] == ["Be brief.", "Hi"] && js[..2][..1] == ["Be brief."];
  }

  /** The texts are joined with blank lines; other parts and tool messages are skipped. */
  lemma PromptScenario()
    ensures Join(PromptTexts(ScenarioPrompt), "\n\n") == "Be brief.\n\nHi\n\nHello"
  {
    ScenarioPromptTexts();
    ScenarioJoin();
  }

  // ------------------------------------------------------------ request body

  /** The call options `buildRequestBody` reads (numbers as reals);
      `sampling.maxTokens` is the `maxOutputTokens` option. */
  datatype CompletionCallOptions = CompletionCallOptions(prompt: CompletionPrompt, sampling: SamplingOptions)

  /** `ApertisCompletionSettings`. */
  datatype CompletionSettings = CompletionSettings(
    echo: Option<bool>, logprobs: Option<real>, suffix: Option<string>, user: Option<string>)

  const CompletionBodyFields: set<Field> := {
    ModelField, PromptField, StreamField, StreamOptionsField, TemperatureField, MaxTokensField,
    TopPField, FrequencyPenaltyField, PresencePenaltyField, StopField, SeedField,
    EchoField, LogprobsField, SuffixField, UserField}

  const SettingsFields: set<Field> := {EchoField, LogprobsField, SuffixField, UserField}

  /** The completion-specific statements, `echo` to `user`. */
  function PutSettings(body: Body, settings: CompletionSettings): Body
  {
    var b := Put(body, EchoField, BoolValue(settings.echo));
    var b := Put(b, LogprobsField, NumberValue(settings.logprobs));
    var b := Put(b, SuffixField, StringValue(settings.suffix));
    Put(b, UserField, StringValue(settings.user))
  }

  /** The setting a completion-specific field is copied from. */
  function SettingsValue(settings: CompletionSettings, f: Field): Option<BodyValue>
    requires f in SettingsFields
  {
    match f
    case EchoField => BoolValue(settings.echo)
    case LogprobsField => NumberValue(settings.logprobs)
    case SuffixField => StringValue(settings.suffix)
    case UserField => StringValue(settings.user)
  }

  lemma SettingsFieldHolds(body: Body, settings: CompletionSettings, f: Field)
    requires f in SettingsFields && f !in body
    ensures HoldsIfDefined(PutSettings(body, settings), f, SettingsValue(settings, f))
  {
    match f
    case EchoField =>
    case LogprobsField =>
    case SuffixField =>
    case UserField =>
  }

  lemma SettingsKeepOthers(body: Body, settings: CompletionSettings, f: Field)
    requires f !in SettingsFields
    ensures f in PutSettings(body, settings) <==> f in body
    ensures f in body ==> PutSettings(body, settings)[f] == body[f]
  {
  }

  lemma SettingsKeys(body: Body, settings: CompletionSettings)
    ensures PutSettings(body, settings).Keys <= body.Keys + SettingsFields
  {
  }

  /** The body for the flattened prompt text. */
  function CompletionBody(modelId: string, settings: CompletionSettings, options: CompletionCallOptions, stream: bool,
                          prompt: string): Body
  {
    var b := map[ModelField := BString(modelId), PromptField := BString(prompt), StreamField := BBool(stream)];
    var b := Put(b, StreamOptionsField, StreamOptionsValue(stream));
    var b := PutSampling(b, options.sampling);
    PutSettings(b, settings)
  }

  /** The body holds only completion fields. */
  lemma CompletionBodyKeys(modelId: string, settings: CompletionSettings, options: CompletionCallOptions, stream: bool,
                           prompt: string)
    ensures CompletionBody(modelId, settings, options, stream, prompt).Keys <= CompletionBodyFields
  {
    var b0 := map[ModelField := BString(modelId), PromptField := BString(prompt), StreamField := BBool(stream)];
    var b1 := Put(b0, StreamOptionsField, StreamOptionsValue(stream));
    var b2 := PutSampling(b1, options.sampling);
    SamplingKeys(b1, options.sampling);
    SettingsKeys(b2, settings);
  }

  const CompletionBaseFields: set<Field> := {ModelField, PromptField, StreamField, StreamOptionsField}

  /** The value a field of the first statements is set from. */
  function CompletionBaseValue(modelId: string, stream: bool, prompt: string, f: Field): Option<BodyValue>
    requires f in CompletionBaseFields
  {
    match f
    case ModelField => Some(BString(modelId))
    case PromptField => Some(BString(prompt))
    case StreamField => Some(BBool(stream))
    case StreamOptionsField => StreamOptionsValue(stream)
  }

  /** Model, prompt and stream are always present with their values, and
      `stream_options` exactly when streaming. */
  lemma CompletionBodyBase(modelId: string, settings: CompletionSettings, options: CompletionCallOptions, stream: bool,
                           prompt: string, f: Field)
    requires f in CompletionBaseFields
    ensures HoldsIfDefined(CompletionBody(modelId, settings, options, stream, prompt), f,
                           CompletionBaseValue(modelId, stream, prompt, f))
  {
    var b0 := map[ModelField := BString(modelId), PromptField := BString(prompt), StreamField := BBool(stream)];
    var b1 := Put(b0, StreamOptionsField, StreamOptionsValue(stream));
    var b2 := PutSampling(b1, options.sampling);
    SamplingKeepsOthers(b1, options.sampling, f);
    SettingsKeepOthers(b2, settings, f);
  }

  /** Each sampling field is present exactly when its option is defined;
      `max_tokens` comes from `maxOutputTokens`. */
  lemma CompletionBodySampling(modelId: string, settings: CompletionSettings, options: CompletionCallOptions, stream: bool,
                               prompt: string, f: Field)
    requires f in SamplingFields
    ensures HoldsIfDefined(CompletionBody(modelId, settings, options, stream, prompt), f, SamplingValue(options.sampling, f))
  {
    var b0 := map[ModelField := BString(modelId), PromptField := BString(prompt), StreamField := BBool(stream)];
    var b1 := Put(b0, StreamOptionsField, StreamOptionsValue(stream));
    var b2 := PutSampling(b1, options.sampling);
    SamplingFieldHolds(b1, options.sampling, f);
    SettingsKeepOthers(b2, settings, f);
  }

  /** Each of `echo`, `logprobs`, `suffix` and `user` is present exactly when
      the setting is defined. */
  lemma CompletionBodySettings(modelId: string, settings: CompletionSettings, options: CompletionCallOptions, stream: bool,
                               prompt: string, f: Field)
    requires f in SettingsFields
    ensures HoldsIfDefined(CompletionBody(modelId, settings, options, stream, prompt), f, SettingsValue(settings, f))
  {
    var b0 := map[ModelField := BString(modelId), PromptField := BString(prompt), StreamField := BBool(stream)];
    var b1 := Put(b0, StreamOptionsField, StreamOptionsValue(stream));
    var b2 := PutSampling(b1, options.sampling);
    assert f !in SamplingFields;
    SamplingKeepsOthers(b1, options.sampling, f);
    SettingsFieldHolds(b2, settings, f);
  }

  /** `buildRequestBody(options, stream)` run statement by statement, with the
      prompt flattened by `convertPromptToText`. */
  method BuildCompletionRequestBody(modelId: string, settings: CompletionSettings, options: CompletionCallOptions,
                                    stream: bool)
    returns (body: Body)
    ensures body == CompletionBody(modelId, settings, options, stream, Join(PromptTexts(options.prompt), "\n\n"))
  {
    var prompt := ConvertPromptToText(options.prompt);
    body := map[ModelField := BString(modelId), PromptField := BString(prompt), StreamField := BBool(stream)];
    body := SetIfDefined(body, StreamOptionsField, StreamOptionsValue(stream));
    body := AddSamplingOptions(body, options.sampling);
    body := SetIfDefined(body, EchoField, BoolValue(settings.echo));
    body := SetIfDefined(body, LogprobsField, NumberValue(settings.logprobs));
    body := SetIfDefined(body, SuffixField, StringValue(settings.suffix));
    body := SetIfDefined(body, UserField, StringValue(settings.user));
  }

  // ---------------------------------------------------------------- generate

  datatype Content = TextContent(text: string)

  /** What `doGenerate` returns for a validated response; the warnings (always
      empty) and the request record are omitted. */
  datatype CompletionGenerateResult = CompletionGenerateResult(
    content: seq<Content>, finishReason: CompletionFinishReason, usage: Totals)

  /** `doGenerate`: one text item exactly when the first choice's text is
      non-empty, the mapped finish reason, and the token totals (0 when the
      usage is absent). */
  function CompletionGenerate(response: CompletionResponse): (r: Result<CompletionGenerateResult, GenerateError>)
    ensures r.Failure? <==> |response.choices| == 0
    ensures r.Success? ==> var text := response.choices[0].text;
      && (text != "" ==> r.value.content == [TextContent(text)])
      && (text == "" ==> r.value.content == [])
    ensures r.Success? ==> r.value.finishReason == MapFinishReason(response.choices[0].finishReason)
    ensures r.Success? && response.usage.None? ==> r.value.usage == Totals(0, 0)
    ensures r.Success? && response.usage.Some? ==>
      r.value.usage == Totals(response.usage.value.promptTokens, response.usage.value.completionTokens)
  {
    if |response.choices| == 0 then Failure(NoChoice)
    else
      var choice := response.choices[0];
      var content := if choice.text != "" then [TextContent(choice.text)] else [];
      Success(CompletionGenerateResult(content, MapFinishReason(choice.finishReason), TotalsOf(response.usage)))
  }
}

/** The single-shot and the streamed completion of the same choice agree. */
module CompletionModelAgreement {
  import opened Wrappers
  import opened FinishReasons
  import opened CompletionSchema
  import opened CompletionStream
  import opened CompletionStreamProperties
  import opened CompletionModel

  function ContentText(content: seq<Content>): string
  {
    if content == [] then "" else ContentText(content[..|content| - 1]) + content[|content| - 1].text
  }

  /** Streaming a response's choices as one chunk gives, in its deltas, the
      text `doGenerate` returns as content, and at most one `text-start`;
      a finishing choice ends in the finish event whose reason `doGenerate`
      reports, followed by the `text-end` of the flush when there is text. */
  lemma GenerateAgreesWithStream(response: CompletionResponse)
    requires |response.choices| > 0
    ensures var r := ParseSuccess(CompletionChunk(response.id, response.choices, response.usage));
      var g := CompletionGenerate(response).value;
      && DeltaText(StreamOutput([r])) == ContentText(g.content)
      && CountStarts(StreamOutput([r])) <= 1
      && (Finishes(r) ==> Finish(g.finishReason, g.usage) in StreamOutput([r]))
  {
    var r := ParseSuccess(CompletionChunk(response.id, response.choices, response.usage));
    var g := CompletionGenerate(response).value;
    assert [r][..0] == [];
    var e: string := "";
    assert e + ChunkText(r) == ChunkText(r);
    assert StreamText([r]) == ChunkText(r);
    StreamSummary([r]);
    if g.content != [] {
      assert g.content[..0] == [];
      assert ContentText(g.content) == e + ChunkText(r);
    }
    if Finishes(r) {
      StepWithFinish(Initial, r);
      var (s1, text) := TextStep(Initial, ChunkText(r));
      var step := text + TextEndOf(s1) + [Finish(g.finishReason, g.usage)];
      var p: seq<CompletionPart> := [];
      assert p + step == step;
      assert RunFrom(Initial, [r]).1 == step;
      assert step[|step| - 1] == Finish(g.finishReason, g.usage);
      assert StreamOutput([r]) == step + Flush(RunFrom(Initial, [r]).0);
      assert StreamOutput([r])[|step| - 1] == Finish(g.finishReason, g.usage);
    }
  }
}
