/** The non-streaming parts of src/apertis-chat-language-model.ts: the
    response of `doGenerate` (lines 83-99), the request body of
    `buildRequestBody` (lines 215-267) and `filterFunctionTools` (lines
    269-276). */
module ChatModel {
  import opened Wrappers
  import opened Json
  import opened FinishReasons
  import opened OpenAITools
  import opened OpenAIMessages
  import opened ChatSchema
  import opened ChatStream
  import opened RequestBody

  // ------------------------------------------------------------------ tools

  /** A tool of a regular-mode call: a function tool, or a tool of another
      type (provider-defined tools). */
  datatype ModeTool = ModeFunction(tool: FunctionTool) | ModeOther(toolType: string)

  /** The three modes of a call; object-tool mode's own tool is not read by the
      body builder and is omitted. */
  datatype Mode =
    | Regular(tools: Option<seq<ModeTool>>, toolChoice: Option<ToolChoice>)
    | ObjectJson
    | ObjectTool

  /** The function tools among `tools`, in their order. */
  function FunctionToolsIn(tools: seq<ModeTool>): (r: seq<FunctionTool>)
    ensures forall t :: t in r <==> ModeFunction(t) in tools
    ensures |r| <= |tools|
    ensures |r| == |tools| <==> forall i :: 0 <= i < |tools| ==> tools[i].ModeFunction?
  {
    if tools == [] then []
    else
      var init := tools[..|tools| - 1];
      var last := tools[|tools| - 1];
      assert forall x :: x in tools <==> x in init || x == last;
      FunctionToolsIn(init) + (if last.ModeFunction? then [last.tool] else [])
  }

  /** Filtering keeps the tools' order: it distributes over concatenation. */
  lemma {:induction false} FunctionToolsInAppend(a: seq<ModeTool>, b: seq<ModeTool>)
    ensures FunctionToolsIn(a + b) == FunctionToolsIn(a) + FunctionToolsIn(b)
    decreases |b|
  {
    if b == [] {
      assert a + b == a;
    } else {
      var b' := b[..|b| - 1];
      var x := b[|b| - 1];
      assert (a + b)[..|a + b| - 1] == a + b';
      assert (a + b)[|a + b| - 1] == x;
      FunctionToolsInAppend(a, b');
      AppendAssoc(FunctionToolsIn(a), FunctionToolsIn(b'), if x.ModeFunction? then [x.tool] else []);
    }
  }

  /** `filterFunctionTools`: an absent list stays absent (an empty array is
      truthy, so it gives an empty list); otherwise the function tools. */
  function FilterFunctionTools(tools: Option<seq<ModeTool>>): (r: Option<seq<FunctionTool>>)
    ensures r.None? <==> tools.None?
    ensures r.Some? ==> r.value == FunctionToolsIn(tools.value)
  {
    match tools
    case None => None
    case Some(ts) => Some(FunctionToolsIn(ts))
  }

  /** The tools and tool choice the body builder takes from the mode. */
  function ModeTools(mode: Mode): Option<seq<FunctionTool>>
  {
    if mode.Regular? then FilterFunctionTools(mode.tools) else None
  }

  function ModeToolChoice(mode: Mode): Option<ToolChoice>
  {
    if mode.Regular? then mode.toolChoice else None
  }

  /** The body has a `tools` field exactly in regular mode with at least one
      function tool. */
  lemma ToolsFieldCondition(mode: Mode)
    ensures ConvertToOpenAITools(ModeTools(mode)).Some? <==>
      mode.Regular? && mode.tools.Some? && exists t :: ModeFunction(t) in mode.tools.value
  {
    if mode.Regular? && mode.tools.Some? {
      var fs := FunctionToolsIn(mode.tools.value);
      if fs != [] {
        assert fs[0] in fs;
      }
    }
  }

  /** The body has a `tool_choice` field exactly in regular mode with a
      `none`, `auto`, `required` or `tool` choice. */
  lemma ToolChoiceFieldCondition(mode: Mode)
    ensures ConvertToOpenAIToolChoice(ModeToolChoice(mode)).Some? <==>
      mode.Regular? && mode.toolChoice.Some? && !mode.toolChoice.value.ChoiceOther?
  {
  }

  // ------------------------------------------------------------ request body

  /** The call options `buildRequestBody` reads (numbers as reals);
      `sampling.maxTokens` is the `maxTokens` option. */
  datatype ChatCallOptions = ChatCallOptions(prompt: Prompt, mode: Mode, sampling: SamplingOptions)

  /** `ApertisChatSettings`. */
  datatype ChatSettings = ChatSettings(user: Option<string>, logprobs: Option<bool>, topLogprobs: Option<real>)

  /** Every field the chat body can hold. */
  const ChatBodyFields: set<Field> := {
    ModelField, MessagesField, StreamField, StreamOptionsField, TemperatureField, MaxTokensField,
    TopPField, FrequencyPenaltyField, PresencePenaltyField, StopField, SeedField, ToolsField,
    ToolChoiceField, ResponseFormatField, UserField, LogprobsField, TopLogprobsField}

  function ToolsValue(tools: Option<seq<OpenAITool>>): Option<BodyValue>
  {
    if tools.Some? then Some(BTools(tools.value)) else None
  }

  function ToolChoiceValue(choice: Option<OpenAIToolChoice>): Option<BodyValue>
  {
    if choice.Some? then Some(BToolChoice(choice.value)) else None
  }

  /** `response_format: { type: "json_object" }` in object-json mode. */
  function ResponseFormatValue(mode: Mode): Option<BodyValue>
  {
    if mode.ObjectJson? then Some(BResponseFormat("json_object")) else None
  }

  const ModeAndSettingsFields: set<Field> :=
    {ToolsField, ToolChoiceField, ResponseFormatField, UserField, LogprobsField, TopLogprobsField}

  /** The statements from `tools` to `top_logprobs`: the fields the mode and
      the settings contribute. */
  function PutModeAndSettings(body: Body, mode: Mode, settings: ChatSettings): Body
  {
    var b := Put(body, ToolsField, ToolsValue(ConvertToOpenAITools(ModeTools(mode))));
    var b := Put(b, ToolChoiceField, ToolChoiceValue(ConvertToOpenAIToolChoice(ModeToolChoice(mode))));
    var b := Put(b, ResponseFormatField, ResponseFormatValue(mode));
    var b := Put(b, UserField, StringValue(settings.user));
    var b := Put(b, LogprobsField, BoolValue(settings.logprobs));
    Put(b, TopLogprobsField, NumberValue(settings.topLogprobs))
  }

  /** The value a mode or settings field is copied from. */
  function ModeAndSettingsValue(mode: Mode, settings: ChatSettings, f: Field): Option<BodyValue>
    requires f in ModeAndSettingsFields
  {
    match f
    case ToolsField => ToolsValue(ConvertToOpenAITools(ModeTools(mode)))
    case ToolChoiceField => ToolChoiceValue(ConvertToOpenAIToolChoice(ModeToolChoice(mode)))
    case ResponseFormatField => ResponseFormatValue(mode)
    case UserField => StringValue(settings.user)
    case LogprobsField => BoolValue(settings.logprobs)
    case TopLogprobsField => NumberValue(settings.topLogprobs)
  }

  lemma ModeAndSettingsFieldHolds(body: Body, mode: Mode, settings: ChatSettings, f: Field)
    requires f in ModeAndSettingsFields && f !in body
    ensures HoldsIfDefined(PutModeAndSettings(body, mode, settings), f, ModeAndSettingsValue(mode, settings, f))
  {
    match f
    case ToolsField =>
    case ToolChoiceField =>
    case ResponseFormatField =>
    case UserField =>
    case LogprobsField =>
    case TopLogprobsField =>
  }

  lemma ModeAndSettingsKeepOthers(body: Body, mode: Mode, settings: ChatSettings, f: Field)
    requires f !in ModeAndSettingsFields
    ensures f in PutModeAndSettings(body, mode, settings) <==> f in body
    ensures f in body ==> PutModeAndSettings(body, mode, settings)[f] == body[f]
  {
  }

  lemma ModeAndSettingsKeys(body: Body, mode: Mode, settings: ChatSettings)
    ensures PutModeAndSettings(body, mode, settings).Keys <= body.Keys + ModeAndSettingsFields
  {
  }

  /** The body once the messages are converted: model, messages and stream,
      then the optional fields. */
  function ChatBody(modelId: string, settings: ChatSettings, options: ChatCallOptions, stream: bool,
                    messages: seq<OpenAIMessage>): Body
  {
    var b := map[ModelField := BString(modelId), MessagesField := BMessages(messages), StreamField := BBool(stream)];
    var b := Put(b, StreamOptionsField, StreamOptionsValue(stream));
    var b := PutSampling(b, options.sampling);
    PutModeAndSettings(b, options.mode, settings)
  }

  /** `buildRequestBody(options, stream)`: the conversion error of the prompt
      when `convertToOpenAIMessages` throws, the body otherwise. */
  function ChatRequestBody(modelId: string, settings: ChatSettings, options: ChatCallOptions, stream: bool,
                           stringify: Stringify, base64: Base64): Result<Body, ConversionError>
  {
    match ConvertPrompt(options.prompt, stringify, base64)
    case Failure(e) => Failure(e)
    case Success(messages) => Success(ChatBody(modelId, settings, options, stream, messages))
  }

  /** The body holds only chat fields. */
  lemma ChatBodyKeys(modelId: string, settings: ChatSettings, options: ChatCallOptions, stream: bool,
                     messages: seq<OpenAIMessage>)
    ensures ChatBody(modelId, settings, options, stream, messages).Keys <= ChatBodyFields
  {
    var b0 := map[ModelField := BString(modelId), MessagesField := BMessages(messages), StreamField := BBool(stream)];
    var b1 := Put(b0, StreamOptionsField, StreamOptionsValue(stream));
    var b2 := PutSampling(b1, options.sampling);
    SamplingKeys(b1, options.sampling);
    ModeAndSettingsKeys(b2, options.mode, settings);
  }

  const BaseFields: set<Field> := {ModelField, MessagesField, StreamField, StreamOptionsField}

  /** The value a field of the first statements is set from: model, messages
      and stream always, `stream_options: { include_usage: true }` when
      streaming. */
  function BaseValue(modelId: string, stream: bool, messages: seq<OpenAIMessage>, f: Field): Option<BodyValue>
    requires f in BaseFields
  {
    match f
    case ModelField => Some(BString(modelId))
    case MessagesField => Some(BMessages(messages))
    case StreamField => Some(BBool(stream))
    case StreamOptionsField => StreamOptionsValue(stream)
  }

  /** Model, messages and stream are always present with their values, and
      `stream_options` exactly when streaming. */
  lemma ChatBodyBase(modelId: string, settings: ChatSettings, options: ChatCallOptions, stream: bool,
                     messages: seq<OpenAIMessage>, f: Field)
    requires f in BaseFields
    ensures HoldsIfDefined(ChatBody(modelId, settings, options, stream, messages), f, BaseValue(modelId, stream, messages, f))
  {
    var b0 := map[ModelField := BString(modelId), MessagesField := BMessages(messages), StreamField := BBool(stream)];
    var b1 := Put(b0, StreamOptionsField, StreamOptionsValue(stream));
    var b2 := PutSampling(b1, options.sampling);
    SamplingKeepsOthers(b1, options.sampling, f);
    ModeAndSettingsKeepOthers(b2, options.mode, settings, f);
  }

  /** Each sampling field is present exactly when its option is defined. */
  lemma ChatBodySampling(modelId: string, settings: ChatSettings, options: ChatCallOptions, stream: bool,
                         messages: seq<OpenAIMessage>, f: Field)
    requires f in SamplingFields
    ensures HoldsIfDefined(ChatBody(modelId, settings, options, stream, messages), f, SamplingValue(options.sampling, f))
  {
    var b0 := map[ModelField := BString(modelId), MessagesField := BMessages(messages), StreamField := BBool(stream)];
    var b1 := Put(b0, StreamOptionsField, StreamOptionsValue(stream));
    var b2 := PutSampling(b1, options.sampling);
    SamplingFieldHolds(b1, options.sampling, f);
    ModeAndSettingsKeepOthers(b2, options.mode, settings, f);
  }

  /** Each of `tools`, `tool_choice`, `response_format`, `user`, `logprobs`
      and `top_logprobs` is present exactly when its source is defined. */
  lemma ChatBodyModeAndSettings(modelId: string, settings: ChatSettings, options: ChatCallOptions, stream: bool,
                                messages: seq<OpenAIMessage>, f: Field)
    requires f in ModeAndSettingsFields
    ensures HoldsIfDefined(ChatBody(modelId, settings, options, stream, messages), f,
                           ModeAndSettingsValue(options.mode, settings, f))
  {
    var b0 := map[ModelField := BString(modelId), MessagesField := BMessages(messages), StreamField := BBool(stream)];
    var b1 := Put(b0, StreamOptionsField, StreamOptionsValue(stream));
    var b2 := PutSampling(b1, options.sampling);
    assert f !in SamplingFields;
    SamplingKeepsOthers(b1, options.sampling, f);
    ModeAndSettingsFieldHolds(b2, options.mode, settings, f);
  }

  /** The conditions under which the mode puts its fields in the body:
      `tools` in regular mode with at least one function tool, `tool_choice`
      in regular mode with a `none`, `auto`, `required` or `tool` choice,
      `response_format` in object-json mode. */
  lemma ChatBodyModeConditions(modelId: string, settings: ChatSettings, options: ChatCallOptions, stream: bool,
                               messages: seq<OpenAIMessage>)
    ensures var body := ChatBody(modelId, settings, options, stream, messages);
      && (ToolsField in body <==>
            options.mode.Regular? && options.mode.tools.Some? && exists t :: ModeFunction(t) in options.mode.tools.value)
      && (ToolChoiceField in body <==>
            options.mode.Regular? && options.mode.toolChoice.Some? && !options.mode.toolChoice.value.ChoiceOther?)
      && (ResponseFormatField in body <==> options.mode.ObjectJson?)
  {
    ChatBodyModeAndSettings(modelId, settings, options, stream, messages, ToolsField);
    ChatBodyModeAndSettings(modelId, settings, options, stream, messages, ToolChoiceField);
    ChatBodyModeAndSettings(modelId, settings, options, stream, messages, ResponseFormatField);
    ToolsFieldCondition(options.mode);
    ToolChoiceFieldCondition(options.mode);
  }

  /** `buildRequestBody(options, stream)` run statement by statement; it fails
      exactly when the prompt conversion throws. */
  method BuildChatRequestBody(modelId: string, settings: ChatSettings, options: ChatCallOptions, stream: bool,
                              stringify: Stringify, base64: Base64)
    returns (r: Result<Body, ConversionError>)
    ensures r == ChatRequestBody(modelId, settings, options, stream, stringify, base64)
    ensures r.Failure? <==> ConvertPrompt(options.prompt, stringify, base64).Failure?
  {
    var tools := ModeTools(options.mode);
    var toolChoice := ModeToolChoice(options.mode);
    var messages := ConvertToOpenAIMessages(options.prompt, stringify, base64);
    if messages.Failure? {
      return Failure(messages.error);
    }
    var body := map[ModelField := BString(modelId), MessagesField := BMessages(messages.value), StreamField := BBool(stream)];
    body := SetIfDefined(body, StreamOptionsField, StreamOptionsValue(stream));
    body := AddSamplingOptions(body, options.sampling);
    body := SetIfDefined(body, ToolsField, ToolsValue(ConvertToOpenAITools(tools)));
    body := SetIfDefined(body, ToolChoiceField, ToolChoiceValue(ConvertToOpenAIToolChoice(toolChoice)));
    body := SetIfDefined(body, ResponseFormatField, ResponseFormatValue(options.mode));
    body := SetIfDefined(body, UserField, StringValue(settings.user));
    body := SetIfDefined(body, LogprobsField, BoolValue(settings.logprobs));
    body := SetIfDefined(body, TopLogprobsField, NumberValue(settings.topLogprobs));
    r := Success(body);
  }

  // ---------------------------------------------------------------- generate

  datatype GeneratedToolCall = GeneratedToolCall(toolCallType: string, toolCallId: string, toolName: string, args: string)

  datatype ChatGenerateResult = ChatGenerateResult(
    text: Option<string>,
    toolCalls: Option<seq<GeneratedToolCall>>,
    finishReason: FinishReason,
    usage: TokenUsage)

  /** What `doGenerate` returns for a validated response (the raw call record
      is omitted): the first choice's content unchanged (only `null` becomes
      undefined, so an empty string stays), its tool calls one for one with no
      name filtering, the mapped finish reason, and the usage counts (0 when
      absent). */
  function ChatGenerate(response: ChatResponse): (r: Result<ChatGenerateResult, GenerateError>)
    ensures r.Failure? <==> |response.choices| == 0
    ensures r.Success? ==> r.value.text == response.choices[0].message.content
    ensures r.Success? ==> (r.value.toolCalls.None? <==> response.choices[0].message.toolCalls.None?)
    ensures r.Success? && r.value.toolCalls.Some? ==>
      var calls := response.choices[0].message.toolCalls.value;
      && |r.value.toolCalls.value| == |calls|
      && forall i :: 0 <= i < |calls| ==>
           r.value.toolCalls.value[i] == GeneratedToolCall("function", calls[i].id, calls[i].name, calls[i].arguments)
    ensures r.Success? ==> r.value.finishReason == MapApertisFinishReason(response.choices[0].finishReason)
    ensures r.Success? ==> r.value.finishReason != Error && r.value.finishReason != Other
    ensures r.Success? && response.usage.None? ==> r.value.usage == TokenUsage(0, 0)
    ensures r.Success? && response.usage.Some? ==>
      r.value.usage == TokenUsage(response.usage.value.promptTokens, response.usage.value.completionTokens)
  {
    if |response.choices| == 0 then Failure(NoChoice)
    else
      var choice := response.choices[0];
      var toolCalls := match choice.message.toolCalls
        case None => None
        case Some(calls) => Some(seq(|calls|, i requires 0 <= i < |calls| =>
                                   GeneratedToolCall("function", calls[i].id, calls[i].name, calls[i].arguments)));
      Success(ChatGenerateResult(choice.message.content, toolCalls,
                                 MapApertisFinishReason(choice.finishReason), UsageOf(response.usage)))
  }
}
