/** The JSON request bodies both language models build: a record from field
    names to values, written as a map keyed by the field. Only the fields and
    value shapes the two `buildRequestBody` methods store are represented. */
module RequestBody {
  import opened Wrappers
  import opened OpenAIMessages
  import opened OpenAITools

  datatype Field =
    | ModelField | MessagesField | PromptField | StreamField | StreamOptionsField
    | TemperatureField | MaxTokensField | TopPField | FrequencyPenaltyField | PresencePenaltyField
    | StopField | SeedField | ToolsField | ToolChoiceField | ResponseFormatField
    | UserField | LogprobsField | TopLogprobsField | EchoField | SuffixField

  /** The field's name in the JSON body. */
  function FieldName(f: Field): string
  {
    match f
    case ModelField => "model"
    case MessagesField => "messages"
    case PromptField => "prompt"
    case StreamField => "stream"
    case StreamOptionsField => "stream_options"
    case TemperatureField => "temperature"
    case MaxTokensField => "max_tokens"
    case TopPField => "top_p"
    case FrequencyPenaltyField => "frequency_penalty"
    case PresencePenaltyField => "presence_penalty"
    case StopField => "stop"
    case SeedField => "seed"
    case ToolsField => "tools"
    case ToolChoiceField => "tool_choice"
    case ResponseFormatField => "response_format"
    case UserField => "user"
    case LogprobsField => "logprobs"
    case TopLogprobsField => "top_logprobs"
    case EchoField => "echo"
    case SuffixField => "suffix"
  }

  /** Distinct fields have distinct JSON names, so a body keyed by field is a
      body keyed by name. */
  lemma FieldNameInjective(f: Field, g: Field)
    ensures FieldName(f) == FieldName(g) <==> f == g
  {
  }

  datatype BodyValue =
    | BString(str: string)
    | BBool(flag: bool)
    | BNumber(num: real)
    | BStrings(strs: seq<string>)
    | BMessages(messages: seq<OpenAIMessage>)
    | BTools(tools: seq<OpenAITool>)
    | BToolChoice(choice: OpenAIToolChoice)
    | BStreamOptions(includeUsage: bool)      // `{ include_usage: ... }`
    | BResponseFormat(formatType: string)     // `{ type: ... }`

  type Body = map<Field, BodyValue>

  /** Field `f` of `body` is present exactly when `v` is defined, and then
      holds it: the effect of `if (v !== undefined) body.f = v`. */
  predicate HoldsIfDefined(body: Body, f: Field, v: Option<BodyValue>)
  {
    (f in body <==> v.Some?) && (v.Some? ==> body[f] == v.value)
  }

  /** JavaScript number, string, boolean and string-array options as body values. */
  function NumberValue(v: Option<real>): Option<BodyValue>
  {
    if v.Some? then Some(BNumber(v.value)) else None
  }

  function StringsValue(v: Option<seq<string>>): Option<BodyValue>
  {
    if v.Some? then Some(BStrings(v.value)) else None
  }

  function StringValue(v: Option<string>): Option<BodyValue>
  {
    if v.Some? then Some(BString(v.value)) else None
  }

  function BoolValue(v: Option<bool>): Option<BodyValue>
  {
    if v.Some? then Some(BBool(v.value)) else None
  }

  /** `stream_options: { include_usage: true }` when streaming. */
  function StreamOptionsValue(stream: bool): Option<BodyValue>
  {
    if stream then Some(BStreamOptions(true)) else None
  }

  /** `if (v !== undefined) body.f = v`: the body with field `f` set when `v`
      is defined, unchanged otherwise. */
  function Put(body: Body, f: Field, v: Option<BodyValue>): Body
  {
    if v.Some? then body[f := v.value] else body
  }

  /** The statement `Put` describes, as the builders run it. */
  method SetIfDefined(body: Body, f: Field, v: Option<BodyValue>) returns (b: Body)
    ensures b == Put(body, f, v)
  {
    b := body;
    if v.Some? {
      b := b[f := v.value];
    }
  }

  /** The sampling options both models copy into the body when defined. The
      chat model takes `maxTokens` from its `maxTokens` option, the completion
      model from `maxOutputTokens`. */
  datatype SamplingOptions = SamplingOptions(
    temperature: Option<real>,
    maxTokens: Option<real>,
    topP: Option<real>,
    frequencyPenalty: Option<real>,
    presencePenalty: Option<real>,
    stopSequences: Option<seq<string>>,
    seed: Option<real>)

  const SamplingFields: set<Field> :=
    {TemperatureField, MaxTokensField, TopPField, FrequencyPenaltyField, PresencePenaltyField, StopField, SeedField}

  /** The run of `if (options.x !== undefined) body.y = options.x` statements
      for the sampling options. (The chat builder sets `temperature` before
      `max_tokens`, the completion builder after; a map does not record the
      order.) */
  function PutSampling(body: Body, o: SamplingOptions): Body
  {
    var b := Put(body, TemperatureField, NumberValue(o.temperature));
    var b := Put(b, MaxTokensField, NumberValue(o.maxTokens));
    var b := Put(b, TopPField, NumberValue(o.topP));
    var b := Put(b, FrequencyPenaltyField, NumberValue(o.frequencyPenalty));
    var b := Put(b, PresencePenaltyField, NumberValue(o.presencePenalty));
    var b := Put(b, StopField, StringsValue(o.stopSequences));
    Put(b, SeedField, NumberValue(o.seed))
  }

  /** The option a sampling field is copied from. */
  function SamplingValue(o: SamplingOptions, f: Field): Option<BodyValue>
    requires f in SamplingFields
  {
    match f
    case TemperatureField => NumberValue(o.temperature)
    case MaxTokensField => NumberValue(o.maxTokens)
    case TopPField => NumberValue(o.topP)
    case FrequencyPenaltyField => NumberValue(o.frequencyPenalty)
    case PresencePenaltyField => NumberValue(o.presencePenalty)
    case StopField => StringsValue(o.stopSequences)
    case SeedField => NumberValue(o.seed)
  }

  /** Over a body without sampling fields, each sampling field is present
      exactly when its option is defined, and then holds the option. */
  lemma SamplingFieldHolds(body: Body, o: SamplingOptions, f: Field)
    requires f in SamplingFields && f !in body
    ensures HoldsIfDefined(PutSampling(body, o), f, SamplingValue(o, f))
  {
    match f
    case TemperatureField =>
    case MaxTokensField =>
    case TopPField =>
    case FrequencyPenaltyField =>
    case PresencePenaltyField =>
    case StopField =>
    case SeedField =>
  }

  /** The sampling options add no field but their own and leave every other
      field as it was. */
  lemma SamplingKeepsOthers(body: Body, o: SamplingOptions, f: Field)
    requires f !in SamplingFields
    ensures f in PutSampling(body, o) <==> f in body
    ensures f in body ==> PutSampling(body, o)[f] == body[f]
  {
  }

  lemma SamplingKeys(body: Body, o: SamplingOptions)
    ensures body.Keys <= PutSampling(body, o).Keys <= body.Keys + SamplingFields
  {
  }

  /** The statements `PutSampling` describes, as the builders run them. */
  method AddSamplingOptions(body: Body, o: SamplingOptions) returns (b: Body)
    ensures b == PutSampling(body, o)
  {
    b := SetIfDefined(body, TemperatureField, NumberValue(o.temperature));
    b := SetIfDefined(b, MaxTokensField, NumberValue(o.maxTokens));
    b := SetIfDefined(b, TopPField, NumberValue(o.topP));
    b := SetIfDefined(b, FrequencyPenaltyField, NumberValue(o.frequencyPenalty));
    b := SetIfDefined(b, PresencePenaltyField, NumberValue(o.presencePenalty));
    b := SetIfDefined(b, StopField, StringsValue(o.stopSequences));
    b := SetIfDefined(b, SeedField, NumberValue(o.seed));
  }
}
