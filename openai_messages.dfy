/** src/utils/convert-to-openai-messages.ts: a language-model prompt (system,
    user, assistant and tool messages) as the upstream service's chat messages. */
module OpenAIMessages {
  import opened Wrappers
  import opened Json

  /** An image of a user message: a URL, or raw bytes. */
  datatype ImageData = ImageUrl(href: string) | ImageBytes(bytes: seq<bv8>)

  /** `Buffer.from(bytes).toString("base64")`, left abstract. */
  type Base64 = seq<bv8> -> string

  datatype UserPart =
    | UserText(text: string)
    | UserImage(image: ImageData, mimeType: Option<string>)
    | UserOtherPart(partType: string)    // a part the converter does not support (files, ...)

  datatype AssistantPart =
    | AssistantText(text: string)
    | AssistantToolCall(toolCallId: string, toolName: string, args: Json)
    | AssistantOtherPart(partType: string)

  datatype ToolResultPart = ToolResultPart(toolCallId: string, toolName: string, result: Json)

  datatype PromptMessage =
    | SystemPrompt(content: string)
    | UserPrompt(userParts: seq<UserPart>)
    | AssistantPrompt(assistantParts: seq<AssistantPart>)
    | ToolPrompt(results: seq<ToolResultPart>)

  type Prompt = seq<PromptMessage>

  datatype ContentPart = TextPart(text: string) | ImageUrlPart(url: string)

  datatype OpenAIToolCall = OpenAIToolCall(id: string, callType: string, name: string, arguments: string)

  datatype OpenAIMessage =
    | SystemMessage(content: string)
    | UserMessage(contentParts: seq<ContentPart>)
    | AssistantMessage(textContent: Option<string>, toolCalls: Option<seq<OpenAIToolCall>>)
    | ToolMessage(toolCallId: string, content: string)

  /** The exception thrown for a user part of an unsupported type. */
  datatype ConversionError = UnsupportedUserContentPart(partType: string)

  function ErrorMessage(e: ConversionError): string
  {
    "Unsupported user content part type: " + e.partType
  }

  // ---------------------------------------------------------------- user parts

  /** The URL of an image part: a URL image as its string, any other image as a
      `data:` URL whose media type defaults to image/png. */
  function ImageUrlOf(image: ImageData, mimeType: Option<string>, base64: Base64): (url: string)
    ensures image.ImageUrl? ==> url == image.href
    ensures image.ImageBytes? ==>
      url == "data:" + Coalesce(mimeType, "image/png") + ";base64," + base64(image.bytes)
  {
    match image
    case ImageUrl(href) => href
    case ImageBytes(bytes) => "data:" + Coalesce(mimeType, "image/png") + ";base64," + base64(bytes)
  }

  function ConvertUserPart(part: UserPart, base64: Base64): (r: Result<ContentPart, ConversionError>)
    ensures r.Failure? <==> part.UserOtherPart?
    ensures part.UserText? ==> r == Success(TextPart(part.text))
    ensures part.UserImage? ==> r == Success(ImageUrlPart(ImageUrlOf(part.image, part.mimeType, base64)))
    ensures part.UserOtherPart? ==> r.error.partType == part.partType
  {
    match part
    case UserText(text) => Success(TextPart(text))
    case UserImage(image, mimeType) => Success(ImageUrlPart(ImageUrlOf(image, mimeType, base64)))
    case UserOtherPart(partType) => Failure(UnsupportedUserContentPart(partType))
  }

  /** `message.content.map(...)`: one converted part per part, in order; the
      first unsupported part throws. */
  function ConvertUserParts(parts: seq<UserPart>, base64: Base64): (r: Result<seq<ContentPart>, ConversionError>)
    ensures r.Failure? <==> exists i :: 0 <= i < |parts| && parts[i].UserOtherPart?
    ensures r.Failure? ==> exists i :: 0 <= i < |parts| && parts[i] == UserOtherPart(r.error.partType) &&
                                       forall j :: 0 <= j < i ==> !parts[j].UserOtherPart?
    ensures r.Success? ==> |r.value| == |parts|
    ensures r.Success? ==> forall i :: 0 <= i < |parts| ==> Success(r.value[i]) == ConvertUserPart(parts[i], base64)
  {
    if parts == [] then Success([])
    else
      match ConvertUserPart(parts[0], base64)
      case Failure(e) => Failure(e)
      case Success(p) =>
        match ConvertUserParts(parts[1..], base64)
        case Failure(e) =>
          var i :| 0 <= i < |parts[1..]| && parts[1..][i] == UserOtherPart(e.partType) &&
                   forall j :: 0 <= j < i ==> !parts[1..][j].UserOtherPart?;
          assert parts[i + 1] == parts[1..][i];
          assert forall j :: 1 <= j < i + 1 ==> parts[j] == parts[1..][j - 1];
          Failure(e)
        case Success(ps) =>
          assert forall i :: 1 <= i < |parts| ==> parts[i] == parts[1..][i - 1];
          Success([p] + ps)
  }

  // ----------------------------------------------------------- assistant parts

  /** The `""`-join of the text parts of an assistant message. */
  function AssistantTextOf(parts: seq<AssistantPart>): (text: string)
    ensures text == "" <==> forall i :: 0 <= i < |parts| && parts[i].AssistantText? ==> parts[i].text == ""
  {
    if parts == [] then ""
    else
      var last := parts[|parts| - 1];
      var prefix := AssistantTextOf(parts[..|parts| - 1]);
      assert forall i :: 0 <= i < |parts| - 1 ==> parts[i] == parts[..|parts| - 1][i];
      if last.AssistantText? then prefix + last.text else prefix
  }

  function ConvertToolCallPart(toolCallId: string, toolName: string, args: Json, stringify: Stringify): OpenAIToolCall
  {
    OpenAIToolCall(toolCallId, "function", toolName, StringifyOrEmptyObject(stringify, args))
  }

  /** The tool-call parts of an assistant message, in order: the `filter` of the conversion. */
  function ToolCallPartsOf(parts: seq<AssistantPart>): (r: seq<AssistantPart>)
    ensures forall k :: 0 <= k < |r| ==> r[k].AssistantToolCall?
    ensures forall p :: p in r <==> p in parts && p.AssistantToolCall?
  {
    if parts == [] then []
    else
      var last := parts[|parts| - 1];
      var prefix := ToolCallPartsOf(parts[..|parts| - 1]);
      assert parts == parts[..|parts| - 1] + [last];
      if last.AssistantToolCall? then prefix + [last] else prefix
  }

  /** The tool calls of an assistant message: the `map` over `ToolCallPartsOf`,
      one call per tool-call part, in order. */
  function AssistantToolCalls(parts: seq<AssistantPart>, stringify: Stringify): (calls: seq<OpenAIToolCall>)
    ensures |calls| == 0 <==> forall i :: 0 <= i < |parts| ==> !parts[i].AssistantToolCall?
    ensures |calls| == |ToolCallPartsOf(parts)|
    ensures forall k :: 0 <= k < |calls| ==>
      var tc := ToolCallPartsOf(parts)[k];
      calls[k] == ConvertToolCallPart(tc.toolCallId, tc.toolName, tc.args, stringify)
  {
    if parts == [] then []
    else
      var last := parts[|parts| - 1];
      var prefix := AssistantToolCalls(parts[..|parts| - 1], stringify);
      assert forall i :: 0 <= i < |parts| - 1 ==> parts[i] == parts[..|parts| - 1][i];
      if last.AssistantToolCall? then
        prefix + [ConvertToolCallPart(last.toolCallId, last.toolName, last.args, stringify)]
      else prefix
  }

  /** Each call is the conversion of a tool-call part of the message. */
  lemma AssistantToolCallsFromParts(parts: seq<AssistantPart>, stringify: Stringify)
    ensures var calls := AssistantToolCalls(parts, stringify);
      forall k :: 0 <= k < |calls| ==>
        exists i :: 0 <= i < |parts| && parts[i].AssistantToolCall? &&
          calls[k] == ConvertToolCallPart(parts[i].toolCallId, parts[i].toolName, parts[i].args, stringify)
  {
    var calls := AssistantToolCalls(parts, stringify);
    var tcs := ToolCallPartsOf(parts);
    forall k | 0 <= k < |calls|
      ensures exists i :: (0 <= i < |parts| && parts[i].AssistantToolCall? &&
                           calls[k] == ConvertToolCallPart(parts[i].toolCallId, parts[i].toolName, parts[i].args, stringify))
    {
      assert tcs[k] in tcs;
      var i :| 0 <= i < |parts| && parts[i] == tcs[k];
    }
  }

  /** An assistant message: content is the text, or null when the text is empty;
      the `tool_calls` key is there only when some part is a tool call. */
  function ConvertAssistant(parts: seq<AssistantPart>, stringify: Stringify): (m: OpenAIMessage)
    ensures m.AssistantMessage?
    ensures m.textContent.None? <==> forall i :: 0 <= i < |parts| && parts[i].AssistantText? ==> parts[i].text == ""
    ensures m.textContent.Some? ==> m.textContent.value == AssistantTextOf(parts)
    ensures m.toolCalls.Some? <==> exists i :: 0 <= i < |parts| && parts[i].AssistantToolCall?
    ensures m.toolCalls.Some? ==> m.toolCalls.value == AssistantToolCalls(parts, stringify)
  {
    var text := AssistantTextOf(parts);
    var calls := AssistantToolCalls(parts, stringify);
    AssistantMessage(if text == "" then None else Some(text), if |calls| > 0 then Some(calls) else None)
  }

  // -------------------------------------------------------------- tool results

  /** A string result verbatim; anything else serialised, `"{}"` if that throws. */
  function ToolResultContent(result: Json, stringify: Stringify): (content: string)
    ensures result.JString? ==> content == result.s
    ensures !result.JString? ==> content == StringifyOrEmptyObject(stringify, result)
  {
    if result.JString? then result.s else StringifyOrEmptyObject(stringify, result)
  }

  function ToolMessageOf(r: ToolResultPart, stringify: Stringify): OpenAIMessage
  {
    ToolMessage(r.toolCallId, ToolResultContent(r.result, stringify))
  }

  /** One tool message per result, in order. */
  function ToolMessages(results: seq<ToolResultPart>, stringify: Stringify): (ms: seq<OpenAIMessage>)
    ensures |ms| == |results|
    ensures forall i :: 0 <= i < |results| ==>
      ms[i].ToolMessage? && ms[i].toolCallId == results[i].toolCallId &&
      ms[i].content == ToolResultContent(results[i].result, stringify)
  {
    if results == [] then []
    else
      var prefix := ToolMessages(results[..|results| - 1], stringify);
      assert forall i :: 0 <= i < |results| - 1 ==> results[i] == results[..|results| - 1][i];
      prefix + [ToolMessageOf(results[|results| - 1], stringify)]
  }

  // ------------------------------------------------------------------- prompts

  /** The messages one prompt message becomes. */
  function ConvertMessage(m: PromptMessage, stringify: Stringify, base64: Base64): Result<seq<OpenAIMessage>, ConversionError>
  {
    match m
    case SystemPrompt(content) => Success([SystemMessage(content)])
    case UserPrompt(parts) =>
      (match ConvertUserParts(parts, base64)
       case Failure(e) => Failure(e)
       case Success(ps) => Success([UserMessage(ps)]))
    case AssistantPrompt(parts) => Success([ConvertAssistant(parts, stringify)])
    case ToolPrompt(results) => Success(ToolMessages(results, stringify))
  }

  /** The specification of `convertToOpenAIMessages`: the messages of each prompt
      message, concatenated in prompt order; the first throw aborts. */
  function ConvertPrompt(prompt: Prompt, stringify: Stringify, base64: Base64): Result<seq<OpenAIMessage>, ConversionError>
  {
    if prompt == [] then Success([])
    else
      match ConvertPrompt(prompt[..|prompt| - 1], stringify, base64)
      case Failure(e) => Failure(e)
      case Success(ms) =>
        match ConvertMessage(prompt[|prompt| - 1], stringify, base64)
        case Failure(e) => Failure(e)
        case Success(more) => Success(ms + more)
  }

  /** `convertToOpenAIMessages`: the outer loop pushes the messages of each prompt
      message; the tool branch pushes one message per result. */
  method ConvertToOpenAIMessages(prompt: Prompt, stringify: Stringify, base64: Base64)
    returns (r: Result<seq<OpenAIMessage>, ConversionError>)
    ensures r == ConvertPrompt(prompt, stringify, base64)
  {
    var messages: seq<OpenAIMessage> := [];
    for n := 0 to |prompt|
      invariant ConvertPrompt(prompt[..n], stringify, base64) == Success(messages)
    {
      assert prompt[..n + 1][..n] == prompt[..n];
      match prompt[n]
      case SystemPrompt(content) =>
        messages := messages + [SystemMessage(content)];
      case UserPrompt(parts) =>
        var converted := ConvertUserParts(parts, base64);
        if converted.Failure? {
          ConvertPromptFailureSticks(prompt, n + 1, stringify, base64);
          assert prompt[..|prompt|] == prompt;
          return Failure(converted.error);
        }
        messages := messages + [UserMessage(converted.value)];
      case AssistantPrompt(parts) =>
        messages := messages + [ConvertAssistant(parts, stringify)];
      case ToolPrompt(results) =>
        messages := PushToolMessages(messages, results, stringify);
    }
    assert prompt[..|prompt|] == prompt;
    return Success(messages);
  }

  /** The tool branch's loop: one tool message per result, in order. */
  method PushToolMessages(messages: seq<OpenAIMessage>, results: seq<ToolResultPart>, stringify: Stringify)
    returns (r: seq<OpenAIMessage>)
    ensures r == messages + ToolMessages(results, stringify)
  {
    r := messages;
    for k := 0 to |results|
      invariant r == messages + ToolMessages(results[..k], stringify)
    {
      assert results[..k + 1][..k] == results[..k];
      r := r + [ToolMessage(results[k].toolCallId, ToolResultContent(results[k].result, stringify))];
    }
    assert results[..|results|] == results;
  }

  /** Once a prefix of the prompt fails, every longer prefix fails with the same error. */
  lemma {:induction false} ConvertPromptFailureSticks(prompt: Prompt, n: nat, stringify: Stringify, base64: Base64)
    requires n <= |prompt|
    requires ConvertPrompt(prompt[..n], stringify, base64).Failure?
    ensures ConvertPrompt(prompt, stringify, base64) == ConvertPrompt(prompt[..n], stringify, base64)
    decreases |prompt| - n
  {
    if n < |prompt| {
      assert prompt[..n + 1][..n] == prompt[..n];
      ConvertPromptFailureSticks(prompt, n + 1, stringify, base64);
    } else {
      assert prompt[..n] == prompt;
    }
  }

  // ------------------------------------------------------ properties of prompts

  /** A user message with a part the converter throws on. */
  predicate Unsupported(m: PromptMessage)
  {
    m.UserPrompt? && exists j :: 0 <= j < |m.userParts| && m.userParts[j].UserOtherPart?
  }

  /** How many messages a prompt becomes: one per system, user and assistant
      message, one per result of each tool message. */
  function ExpectedCount(prompt: Prompt): nat
  {
    if prompt == [] then 0
    else
      var last := prompt[|prompt| - 1];
      ExpectedCount(prompt[..|prompt| - 1]) + (if last.ToolPrompt? then |last.results| else 1)
  }

  /** Conversion throws exactly when some user message has an unsupported part;
      otherwise it yields the expected number of messages. */
  lemma {:induction false} ConvertPromptShape(prompt: Prompt, stringify: Stringify, base64: Base64)
    ensures ConvertPrompt(prompt, stringify, base64).Failure? <==>
      exists i :: 0 <= i < |prompt| && Unsupported(prompt[i])
    ensures ConvertPrompt(prompt, stringify, base64).Success? ==>
      |ConvertPrompt(prompt, stringify, base64).value| == ExpectedCount(prompt)
  {
    if prompt != [] {
      var prefix := prompt[..|prompt| - 1];
      ConvertPromptShape(prefix, stringify, base64);
      assert forall i :: 0 <= i < |prompt| - 1 ==> prompt[i] == prefix[i];
    }
  }

  /** Conversion is compositional: the messages of `p + q` are those of `p`
      followed by those of `q`, and a throw in either aborts the whole. */
  lemma {:induction false} ConvertPromptAppend(p: Prompt, q: Prompt, stringify: Stringify, base64: Base64)
    ensures ConvertPrompt(p + q, stringify, base64) ==
      match ConvertPrompt(p, stringify, base64)
      case Failure(e) => Failure(e)
      case Success(a) =>
        match ConvertPrompt(q, stringify, base64)
        case Failure(e) => Failure(e)
        case Success(b) => Success(a + b)
    decreases |q|
  {
    if q == [] {
      assert p + q == p;
      if ConvertPrompt(p, stringify, base64).Success? {
        var a := ConvertPrompt(p, stringify, base64).value;
        assert a + [] == a;
      }
    } else {
      var q' := q[..|q| - 1];
      assert (p + q)[..|p + q| - 1] == p + q';
      assert (p + q)[|p + q| - 1] == q[|q| - 1];
      ConvertPromptAppend(p, q', stringify, base64);
      var last := ConvertMessage(q[|q| - 1], stringify, base64);
      match ConvertPrompt(p, stringify, base64)
      case Failure(_) =>
      case Success(a) =>
        match ConvertPrompt(q', stringify, base64)
        case Failure(_) =>
        case Success(b) =>
          if last.Success? {
            assert a + b + last.value == a + (b + last.value);
          }
    }
  }

  /** A system message becomes one system message with its content verbatim. */
  lemma ConvertSystemMessage(content: string, stringify: Stringify, base64: Base64)
    ensures ConvertPrompt([SystemPrompt(content)], stringify, base64) == Success([SystemMessage(content)])
  {
    var prompt := [SystemPrompt(content)];
    assert prompt[..0] == [];
    assert ConvertPrompt(prompt[..0], stringify, base64) == Success([]);
    assert ConvertMessage(prompt[0], stringify, base64) == Success([SystemMessage(content)]);
    assert [] + [SystemMessage(content)] == [SystemMessage(content)];
  }
}
