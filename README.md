# apertis-sdk language models, modelled in Dafny

This project models the core of the Apertis provider for the AI SDK. The provider has two language models:

- a **chat model**, which calls the `/chat/completions` endpoint;
- a **completion model**, which calls the `/completions` endpoint.

Each model turns a call's options into a JSON request body. Each also turns the upstream service's answer into the SDK's vocabulary. The answer comes as one response (`doGenerate`) or as a stream of chunks (`doStream`).

The heart of the project is the two stream normalisers.

- **Chat stream.** This is a per-stream state machine over a `Map` of tool-call buffers. It forwards text deltas immediately. Per index, it concatenates the name and argument fragments of each tool call. On a finish reason, it does three things in order:
  1. emits the buffers that have a name, in the Map's iteration order;
  2. clears the Map;
  3. emits one finish event, last.

  The flush emits whatever named buffers remain, and never a finish event.
- **Completion stream.** Its one piece of state is `textId`. The first text opens a span (`text-start`) with a freshly generated id. Every text is forwarded as a `text-delta` with that id. A finish reason closes the span and emits a finish event. `textId` is never reset, so the flush emits `text-end` again whenever text was ever seen.

Each stream is written twice:

- as pure functions over a state value: `ChatStream.Step`/`Flush` and `CompletionStream.Step`/`Flush`;
- as a class whose fields the transform and the flush update in place: `ChatStreamTransformer` and `CompletionStreamTransformer`.

Each method of a class is proved to do what the functions say. The stream's promises are then proved about the functions. The chat promises are concatenation per index, first-seen order, nameless buffers dropped, finish last, and no tool call repeated by the flush. The completion promises are at most one `text-start`, deltas equal to the chunk texts, one finish event per finishing chunk, and the repeated `text-end`.

Around the streams the project models these pure translators:

- the two finish-reason vocabularies: the five-way `mapApertisFinishReason` and the completion model's three-way `mapFinishReason`;
- `convertToOpenAIMessages`, which turns a prompt into chat messages;
- `convertToOpenAITools` and `convertToOpenAIToolChoice`;
- the completion model's `convertPromptToText`;
- both `buildRequestBody` methods, including `filterFunctionTools`;
- the result mapping of both `doGenerate` methods.

The modules follow the source:

| module | models |
|---|---|
| `Wrappers` | `Option`, `Result` and truthiness. A JavaScript string is truthy when it is non-empty. |
| `Ids` | The injected id generator. The n-th id a stream asks for is `GeneratedId(n)`. |
| `Json` | JSON values standing for the `unknown` tool arguments, tool results and schemas. `JSON.stringify` is a parameter that may throw; base64 is a parameter too. |
| `FinishReasons` | `src/utils/map-finish-reason.ts`, and the completion model's `mapFinishReason`. |
| `OpenAITools` | `src/utils/convert-to-openai-tools.ts`. |
| `OpenAIMessages` | `src/utils/convert-to-openai-messages.ts`. |
| `RequestBody` | The request bodies, as a map from field to value. Also the sampling options both builders copy. |
| `ChatSchema`, `CompletionSchema` | The decoded response and chunk shapes, and the decoder's `ParseResult`. |
| `ChatStream`, `ChatStreamProperties`, `ChatStreamTransform`, `ChatStreamScenarios` | The chat model's `doStream`. |
| `ChatModel` | The chat model's `doGenerate`, `buildRequestBody` and `filterFunctionTools`. |
| `CompletionStream`, `CompletionStreamProperties`, `CompletionStreamTransform`, `CompletionStreamScenario` | The completion model's `doStream`. |
| `CompletionModel`, `CompletionModelAgreement` | The completion model's `doGenerate`, `buildRequestBody`, `convertPromptToText`, and how `doGenerate` agrees with `doStream`. |

In these places a consumer might expect other behaviour than the code has, and the model follows the code:

- **Chat tool-call order.** Tool calls are emitted in the Map's insertion order. That is the order in which each index was first seen, not ascending index. `ChatStreamProperties.ApplyDeltasOrder`, `AccumulatedIndexes` and `ChatStreamScenarios.InterleavedScenario` state this.
- **Chat tool-call id.** A buffer's id is overwritten by every non-empty id that arrives for its index. When a buffer is created, the id is `tc.id ?? generateId()`, so an empty-string id is kept rather than replaced by a generated one.
- **Chat stream events.** The chat stream emits no text span events. It emits only `text-delta`, `tool-call` and `finish`.
- **Completion flush.** The completion flush repeats `text-end` after a finish that already emitted one. `CompletionStreamProperties.TextEndRepeatedAfterFinish` states this.

## Model

| member | source | states |
|---|---|---|
| FinishReasons.UpstreamName | src/utils/map-finish-reason.ts:6-14 | Each recognised tag has an upstream name, and that name is one of the four recognised strings. |
| FinishReasons.MapApertisFinishReason | src/utils/map-finish-reason.ts:3-18 | Total over null, undefined and every string. The result is never `error` or `other`. It is `unknown` exactly when the input is not one of the four recognised strings. Otherwise the tag's upstream name is the input. |
| FinishReasons.MapApertisFinishReasonInverse | src/utils/map-finish-reason.ts:6-14 | Mapping a recognised tag's upstream name gives the tag back. |
| FinishReasons.MapApertisFinishReasonCases | src/utils/map-finish-reason.test.ts:4-32 | The unit-test cases: stop, length, tool-calls and content-filter. Null and an unknown string each give unknown. |
| FinishReasons.MapFinishReason | src/apertis-completion-language-model.ts:259-272 | `raw` is the input, with null read as undefined. The tag is one of stop, length and other. It is stop exactly for "stop" and length exactly for "length". |
| FinishReasons.InlineAgreesWithMapFinishReason | src/apertis-completion-language-model.ts:157-165 | The stream's inline ternary mapping gives the same finish reason as `mapFinishReason`. |
| FinishReasons.CoarseMappingRefinesFiveWay | src/apertis-completion-language-model.ts:259-272 | The three-way mapping equals the five-way mapping with every tag other than stop and length collapsed onto other. |
| Ids.GeneratedIdInjective | src/apertis-chat-language-model.ts:155 | Different calls to the id generator give different ids. |
| Ids.GeneratedId | src/apertis-completion-language-model.ts:134 | A generated id is a non-empty string. |
| Json.StringifyOrEmptyObject | src/utils/convert-to-openai-messages.ts:77-82 | The serialisation when `JSON.stringify` succeeds, `"{}"` when it throws. |
| OpenAITools.ConvertTool | src/utils/convert-to-openai-tools.ts:23-30 | Type `function`. The name, description and parameters are copied. |
| OpenAITools.ConvertToOpenAITools | src/utils/convert-to-openai-tools.ts:18-31 | Undefined exactly for undefined or empty input. Otherwise one `function` entry per tool, in order, reading back as that tool. |
| OpenAITools.ConvertToOpenAIToolsRoundTrip | src/utils/convert-to-openai-tools.ts:23-30 | Converting a non-empty tool list and reading it back gives the original list. |
| OpenAITools.ConvertToOpenAIToolChoice | src/utils/convert-to-openai-tools.ts:33-50 | Undefined exactly for an undefined choice or an unknown type. `none`, `auto` and `required` each map to the same string, and only they do. `tool` maps exactly to `{type: function, function: {name: toolName}}`. |
| OpenAIMessages.ConvertPrompt | src/utils/convert-to-openai-messages.ts:22-121 | Definition; see the lemmas that name it. |
| OpenAIMessages.ConvertMessage | src/utils/convert-to-openai-messages.ts:28-117 | Definition; see the lemmas that name it. |
| OpenAIMessages.ImageUrlOf | src/utils/convert-to-openai-messages.ts:44-47 | A URL image gives its string. Raw bytes give `data:<mime>;base64,<bytes>`, where the mime type defaults to `image/png`. |
| OpenAIMessages.ConvertUserPart | src/utils/convert-to-openai-messages.ts:37-54 | A text part becomes a text part and an image becomes an image URL part. Any other part type throws, naming its type. |
| OpenAIMessages.ConvertUserParts | src/utils/convert-to-openai-messages.ts:33-57 | Throws exactly when some part is unsupported, and the error names the first unsupported part, the one at which `.map` throws. Otherwise one converted part per part, in order. |
| OpenAIMessages.AssistantTextOf | src/utils/convert-to-openai-messages.ts:60-63 | The `""`-join of the text parts. It is empty exactly when every text part is empty. |
| OpenAIMessages.ToolCallPartsOf | src/utils/convert-to-openai-messages.ts:65-75 | The `filter` step: only tool-call parts, and a part is kept exactly when it is a tool call. |
| OpenAIMessages.AssistantToolCalls | src/utils/convert-to-openai-messages.ts:65-88 | The `map` step: one call per tool-call part, in order, as many calls as tool-call parts. Call k has the k-th tool-call part's id and name, type `function`, and the serialised args (`"{}"` when serialisation throws). Empty exactly when there is no tool-call part. |
| OpenAIMessages.AssistantToolCallsFromParts | src/utils/convert-to-openai-messages.ts:65-88 | Every call is the conversion of some tool-call part of the message. |
| OpenAIMessages.ConvertAssistant | src/utils/convert-to-openai-messages.ts:59-95 | Content is null exactly when the joined text is empty; otherwise it is the text. The `tool_calls` key is present exactly when some part is a tool call, and it then holds those calls. |
| OpenAIMessages.ToolResultContent | src/utils/convert-to-openai-messages.ts:100-109 | A string result verbatim. Anything else serialised, `"{}"` when that throws. |
| OpenAIMessages.ToolMessages | src/utils/convert-to-openai-messages.ts:98-116 | One tool message per result, in order, with its `tool_call_id` copied and its content converted. |
| OpenAIMessages.ConvertToOpenAIMessages | src/utils/convert-to-openai-messages.ts:22-121 | The loop over the prompt returns exactly the specification `ConvertPrompt`: each message's messages, concatenated in prompt order; the first throw aborts. |
| OpenAIMessages.PushToolMessages | src/utils/convert-to-openai-messages.ts:99-115 | The tool branch's loop appends exactly `ToolMessages` of the results. |
| OpenAIMessages.ConvertPromptFailureSticks | src/utils/convert-to-openai-messages.ts:27-118 | Once a prefix of the prompt throws, the whole prompt throws the same error. |
| OpenAIMessages.ConvertPromptShape | src/utils/convert-to-openai-messages.ts:27-118 | Conversion throws exactly when some user message has an unsupported part. Otherwise it yields one message per system, user and assistant message, plus one per tool result. |
| OpenAIMessages.ConvertPromptAppend | src/utils/convert-to-openai-messages.ts:27-118 | Conversion is compositional: the messages of `p + q` are those of `p`, then those of `q`. A throw in either aborts. |
| OpenAIMessages.ConvertSystemMessage | src/utils/convert-to-openai-messages.ts:29-31 | A system message becomes one system message with its content verbatim. |
| RequestBody.PutSampling | src/apertis-chat-language-model.ts:241-250 | Definition; see the lemmas that name it. |
| RequestBody.Put | src/apertis-chat-language-model.ts:241-242 | Definition; see the lemmas that name it. |
| RequestBody.FieldNameInjective | src/apertis-chat-language-model.ts:233-264 | Distinct body fields have distinct JSON key names. |
| RequestBody.SetIfDefined | src/apertis-chat-language-model.ts:241-242 | One `if (v !== undefined) body.f = v` statement sets the field exactly as `Put` describes. |
| RequestBody.AddSamplingOptions | src/apertis-chat-language-model.ts:241-250 | The run of sampling statements gives exactly `PutSampling`. |
| RequestBody.SamplingFieldHolds | src/apertis-chat-language-model.ts:241-250 | Each sampling key is present exactly when its option is defined, and then holds the option. |
| RequestBody.SamplingKeepsOthers | src/apertis-chat-language-model.ts:241-250 | The sampling statements neither add nor change any other field. |
| RequestBody.SamplingKeys | src/apertis-chat-language-model.ts:241-250 | The sampling statements only add sampling keys and remove none. |
| ChatModel.ChatBody | src/apertis-chat-language-model.ts:233-266 | Definition; see the lemmas that name it. |
| ChatModel.FunctionToolsIn | src/apertis-chat-language-model.ts:273-275 | Exactly the function tools are kept, so the list is no longer. It is as long exactly when every tool is a function tool. |
| ChatModel.FunctionToolsInAppend | src/apertis-chat-language-model.ts:273-275 | The filter keeps order: it distributes over concatenation. |
| ChatModel.FilterFunctionTools | src/apertis-chat-language-model.ts:269-276 | Undefined exactly for undefined input. An empty array gives an empty list. Otherwise the function tools. |
| ChatModel.ToolsFieldCondition | src/apertis-chat-language-model.ts:220-253 | The converted tools are defined exactly in regular mode with at least one function tool. |
| ChatModel.ToolChoiceFieldCondition | src/apertis-chat-language-model.ts:224-257 | The converted choice is defined exactly in regular mode with a `none`, `auto`, `required` or `tool` choice. |
| ChatModel.ModeAndSettingsFieldHolds | src/apertis-chat-language-model.ts:252-264 | Each of `tools`, `tool_choice`, `response_format`, `user`, `logprobs` and `top_logprobs` is present exactly when its source is defined, and then holds it. |
| ChatModel.ModeAndSettingsKeepOthers | src/apertis-chat-language-model.ts:252-264 | Those statements neither add nor change any other field. |
| ChatModel.ModeAndSettingsKeys | src/apertis-chat-language-model.ts:252-264 | Those statements only add their own keys. |
| ChatModel.ChatBodyKeys | src/apertis-chat-language-model.ts:233-264 | The chat body holds only chat keys. |
| ChatModel.ChatBodyBase | src/apertis-chat-language-model.ts:233-240 | `model`, `messages` and `stream` are always present with their values. `stream_options: {include_usage: true}` is present exactly when streaming. |
| ChatModel.ChatBodySampling | src/apertis-chat-language-model.ts:241-250 | In the chat body, each sampling key is present exactly when its option is defined. `max_tokens` comes from `maxTokens`. |
| ChatModel.ChatBodyModeAndSettings | src/apertis-chat-language-model.ts:252-264 | In the chat body, each mode and settings key is present exactly when its source is defined. |
| ChatModel.ChatBodyModeConditions | src/apertis-chat-language-model.ts:220-259 | `tools` is present exactly in regular mode with a function tool. `tool_choice` is present exactly in regular mode with a known choice. `response_format` is present exactly in object-json mode. |
| ChatModel.BuildChatRequestBody | src/apertis-chat-language-model.ts:215-267 | The statement-by-statement builder gives the chat body. It fails exactly when message conversion throws. |
| ChatModel.ChatGenerate | src/apertis-chat-language-model.ts:83-97 | Fails exactly when there is no choice; see "## Left out". Otherwise: the content unchanged, with only null made undefined; the tool calls one for one and in order, with no name filter; the mapped finish reason, never error or other; and the usage counts, 0 when absent. |
| ChatStream.Flush | src/apertis-chat-language-model.ts:193-205 | Definition; see the lemmas that name it. |
| ChatStream.EmitBuffers | src/apertis-chat-language-model.ts:169-179 | Definition of the tool-call events for the named buffers, in the Map's order; see the lemmas that name it. |
| ChatStream.ApplyDelta | src/apertis-chat-language-model.ts:152-162 | Definition of one fragment applied to the Map (the buffer created on first sight, then merged); see the lemmas that name it. |
| ChatStream.Accumulate | src/apertis-chat-language-model.ts:159-162 | Definition of one fragment merged into an existing buffer (id replaced when non-empty, name and arguments appended when non-empty); see the lemmas that name it. |
| ChatStream.ApplyDeltas | src/apertis-chat-language-model.ts:150-164 | The fragment loop keeps the Map well formed: every key is listed once, in insertion order. |
| ChatStream.Step | src/apertis-chat-language-model.ts:130-192 | One `transform` call keeps the Map well formed. |
| ChatStreamProperties.ApplyDeltaAt | src/apertis-chat-language-model.ts:151-163 | One fragment creates its index's buffer when missing, as `tc.id ?? generateId()`, and accumulates into it. Other buffers are untouched. The generator runs only for a new index without an id. |
| ChatStreamProperties.ApplyDeltasKeys | src/apertis-chat-language-model.ts:150-164 | After the fragments, there is a buffer exactly for the old keys and the fragments' indexes. Untouched indexes keep their buffers. |
| ChatStreamProperties.ApplyDeltaConcatenates | src/apertis-chat-language-model.ts:160-162 | One fragment appends its name and arguments to its own index only. |
| ChatStreamProperties.ApplyDeltasConcatenates | src/apertis-chat-language-model.ts:150-164 | For every index, the name and arguments are the in-order concatenation of all its fragments. |
| ChatStreamProperties.ApplyDeltasId | src/apertis-chat-language-model.ts:155-159 | The id is the most recent non-empty id for the index. Without one, the buffer keeps the id it had. |
| ChatStreamProperties.ApplyDeltasCreatedId | src/apertis-chat-language-model.ts:152-157 | A new buffer that never receives a non-empty id keeps its creation id. That id is "" or an id generated during these fragments. |
| ChatStreamProperties.ApplyDeltasPrefix | src/apertis-chat-language-model.ts:152-157 | Keys already in the Map keep their places; new keys are only appended. |
| ChatStreamProperties.ApplyDeltasOrder | src/apertis-chat-language-model.ts:150-164 | Iteration order, in both directions: old keys keep their order, new keys come after old ones, and new keys follow their first arrival. |
| ChatStreamProperties.FirstSeenOrder | src/apertis-chat-language-model.ts:150-164 | From an empty Map, `a` iterates before `b` exactly when both arrived and `a` arrived first. |
| ChatStreamProperties.EmitBuffersIsNamedInOrder | src/apertis-chat-language-model.ts:169-179 | Emission gives one tool call per named buffer, in iteration order, with that buffer's id, name and arguments. |
| ChatStreamProperties.NamedIndexesMembers | src/apertis-chat-language-model.ts:169-170 | An index is emitted exactly when its buffer's name is non-empty. |
| ChatStreamProperties.NamedIndexesKeepOrder | src/apertis-chat-language-model.ts:169-179 | Dropping nameless buffers keeps the relative order of the rest. |
| ChatStreamProperties.EmitBuffersOnlyNamedToolCalls | src/apertis-chat-language-model.ts:169-179 | Emission yields only tool calls, each with a non-empty name. |
| ChatStreamProperties.StepSkips | src/apertis-chat-language-model.ts:131-139 | A failed parse result, or a chunk with no first choice, enqueues nothing and leaves the Map unchanged. |
| ChatStreamProperties.StepWithoutFinish | src/apertis-chat-language-model.ts:141-164 | Without a finish reason, a chunk enqueues only its text delta, if any. Its fragments only update the buffers. |
| ChatStreamProperties.StepWithFinish | src/apertis-chat-language-model.ts:141-191 | With a finish reason, a chunk enqueues its text, then the named buffers, then one finish event, last. The finish event carries the mapped reason and the usage (0 when absent). The Map ends empty, so a flush adds nothing. |
| ChatStreamProperties.FlushOnlyNamedToolCalls | src/apertis-chat-language-model.ts:193-206 | The flush enqueues only named tool calls, and never a finish event. |
| ChatStreamProperties.RunWithoutFinish | src/apertis-chat-language-model.ts:130-164 | Until a finish reason, the chunks only fold all their fragments into the Map and enqueue only text. |
| ChatStreamProperties.AccumulatedCalls | src/apertis-chat-language-model.ts:150-179 | After fragments from an empty Map, emission gives one call per named index, carrying the concatenated name and arguments. |
| ChatStreamProperties.AccumulatedIndexes | src/apertis-chat-language-model.ts:150-179 | The emitted indexes are exactly those with some non-empty name fragment, in order of first arrival. |
| ChatStreamProperties.FirstFinishOutput | src/apertis-chat-language-model.ts:130-190 | The first finishing chunk enqueues its text, the calls for every fragment so far, and its finish event. |
| ChatStreamProperties.FinishEmitsAccumulatedCalls | src/apertis-chat-language-model.ts:150-190 | Just before a stream's first finish event come the accumulated tool calls of every fragment so far. |
| ChatStreamProperties.FlushAfterFinishAddsNothing | src/apertis-chat-language-model.ts:181-206 | When the last chunk finishes, the flush adds nothing: no tool call is enqueued twice, and the output ends with the finish event. |
| ChatStreamProperties.StepFinishCount | src/apertis-chat-language-model.ts:167-191 | One chunk enqueues one finish event if it has a finish reason, none otherwise. |
| ChatStreamProperties.RunFinishCount | src/apertis-chat-language-model.ts:130-192 | A sequence of chunks enqueues one finish event per finishing chunk. |
| ChatStreamProperties.StreamFinishCount | src/apertis-chat-language-model.ts:130-206 | The same for a whole stream with its flush: the flush adds no finish event. |
| ChatStreamProperties.StepText | src/apertis-chat-language-model.ts:141-147 | One chunk's parts carry exactly its own content as text. |
| ChatStreamProperties.StreamTextIsContent | src/apertis-chat-language-model.ts:141-147 | A stream's text deltas spell out its non-empty contents verbatim, in order. |
| ChatStreamTransform.ChatStreamTransformer.constructor | src/apertis-chat-language-model.ts:121-124 | A new Map, empty, and nothing enqueued. |
| ChatStreamTransform.ChatStreamTransformer.AddFragment | src/apertis-chat-language-model.ts:152-162 | One iteration of the fragment loop, in place, is `ApplyDelta`. It enqueues nothing. |
| ChatStreamTransform.ChatStreamTransformer.AddFragments | src/apertis-chat-language-model.ts:150-164 | The fragment loop, in place, is `ApplyDeltas`. It enqueues nothing. |
| ChatStreamTransform.UpdateBuffer | src/apertis-chat-language-model.ts:159-162 | The three conditional updates are `Accumulate`. |
| ChatStreamTransform.ChatStreamTransformer.EnqueueNamedBuffers | src/apertis-chat-language-model.ts:169-179 | The loop over the Map enqueues `EmitBuffers` of the Map. |
| ChatStreamTransform.ChatStreamTransformer.FinishStream | src/apertis-chat-language-model.ts:167-190 | Enqueues the named buffers and then the finish event. The Map ends empty and the id counter is unchanged. |
| ChatStreamTransform.ChatStreamTransformer.TextAndFragments | src/apertis-chat-language-model.ts:141-164 | Enqueues the text delta when the content is non-empty, then folds the fragments. |
| ChatStreamTransform.ChatStreamTransformer.Transform | src/apertis-chat-language-model.ts:130-192 | `transform`, in place, ends in `Step`'s state and enqueues `Step`'s parts. |
| ChatStreamTransform.ChatStreamTransformer.Flush | src/apertis-chat-language-model.ts:193-206 | `flush` enqueues `ChatStream.Flush` of the state. |
| ChatStreamTransform.RunStream | src/apertis-chat-language-model.ts:121-207 | A fresh transformer fed a whole stream and flushed enqueues exactly `StreamOutput`. |
| ChatStreamScenarios.GetTimeScenario | src/apertis-chat-language-model.ts:150-190 | Fragments "get_", "time" and "{}" for index 0, then "stop", give one `get_time` call, then a finish of stop with zero usage. |
| ChatStreamScenarios.InterleavedScenario | src/apertis-chat-language-model.ts:150-190 | Index 1 first seen before index 0: index 1's call is emitted first. |
| ChatStreamScenarios.AbruptEndScenario | src/apertis-chat-language-model.ts:150-206 | A stream without a finish reason: the flush emits the named call with the generated id. The nameless buffer is dropped, and there is no finish event. |
| CompletionModel.CompletionBody | src/apertis-completion-language-model.ts:204-230 | Definition; see the lemmas that name it. |
| CompletionModel.Join | src/apertis-completion-language-model.ts:256 | Definition; see the lemmas that name it. |
| CompletionModel.PromptTexts | src/apertis-completion-language-model.ts:236-254 | Definition; see the lemmas that name it. |
| CompletionModel.PartTexts | src/apertis-completion-language-model.ts:242-246 | Exactly the texts of the text parts. |
| CompletionModel.MessageTexts | src/apertis-completion-language-model.ts:238-253 | A system message gives its content; a user or assistant message gives its text parts; a tool message gives nothing. |
| CompletionModel.PromptTextsMembers | src/apertis-completion-language-model.ts:238-254 | A string is among the prompt's texts exactly when some message contributes it. |
| CompletionModel.JoinLength | src/apertis-completion-language-model.ts:256 | The joined text is every part plus one separator between each two parts. |
| CompletionModel.JoinAppend | src/apertis-completion-language-model.ts:256 | Joining two non-empty lists is joining each with one separator between them. |
| CompletionModel.PromptTextsAppend | src/apertis-completion-language-model.ts:238-254 | The texts of consecutive prompt pieces concatenate. |
| CompletionModel.ToolMessageIgnored | src/apertis-completion-language-model.ts:238-254 | A tool message anywhere in the prompt contributes nothing. |
| CompletionModel.PromptTextAppend | src/apertis-completion-language-model.ts:236-256 | The text of two prompts that each have text is the first's text, a blank line, then the second's. |
| CompletionModel.ConvertPromptToText | src/apertis-completion-language-model.ts:233-257 | The loops return the `"\n\n"`-join of the prompt's texts, in prompt order. |
| CompletionModel.PushTextParts | src/apertis-completion-language-model.ts:242-246 | The inner loop appends exactly the texts of the text parts. |
| CompletionModel.PromptScenario | src/apertis-completion-language-model.ts:233-257 | System, user (with a file part), tool and assistant messages give "Be brief.\n\nHi\n\nHello". |
| CompletionModel.SettingsFieldHolds | src/apertis-completion-language-model.ts:223-228 | Each of `echo`, `logprobs`, `suffix` and `user` is present exactly when its setting is defined, and then holds it. |
| CompletionModel.SettingsKeepOthers | src/apertis-completion-language-model.ts:223-228 | The settings statements neither add nor change any other field. |
| CompletionModel.SettingsKeys | src/apertis-completion-language-model.ts:223-228 | The settings statements only add their own keys. |
| CompletionModel.CompletionBodyKeys | src/apertis-completion-language-model.ts:204-228 | The completion body holds only completion keys. |
| CompletionModel.CompletionBodyBase | src/apertis-completion-language-model.ts:204-210 | `model`, `prompt` and `stream` are always present. `stream_options` is present exactly when streaming. |
| CompletionModel.CompletionBodySampling | src/apertis-completion-language-model.ts:211-221 | Each sampling key is present exactly when its option is defined. `max_tokens` is present exactly when `maxOutputTokens` is defined. |
| CompletionModel.CompletionBodySettings | src/apertis-completion-language-model.ts:223-228 | In the completion body, each settings key is present exactly when its setting is defined. |
| CompletionModel.BuildCompletionRequestBody | src/apertis-completion-language-model.ts:198-231 | The statement-by-statement builder gives the completion body for the flattened prompt. |
| CompletionModel.CompletionGenerate | src/apertis-completion-language-model.ts:67-96 | Fails exactly when there is no choice; see "## Left out". Otherwise: one text item exactly when the text is non-empty, else none; the `mapFinishReason` result; and the token totals, 0 when absent. |
| CompletionModelAgreement.GenerateAgreesWithStream | src/apertis-completion-language-model.ts:67-190 | Streaming the same choices as one chunk gives the `doGenerate` text in its deltas and at most one `text-start`. A finishing choice yields the finish event `doGenerate` reports. |
| CompletionStream.Flush | src/apertis-completion-language-model.ts:182-189 | Definition; see the lemmas that name it. |
| CompletionStream.Step | src/apertis-completion-language-model.ts:122-181 | Definition; see the lemmas that name it. |
| CompletionStream.TextStep | src/apertis-completion-language-model.ts:132-145 | Definition; see the lemmas that name it. |
| CompletionStream.InlineFinishReason | src/apertis-completion-language-model.ts:157-165 | Definition; see the lemmas that name it. |
| CompletionStreamProperties.StepSkips | src/apertis-completion-language-model.ts:123-130 | A failed parse result, or a chunk with no choice, enqueues nothing and leaves `textId` alone. |
| CompletionStreamProperties.StepWithoutFinish | src/apertis-completion-language-model.ts:132-145 | A chunk without a finish reason enqueues only its text parts. |
| CompletionStreamProperties.StepWithFinish | src/apertis-completion-language-model.ts:132-180 | A finishing chunk enqueues its text parts, then `text-end` exactly when `textId` is set, then one finish event. The event carries the `mapFinishReason` result and totals that default to 0. |
| CompletionStreamProperties.TextStepCounts | src/apertis-completion-language-model.ts:132-145 | The text branch starts a span only on the first text. Its delta is the text verbatim. |
| CompletionStreamProperties.FinishCounts | src/apertis-completion-language-model.ts:147-180 | The finish branch adds one finish event, no start and no text. |
| CompletionStreamProperties.StepCounts | src/apertis-completion-language-model.ts:122-181 | One chunk: a `text-start` only for the first text, one finish event exactly when it finishes, and its text verbatim. |
| CompletionStreamProperties.StepStart | src/apertis-completion-language-model.ts:133-139 | Within a chunk, a `text-start` can only be the first part, and only before any text was seen. |
| CompletionStreamProperties.RunState | src/apertis-completion-language-model.ts:116-145 | Before any text, the state is initial and only finish events were enqueued. After it, `textId` is the first generated id, and the generator ran exactly once. |
| CompletionStreamProperties.RunIds | src/apertis-completion-language-model.ts:132-153 | Every text part of a stream carries the same id, the first generated one. |
| CompletionStreamProperties.RunStarts | src/apertis-completion-language-model.ts:132-145 | One `text-start` if the stream has text, none otherwise. Only finish events come before it. |
| CompletionStreamProperties.RunCounts | src/apertis-completion-language-model.ts:122-181 | The deltas reproduce the chunk texts, one finish event per finishing chunk. |
| CompletionStreamProperties.FlushEndsText | src/apertis-completion-language-model.ts:182-189 | The flush emits `text-end` exactly when the stream ever had text, whatever finish came before. It never emits a finish event. |
| CompletionStreamProperties.StreamSummary | src/apertis-completion-language-model.ts:116-190 | A whole stream with its flush: one finish event per finishing chunk, the texts verbatim, at most one `text-start`. |
| CompletionStreamProperties.TextEndRepeatedAfterFinish | src/apertis-completion-language-model.ts:147-189 | When a stream with text ends on a finishing chunk, the last three parts are `text-end`, the finish event, and `text-end` again. |
| CompletionStreamScenario.HelloScenario | src/apertis-completion-language-model.ts:116-190 | "Hel" then "lo" with "stop" gives: one start, two deltas with the same id, `text-end`, finish of stop with the usage, and `text-end` again. |
| CompletionStreamTransform.CompletionStreamTransformer.constructor | src/apertis-completion-language-model.ts:116 | `textId` is null and nothing is enqueued. |
| CompletionStreamTransform.CompletionStreamTransformer.Transform | src/apertis-completion-language-model.ts:122-181 | `transform`, in place, ends in `Step`'s state and enqueues `Step`'s parts. |
| CompletionStreamTransform.CompletionStreamTransformer.Flush | src/apertis-completion-language-model.ts:182-189 | `flush` enqueues `CompletionStream.Flush` of the state. |
| CompletionStreamTransform.RunStream | src/apertis-completion-language-model.ts:116-190 | A fresh transformer fed a whole stream and flushed enqueues exactly `StreamOutput`. |

## Left out

- HTTP is not modelled: `postJsonToApi`, fetch, headers, abort signals and the response handlers. The server-sent-event decoding is not modelled either. The streams start from the decoder's output, a `ParseResult` of an already decoded chunk.
- The asynchronous `TransformStream` and `ReadableStream.pipeThrough` are not modelled. A stream is the sequence of `transform` calls followed by one `flush`, which is how the stream calls them.
- `generateId` of the provider utilities is not modelled. It is an injected counter: the n-th id is `GeneratedId(n)`. The model relies only on ids being non-empty and pairwise distinct.
- `JSON.stringify`, `URL.toString` and base64 encoding are not modelled. They are function parameters: `Json.Stringify` returns `None` for a throw, and `OpenAIMessages.Base64`. An image URL is its string.
- Zod validation in `src/schemas/chat-response.ts` and `src/schemas/completion-response.ts` is not modelled. The model keeps only the shapes the code reads.
- `rawCall`, `request`, `warnings` and `providerMetadata` are not modelled: they are records of the call that the code returns untouched. The completion model's always-empty warnings are omitted too.
- JavaScript numbers (sampling options, token counts) are not modelled as floating point. They are reals or integers, and no arithmetic is done on them.
- RequestBody.PutSampling: the request body is a map keyed by field, so JSON key order is not modelled. The chat builder sets `temperature` before `max_tokens`; the completion builder does the opposite.
- ChatStream.ToolCallEvent: the constant field `toolCallType: "function"` of the chat stream's tool-call parts is omitted.
- CompletionStream.TotalsOf: usage keeps only the input and output totals. The cache, text and reasoning counts, always undefined, are omitted.
- ChatModel.Mode: object-tool mode carries its tool in the source. The body builder never reads it, so it is omitted.
- Wrappers.Option: null and undefined are one `None`. The code treats them alike where it reads them with `??` or truthiness. Where it tests `!== undefined`, the value is a call option or a setting whose type is `T | undefined` (optional fields in src/apertis-chat-settings.ts:41-52 and src/apertis-completion-settings.ts:5-20), so null does not reach those tests.
- Json.Stringify: values that `JSON.stringify` maps to `undefined` rather than to a string (undefined itself, functions, symbols) are not represented. Tool-call args and tool results are JSON values, so an absent args or result, which the source would send as an undefined `arguments` or `content`, is not modelled.
- ChatModel.ChatGenerate: a response without choices makes the source fail on `choice.message` with a TypeError. It is modelled as `Failure(NoChoice)`.
- CompletionModel.CompletionGenerate: a response without choices is modelled the same way, as `Failure(NoChoice)`.
- The content of a tool message is not modelled in the completion prompt, because `convertPromptToText` never reads it.
- The provider factory, the embedding model and the error handler are not part of this model. They only select URLs and headers, or they are separate endpoints. The settings files contribute only the types of the settings the builders copy.
