/** The shapes of src/schemas/chat-response.ts that the chat model reads: the
    streamed chunk and the single-shot response. Fields the model never reads
    (`object`, `created`, `model`, `role`, `type`, `logprobs`) are omitted. */
module ChatSchema {
  import opened Wrappers

  datatype FunctionDelta = FunctionDelta(name: Option<string>, arguments: Option<string>)

  /** One element of `delta.tool_calls`: a fragment of the tool call at `index`. */
  datatype ToolCallDelta = ToolCallDelta(index: int, id: Option<string>, fn: Option<FunctionDelta>)

  datatype Delta = Delta(content: Option<string>, toolCalls: Option<seq<ToolCallDelta>>)

  datatype ChunkChoice = ChunkChoice(index: int, delta: Delta, finishReason: Option<string>)

  datatype Usage = Usage(promptTokens: int, completionTokens: int)

  datatype ChatChunk = ChatChunk(id: string, choices: seq<ChunkChoice>, usage: Option<Usage>)

  datatype ResponseToolCall = ResponseToolCall(id: string, name: string, arguments: string)

  datatype ResponseMessage = ResponseMessage(content: Option<string>, toolCalls: Option<seq<ResponseToolCall>>)

  datatype ResponseChoice = ResponseChoice(index: int, message: ResponseMessage, finishReason: Option<string>)

  datatype ChatResponse = ChatResponse(id: string, choices: seq<ResponseChoice>, usage: Option<Usage>)
}
