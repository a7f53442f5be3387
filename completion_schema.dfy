/** The shapes of src/schemas/completion-response.ts that the completion
    model reads: the streamed chunk and the single-shot response, which share
    one choice shape. Fields the model never reads (`object`, `created`,
    `model`, `logprobs`) are omitted; a `null` usage of a chunk is read like an
    absent one. */
module CompletionSchema {
  import opened Wrappers

  datatype CompletionChoice = CompletionChoice(text: string, index: int, finishReason: Option<string>)

  datatype CompletionUsage = CompletionUsage(promptTokens: int, completionTokens: int, totalTokens: int)

  datatype CompletionChunk = CompletionChunk(id: string, choices: seq<CompletionChoice>, usage: Option<CompletionUsage>)

  datatype CompletionResponse = CompletionResponse(id: string, choices: seq<CompletionChoice>, usage: Option<CompletionUsage>)
}
