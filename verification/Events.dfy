/** The values every component of the server exchanges: stream events and token usage. */
module Events {
  import opened Wrappers

  /** EventType. `Other` stands for any type string that the constants do not name. */
  datatype Kind =
    | Text
    | ToolUse
    | ToolResult
    | ToolResultPart
    | Result
    | Error
    | System
    | NodeStart
    | NodeComplete
    | NodeFailed
    | Progress
    | UserInputRequired
    | Other(name: string)

  /** TokenUsage. The optional cost is a real number: rounding is not the point here. */
  datatype TokenUsage = TokenUsage(
    inputTokens: int,
    outputTokens: int,
    cachedInputTokens: int,
    cacheCreationInputTokens: int,
    reasoningOutputTokens: int,
    totalTokens: int,
    totalCost: Option<real>,
    model: string,
    modelSource: string,
    source: string,
    confidence: string,
    turnID: string,
    callID: string,
    isPartial: bool,
    callsSumMismatch: bool)

  /** StreamEvent. Strings are byte sequences; tool input values are kept as strings. */
  datatype StreamEvent = StreamEvent(
    kind: Kind,
    content: string,
    promptID: string,
    choices: seq<string>,
    toolName: string,
    toolInput: map<string, string>,
    toolCallID: string,
    sessionID: string,
    turnID: string,
    correlationID: string,
    chunkID: string,
    chunkIndex: int,
    chunkTotal: int,
    usage: Option<TokenUsage>,
    retryable: bool)

  /** The zero StreamEvent with a type, as a composite literal leaves the other fields. */
  function Blank(kind: Kind): StreamEvent {
    StreamEvent(kind, "", "", [], "", map[], "", "", "", "", "", 0, 0, None, false)
  }

  predicate IsRetryableError(ev: StreamEvent) {
    ev.kind == Error && ev.retryable
  }

  predicate IsFinalError(ev: StreamEvent) {
    ev.kind == Error && !ev.retryable
  }
}
