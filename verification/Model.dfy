/** Provider-neutral messages, requests and stream events (crates/libs/tascarrel-agent/src/model.rs). */
module Model {
  import opened Foundation

  datatype ToolCall = ToolCall(id: string, name: string, arguments: string)

  datatype ModelUsage = ModelUsage(
    inputTokens: U64,
    outputTokens: U64,
    cacheReadInputTokens: Option<U64>,
    reasoningOutputTokens: Option<U64>)
  {
    function TotalTokens(): U64 {
      SatAdd(inputTokens, outputTokens)
    }
  }

  const NO_USAGE := ModelUsage(0, 0, None, None)

  datatype AssistantMessage = AssistantMessage(
    reasoning: string,
    content: string,
    toolCalls: seq<ToolCall>,
    usage: Option<ModelUsage>)

  datatype ModelMessage =
    | System(content: string)
    | User(content: string)
    | ContextSummary(content: string)
    | Assistant(message: AssistantMessage)
    | Tool(toolCallId: string, toolName: string, content: string, isError: bool)

  datatype FinishReason = Stop | ToolCalls | Length

  datatype ModelStreamEvent =
    | ReasoningDelta(delta: string)
    | TextDelta(delta: string)
    | ToolCallStarted(id: string, name: string)
    | ToolCallArgumentsDelta(id: string, delta: string)
    | ToolCallCompleted(id: string)
    | Usage(usage: ModelUsage)
    | Completed(finishReason: FinishReason)

  datatype ModelError = ContextOverflow | Transport | Request | Protocol | ModelCancelled

  datatype ToolDefinition = ToolDefinition(name: string, description: string, inputSchema: string)

  datatype CollectedResponse = CollectedResponse(message: AssistantMessage, finishReason: FinishReason)
}
