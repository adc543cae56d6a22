/** The neutral message types that agent, providers and store exchange. */
module Provider {

  datatype Role = System | User | Assistant | Tool

  datatype ToolCall = ToolCall(id: string, name: string, args: string)

  datatype Message = Message(role: Role, content: string, toolCalls: seq<ToolCall>, toolCallId: string, name: string)

  datatype Usage = Usage(inputTokens: int, outputTokens: int, costCents: real, model: string)

  const NO_USAGE := Usage(0, 0, 0.0, "")

  function TextMessage(role: Role, content: string): Message {
    Message(role, content, [], "", "")
  }
}
