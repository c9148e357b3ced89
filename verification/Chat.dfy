/** Chat messages and requests as they travel to and from a model. */
module Chat {
  import opened Wrappers

  /** Tool-call arguments: a JSON text a model sent, or the rendering of string parameters as a JSON object. */
  datatype Arguments = Text(text: string) | Rendered(parameters: map<string, string>)

  datatype ToolCall = ToolCall(id: string, kind: string, name: string, arguments: Arguments)

  datatype ChatMessage = ChatMessage(role: string, content: Option<string>, toolCalls: Option<seq<ToolCall>>,
                                     toolCallId: Option<string>)

  function UserMessage(content: string): ChatMessage {
    ChatMessage("user", Some(content), None, None)
  }

  function ToolResult(toolCallId: string, content: string): ChatMessage {
    ChatMessage("tool", Some(content), None, Some(toolCallId))
  }
}
