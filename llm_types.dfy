/** The chat-completions values the clients read from a model response. */
module LlmTypes {
  import opened Wrappers

  /** One entry of `message.tool_calls`: its id, the function's name and its
      arguments as the model wrote them (a JSON text). */
  datatype ToolCall = ToolCall(id: string, name: string, arguments: string)

  /** `response.choices[0].message`: its text, if any, and its tool calls in the model's
      order (`None` and `[]` both read as no tool calls). */
  datatype Reply = Reply(content: Option<string>, toolCalls: seq<ToolCall>)
}
