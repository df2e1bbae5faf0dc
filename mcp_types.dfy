/** The MCP protocol values the servers produce and the clients consume. */
module McpTypes {
  import opened Wrappers
  import opened Values

  /** A tool as a server lists it: its name, its description, which a server may leave
      out (None), and the JSON schema of its arguments. */
  datatype Tool = Tool(name: string, description: Option<string>, inputSchema: Json)

  /** `types.TextContent`: its `type` field, its text and its optional annotations. */
  datatype TextContent = TextContent(kind: string, text: string, annotations: Option<Json>)

  /** A text content item of type "text" without annotations. */
  function PlainText(text: string): (r: TextContent)
    ensures r.kind == "text" && r.text == text && r.annotations.None?
  {
    TextContent("text", text, None)
  }

  /** `types.PromptArgument`. */
  datatype PromptArgument = PromptArgument(name: string, description: string, required: bool)

  /** `types.Prompt`. */
  datatype Prompt = Prompt(name: string, description: string, arguments: seq<PromptArgument>)

  /** `types.PromptMessage` with a text content. */
  datatype PromptMessage = PromptMessage(role: string, content: TextContent)

  /** The result of a `session.call_tool(...)`: its `content` items. */
  datatype CallResult = CallResult(content: seq<TextContent>)

  /** A connected client session, seen through the two requests the clients send after
      `initialize`: its tool listing (`list_tools`) and its tool calls (`call_tool`),
      which either return a result or raise with a message. */
  datatype Session = Session(tools: seq<Tool>, call: (string, Json) -> Result<CallResult, string>)

  /** `StdioServerParameters`: the command, its arguments and its environment, as the
      client passes them to the transport. */
  datatype ServerParams = ServerParams(command: Json, args: Json, env: Option<Dict>)
}
