/** The single-server chat client (client.py): it connects to one MCP server, offers the
    server's tools to the model, runs at most the first tool call the model asks for and
    asks the model once more with the tool's result. The model is the function `llm`,
    `json.loads` is `decode`, and `str()` of the decoded arguments is `show`. */
module SingleServerClient {
  import opened Wrappers
  import opened Values
  import opened McpTypes
  import opened LlmTypes
  import Text

  /** `serialize_text_content`: the dict of a text content item, with missing
      annotations written as "". */
  function SerializeTextContent(c: TextContent): (r: Dict)
    ensures |r| == 3 && r[0].0 == "type" && r[1].0 == "text" && r[2].0 == "annotations"
    ensures Get(r, "type") == Some(JStr(c.kind)) && Get(r, "text") == Some(JStr(c.text))
    ensures Get(r, "annotations") == Some(if c.annotations.Some? then c.annotations.value else JStr(""))
  {
    [("type", JStr(c.kind)), ("text", JStr(c.text)), ("annotations", c.annotations.GetOr(JStr("")))]
  }

  /** Reads a text content item back from its serialized dict, taking "" as no
      annotations. */
  function DeserializeTextContent(d: Dict): Option<TextContent>
  {
    match (Get(d, "type"), Get(d, "text"), Get(d, "annotations"))
    case (Some(JStr(kind)), Some(JStr(text)), Some(a)) =>
      Some(TextContent(kind, text, if a == JStr("") then None else Some(a)))
    case _ => None
  }

  /** Serializing keeps the content's type and text, and its annotations unless they
      are the empty string. */
  lemma SerializeRoundTrip(c: TextContent)
    requires c.annotations != Some(JStr(""))
    ensures DeserializeTextContent(SerializeTextContent(c)) == Some(c)
  {
  }

  /** Missing annotations and empty-string annotations serialize alike. */
  lemma SerializeMergesEmptyAnnotations(kind: string, text: string)
    ensures SerializeTextContent(TextContent(kind, text, None))
            == SerializeTextContent(TextContent(kind, text, Some(JStr(""))))
  {
  }

  /** An entry of the `tools` list sent to the model:
      `{"type": "function", "function": {name, description, input_schema}}`. */
  datatype FunctionTool = FunctionTool(name: string, description: Option<string>, inputSchema: Json)

  /** The comprehension in `get_tools`: one function entry per listed tool, in order. */
  function FunctionTools(tools: seq<Tool>): (r: seq<FunctionTool>)
    ensures |r| == |tools|
    ensures forall i :: 0 <= i < |r| ==>
              r[i] == FunctionTool(tools[i].name, tools[i].description, tools[i].inputSchema)
  {
    seq(|tools|, i requires 0 <= i < |tools| => FunctionTool(tools[i].name, tools[i].description, tools[i].inputSchema))
  }

  /** The function entries lose nothing of the listing: the tools can be read back. */
  lemma FunctionToolsInjective(a: seq<Tool>, b: seq<Tool>)
    requires FunctionTools(a) == FunctionTools(b)
    ensures a == b
  {
    assert |a| == |b|;
    forall i | 0 <= i < |a| ensures a[i] == b[i] {
      assert FunctionTools(a)[i] == FunctionTools(b)[i];
    }
  }

  /** The messages of the single-server history. */
  datatype Message =
    | UserText(content: string)                  // {"role": "user", "content": query}
    | UserContent(items: seq<TextContent>)       // {"role": "user", "content": result.content}

  /** Why `process_query` or `connect_to_server` raises. */
  datatype ClientError =
    | NoSession                    // `self.session` is None (AttributeError)
    | ArgumentsNotJson(reason: string)
    | ToolCallFailed(reason: string)
    | PieceNotString               // `"\\n".join` met a None piece (TypeError)
    | ConnectFailed(reason: string)
    | InitializeFailed(reason: string)

  /** `"\\n".join(pieces)`: every piece must be a string; the separator is the two
      characters backslash and n. */
  function JoinLiteral(pieces: seq<Option<string>>): (r: Result<string, ClientError>)
    ensures r.Success? <==> forall i :: 0 <= i < |pieces| ==> pieces[i].Some?
  {
    if exists i :: 0 <= i < |pieces| && pieces[i].None? then Failure(PieceNotString)
    else Success(Text.Join("\\n", seq(|pieces|, i requires 0 <= i < |pieces| => pieces[i].value)))
  }

  /** The piece recorded for the tool call. */
  function CallText(name: string, args: Json, show: Json -> string): string
  {
    "[Calling tool " + name + " with args " + show(args) + "]"
  }

  /** What one query does: the histories sent to the model, the tool calls sent to the
      session, and the returned text or the error raised. */
  datatype Outcome = Outcome(requests: seq<seq<Message>>, executed: seq<(string, Json)>,
                             result: Result<string, ClientError>)

  /** The reference definition of `process_query` for a client whose session is
      `session`. */
  function Turn(session: Option<Session>, query: string,
                llm: (seq<Message>, seq<FunctionTool>) -> Reply,
                decode: string -> Result<Json, string>, show: Json -> string): Outcome
  {
    if session.None? then Outcome([], [], Failure(NoSession))
    else
      var tools := FunctionTools(session.value.tools);
      var first := [UserText(query)];
      var reply := llm(first, tools);
      if reply.toolCalls == [] then Outcome([first], [], JoinLiteral([reply.content]))
      else
        var call := reply.toolCalls[0];
        match decode(call.arguments)
        case Failure(e) => Outcome([first], [], Failure(ArgumentsNotJson(e)))
        case Success(args) =>
          match session.value.call(call.name, args)
          case Failure(e) => Outcome([first], [(call.name, args)], Failure(ToolCallFailed(e)))
          case Success(result) =>
            var second := first + [UserContent(result.content)];
            var followUp := llm(second, tools);
            Outcome([first, second], [(call.name, args)],
                    JoinLiteral([Some(CallText(call.name, args, show)), followUp.content]))
  }

  /** Every query starts from the query alone, runs at most the model's first tool call,
      and asks the model at most twice; the second history is the query followed by the
      tool's result content. Without a tool call the reply's content is returned as it
      is, and a reply without content makes the join raise. */
  lemma TurnShape(session: Option<Session>, query: string,
                  llm: (seq<Message>, seq<FunctionTool>) -> Reply,
                  decode: string -> Result<Json, string>, show: Json -> string)
    requires session.Some?
    ensures var o := Turn(session, query, llm, decode, show);
            var reply := llm([UserText(query)], FunctionTools(session.value.tools));
            && 1 <= |o.requests| <= 2
            && o.requests[0] == [UserText(query)]
            && |o.executed| <= 1
            && (|o.executed| == 1 ==> o.executed[0].0 == reply.toolCalls[0].name)
            && (reply.toolCalls == [] ==>
                  && |o.requests| == 1 && o.executed == []
                  && (reply.content.Some? ==> o.result == Success(reply.content.value))
                  && (reply.content.None? ==> o.result == Failure(PieceNotString)))
            && (reply.toolCalls != [] ==>
                  (|o.executed| == 1 <==> decode(reply.toolCalls[0].arguments).Success?))
            && (|o.requests| == 2 <==>
                  |o.executed| == 1 && session.value.call(o.executed[0].0, o.executed[0].1).Success?)
            && (|o.requests| == 2 ==>
                  && o.executed[0] == (reply.toolCalls[0].name, decode(reply.toolCalls[0].arguments).value)
                  && session.value.call(o.executed[0].0, o.executed[0].1).Success?
                  && o.requests[1] == [UserText(query),
                                       UserContent(session.value.call(o.executed[0].0, o.executed[0].1).value.content)])
  {
    var reply := llm([UserText(query)], FunctionTools(session.value.tools));
    if reply.toolCalls == [] && reply.content.Some? {
      var pieces := [reply.content];
      assert seq(|pieces|, i requires 0 <= i < |pieces| => pieces[i].value) == [reply.content.value];
    }
  }

  /** The two pieces of a turn with a tool call are joined by backslash-n, not by a
      line break. */
  lemma TurnLiteralSeparator(session: Option<Session>, query: string,
                             llm: (seq<Message>, seq<FunctionTool>) -> Reply,
                             decode: string -> Result<Json, string>, show: Json -> string)
    requires session.Some?
    requires var o := Turn(session, query, llm, decode, show); |o.requests| == 2 && o.result.Success?
    ensures var o := Turn(session, query, llm, decode, show);
            var tools := FunctionTools(session.value.tools);
            var call := llm([UserText(query)], tools).toolCalls[0];
            && llm(o.requests[1], tools).content.Some?
            && o.result.value == CallText(call.name, o.executed[0].1, show) + ['\\', 'n']
                                 + llm(o.requests[1], tools).content.value
  {
    var o := Turn(session, query, llm, decode, show);
    var tools := FunctionTools(session.value.tools);
    var call := llm([UserText(query)], tools).toolCalls[0];
    var a := CallText(call.name, o.executed[0].1, show);
    var b := llm(o.requests[1], tools).content;
    var pieces := [Some(a), b];
    assert seq(|pieces|, i requires 0 <= i < |pieces| => pieces[i].value) == [a, b.value];
    Text.JoinPair("\\n", a, b.value);
  }

  /** `MCPClient` of client.py: its one session, `None` until `connect_to_server`. */
  class MCPClient {
    var session: Option<Session>

    constructor()
      ensures session.None?
    {
      session := None;
    }

    /** `get_tools`: the session's listing as function entries, without any server
        prefix. */
    method GetTools() returns (r: Result<seq<FunctionTool>, ClientError>)
      ensures session.None? ==> r == Failure(NoSession)
      ensures session.Some? ==> r == Success(FunctionTools(session.value.tools))
    {
      if session.None? {
        return Failure(NoSession);
      }
      r := Success(FunctionTools(session.value.tools));
    }

    /** `connect_to_server`: opens a session on `python <path>` with the default
        environment. The session is kept as soon as it is opened, before `initialize`,
        so a failing `initialize` still leaves it in place. */
    method ConnectToServer(serverScriptPath: string,
                           openSession: ServerParams -> Result<Session, string>,
                           initialize: Session -> Option<string>)
      returns (r: Result<Session, ClientError>)
      modifies this
      ensures var params := ServerParams(JStr("python"), JArr([JStr(serverScriptPath)]), None);
              && (openSession(params).Failure? ==> r == Failure(ConnectFailed(openSession(params).error)) && session == old(session))
              && (openSession(params).Success? ==> session == Some(openSession(params).value))
              && (openSession(params).Success? && initialize(openSession(params).value).Some? ==>
                    r == Failure(InitializeFailed(initialize(openSession(params).value).value)))
              && (openSession(params).Success? && initialize(openSession(params).value).None? ==> r == Success(openSession(params).value))
    {
      var params := ServerParams(JStr("python"), JArr([JStr(serverScriptPath)]), None);
      var made := openSession(params);
      if made.Failure? {
        return Failure(ConnectFailed(made.error));
      }
      session := Some(made.value);
      var failure := initialize(made.value);
      if failure.Some? {
        return Failure(InitializeFailed(failure.value));
      }
      r := Success(made.value);
    }

    /** `process_query`: builds a fresh history and the list of text pieces step by step;
        nothing carries over from earlier queries. */
    method ProcessQuery(query: string,
                        llm: (seq<Message>, seq<FunctionTool>) -> Reply,
                        decode: string -> Result<Json, string>, show: Json -> string)
      returns (r: Result<string, ClientError>, requests: seq<seq<Message>>, executed: seq<(string, Json)>)
      ensures Outcome(requests, executed, r) == Turn(session, query, llm, decode, show)
    {
      requests, executed := [], [];
      var messages := [UserText(query)];
      var tools := GetTools();
      if tools.Failure? {
        return tools.PropagateFailure(), requests, executed;
      }
      var response := llm(messages, tools.value);
      requests := requests + [messages];
      var finalText: seq<Option<string>> := [];
      if response.toolCalls == [] {
        finalText := finalText + [response.content];
        assert finalText == [response.content];
      } else {
        var call := response.toolCalls[0];
        var toolArgs := decode(call.arguments);
        if toolArgs.Failure? {
          return Failure(ArgumentsNotJson(toolArgs.error)), requests, executed;
        }
        var result := session.value.call(call.name, toolArgs.value);
        executed := executed + [(call.name, toolArgs.value)];
        if result.Failure? {
          return Failure(ToolCallFailed(result.error)), requests, executed;
        }
        finalText := finalText + [Some(CallText(call.name, toolArgs.value, show))];
        // The content of a reply is a string or None, never an object with `.text`,
        // so no assistant message is added.
        messages := messages + [UserContent(result.value.content)];
        response := llm(messages, tools.value);
        requests := requests + [messages];
        finalText := finalText + [response.content];
        assert finalText == [Some(CallText(call.name, toolArgs.value, show)), response.content];
        assert requests == [[UserText(query)], messages];
      }
      r := JoinLiteral(finalText);
    }
  }
}
