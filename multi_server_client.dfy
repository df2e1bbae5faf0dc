/** The multi-server client of client/client.py: a registry of named sessions, one
    conversation that outlives the queries, tool calls routed across the sessions and
    the interactive loop. The model is the function `llm`, `json.loads` is `decode`,
    `str()` of the decoded arguments is `show` and `str(result.content)` is `render`;
    `os.environ` is the dictionary `environ`, and the launching and initialization of a
    server are the functions `openSession` and `initialize`. */
module MultiServerClient {
  import opened Wrappers
  import opened Values
  import opened McpTypes
  import opened LlmTypes
  import opened ClientSessions
  import opened ClientConversation
  import Text

  /** What a line typed at the prompt asks for, once stripped. */
  datatype Command = Exit | Clear | Query(text: string)

  /** The dispatch of `chat_loop`: "exit" and "clear-current" in any letter case, with
      surrounding white space stripped; anything else is a query, stripped. */
  function Dispatch(line: string): (c: Command)
    ensures c == Exit <==> Text.Lower(Text.Strip(line)) == "exit"
    ensures c == Clear <==> Text.Lower(Text.Strip(line)) == "clear-current"
    ensures c.Query? ==> c.text == Text.Strip(line)
  {
    var query := Text.Strip(line);
    if Text.Lower(query) == "exit" then Exit
    else if Text.Lower(query) == "clear-current" then Clear
    else Query(query)
  }

  const ClearedNotice := "Current session conversation cleared"

  /** What `chat_loop` prints after a query: the reply, or the error. */
  function Printed(r: Result<string, ClientError>): (p: string)
    ensures r.Success? ==> p == "\n" + r.value
    ensures r.Failure? ==> p == "\nError: " + ErrorMessage(r.error)
  {
    match r
    case Success(text) => "\n" + text
    case Failure(e) => "\nError: " + ErrorMessage(e)
  }

  /** The commands the lines typed stand for. */
  function Commands(lines: seq<string>): (r: seq<Command>)
    ensures |r| == |lines| && forall i :: 0 <= i < |lines| ==> r[i] == Dispatch(lines[i])
  {
    seq(|lines|, i requires 0 <= i < |lines| => Dispatch(lines[i]))
  }

  /** Where a session of the loop ends: the transcript and what was printed. */
  datatype ChatOutcome = ChatOutcome(history: seq<Message>, outputs: seq<string>)

  /** One command of `chat_loop`: None for "exit", otherwise the transcript after it
      and what is printed. */
  function ChatStep(history: seq<Message>, reg: Registry, command: Command,
                    llm: (seq<Message>, seq<CatalogEntry>) -> Reply, decode: string -> Result<Json, string>,
                    show: Json -> string, render: seq<TextContent> -> string): (r: Option<(seq<Message>, string)>)
    ensures r.None? <==> command == Exit
    ensures command == Clear ==> r == Some(([], ClearedNotice))
  {
    match command
    case Exit => None
    case Clear => Some(([], ClearedNotice))
    case Query(q) =>
      var o := Turn(history, reg, q, llm, decode, show, render);
      Some((history + o.log, Printed(o.result)))
  }

  /** The reference definition of `chat_loop` over the commands typed, up to "exit" or
      the end of the input. */
  function Chat(history: seq<Message>, reg: Registry, commands: seq<Command>,
                llm: (seq<Message>, seq<CatalogEntry>) -> Reply, decode: string -> Result<Json, string>,
                show: Json -> string, render: seq<TextContent> -> string): ChatOutcome
    decreases |commands|
  {
    if commands == [] then ChatOutcome(history, [])
    else
      match ChatStep(history, reg, commands[0], llm, decode, show, render)
      case None => ChatOutcome(history, [])
      case Some(next) =>
        var rest := Chat(next.0, reg, commands[1..], llm, decode, show, render);
        ChatOutcome(rest.history, [next.1] + rest.outputs)
  }

  /** The commands after "exit" are never carried out. */
  lemma {:induction false} ChatStopsAtExit(history: seq<Message>, reg: Registry, commands: seq<Command>, i: nat,
                                           llm: (seq<Message>, seq<CatalogEntry>) -> Reply,
                                           decode: string -> Result<Json, string>,
                                           show: Json -> string, render: seq<TextContent> -> string)
    requires i < |commands| && commands[i] == Exit
    ensures Chat(history, reg, commands, llm, decode, show, render)
            == Chat(history, reg, commands[..i + 1], llm, decode, show, render)
    decreases i
  {
    if i > 0 {
      var prefix := commands[..i + 1];
      assert prefix[0] == commands[0] && prefix[1..] == commands[1..][..i];
      match commands[0]
      case Exit =>
      case Clear =>
        ChatStopsAtExit([], reg, commands[1..], i - 1, llm, decode, show, render);
      case Query(q) =>
        var o := Turn(history, reg, q, llm, decode, show, render);
        ChatStopsAtExit(history + o.log, reg, commands[1..], i - 1, llm, decode, show, render);
    }
  }

  /** After "clear-current" the transcript owes nothing to what came before it: any
      two starting transcripts end alike once a clear comes before any "exit". */
  lemma {:induction false} ChatClearForgets(h1: seq<Message>, h2: seq<Message>, reg: Registry, commands: seq<Command>, i: nat,
                                            llm: (seq<Message>, seq<CatalogEntry>) -> Reply,
                                            decode: string -> Result<Json, string>,
                                            show: Json -> string, render: seq<TextContent> -> string)
    requires i < |commands| && commands[i] == Clear
    requires forall j :: 0 <= j < i ==> commands[j] != Exit
    ensures Chat(h1, reg, commands, llm, decode, show, render).history
            == Chat(h2, reg, commands, llm, decode, show, render).history
    decreases i
  {
    if i > 0 {
      assert commands[0] != Exit;
      assert forall j :: 0 <= j < i - 1 ==> commands[1..][j] == commands[j + 1];
      match commands[0]
      case Clear =>
      case Query(q) =>
        var o1 := Turn(h1, reg, q, llm, decode, show, render);
        var o2 := Turn(h2, reg, q, llm, decode, show, render);
        ChatClearForgets(h1 + o1.log, h2 + o2.log, reg, commands[1..], i - 1, llm, decode, show, render);
    }
  }

  /** Without a clear, the transcript only grows: what was there stays a prefix. */
  lemma {:induction false} ChatExtends(history: seq<Message>, reg: Registry, commands: seq<Command>,
                                       llm: (seq<Message>, seq<CatalogEntry>) -> Reply,
                                       decode: string -> Result<Json, string>,
                                       show: Json -> string, render: seq<TextContent> -> string)
    requires forall j :: 0 <= j < |commands| ==> commands[j] != Clear
    ensures var r := Chat(history, reg, commands, llm, decode, show, render);
            |history| <= |r.history| && r.history[..|history|] == history
    decreases |commands|
  {
    if commands != [] {
      assert forall j :: 0 <= j < |commands| - 1 ==> commands[1..][j] == commands[j + 1];
      match commands[0]
      case Exit =>
      case Query(q) =>
        var o := Turn(history, reg, q, llm, decode, show, render);
        ChatExtends(history + o.log, reg, commands[1..], llm, decode, show, render);
        var r := Chat(history + o.log, reg, commands[1..], llm, decode, show, render);
        assert r.history[..|history|] == r.history[..|history + o.log|][..|history|];
    }
  }

  /** What one pass of `chat_loop` does with a command, given the transcript: the
      function ChatStep with the sessions and the oracles fixed. */
  function StepOf(reg: Registry, llm: (seq<Message>, seq<CatalogEntry>) -> Reply, decode: string -> Result<Json, string>,
                  show: Json -> string, render: seq<TextContent> -> string): (step: (seq<Message>, Command) -> Option<(seq<Message>, string)>)
    ensures forall h, c :: step(h, c).None? <==> c == Exit
  {
    (h: seq<Message>, c: Command) => ChatStep(h, reg, c, llm, decode, show, render)
  }

  /** `Chat` over any step function. */
  function ChatOver(step: (seq<Message>, Command) -> Option<(seq<Message>, string)>,
                    history: seq<Message>, commands: seq<Command>): ChatOutcome
    decreases |commands|
  {
    if commands == [] then ChatOutcome(history, [])
    else
      match step(history, commands[0])
      case None => ChatOutcome(history, [])
      case Some(next) =>
        var rest := ChatOver(step, next.0, commands[1..]);
        ChatOutcome(rest.history, [next.1] + rest.outputs)
  }

  /** `Chat` is the run over the steps of ChatStep. */
  lemma {:induction false} ChatIsChatOver(history: seq<Message>, reg: Registry, commands: seq<Command>,
                                          llm: (seq<Message>, seq<CatalogEntry>) -> Reply, decode: string -> Result<Json, string>,
                                          show: Json -> string, render: seq<TextContent> -> string)
    ensures Chat(history, reg, commands, llm, decode, show, render)
            == ChatOver(StepOf(reg, llm, decode, show, render), history, commands)
    decreases |commands|
  {
    if commands != [] {
      var step := StepOf(reg, llm, decode, show, render);
      assert step(history, commands[0]) == ChatStep(history, reg, commands[0], llm, decode, show, render);
      match ChatStep(history, reg, commands[0], llm, decode, show, render)
      case None =>
      case Some(next) =>
        ChatIsChatOver(next.0, reg, commands[1..], llm, decode, show, render);
    }
  }

  /** `str()` of the `EOFError` that `input()` raises once piped input is used up. */
  const EndOfFileMessage := "EOF when reading a line"

  /** What `input()` gives, as the command its line stands for, on the lines still to
      come (each line dispatched as it is read): the next one, or the `EOFError` once
      none is left. */
  function ReadCommand(commands: seq<Command>): Result<Command, ClientError>
  {
    if commands == [] then Failure(InputEnded(EndOfFileMessage)) else Success(commands[0])
  }

  /** The lines still to come after one `input()`. */
  function Remaining(commands: seq<Command>): seq<Command>
  {
    if commands == [] then [] else commands[1..]
  }

  /** One pass through the `try` of `chat_loop` as written: the command of the line
      `input()` returned, carried out by `step`, or the error `input()` raised, printed
      by the `except` branch with the transcript unchanged. None for "exit". */
  function LoopBody(step: (seq<Message>, Command) -> Option<(seq<Message>, string)>,
                    history: seq<Message>, commands: seq<Command>): Option<(seq<Message>, string)>
  {
    match ReadCommand(commands)
    case Success(command) => step(history, command)
    case Failure(e) => Some((history, Printed(Failure(e))))
  }

  /** Where `chat_loop` is after some passes: the transcript, what was printed, and
      whether it still runs. */
  datatype LoopRun = LoopRun(history: seq<Message>, outputs: seq<string>, running: bool)

  /** `n` passes of the `while True` of `chat_loop` as written, over the commands of the
      lines of its input, each pass carried out by `step`. */
  function Passes(step: (seq<Message>, Command) -> Option<(seq<Message>, string)>,
                  history: seq<Message>, commands: seq<Command>, n: nat): LoopRun
    decreases n
  {
    if n == 0 then LoopRun(history, [], true)
    else
      match LoopBody(step, history, commands)
      case None => LoopRun(history, [], false)
      case Some(next) =>
        var rest := Passes(step, next.0, Remaining(commands), n - 1);
        LoopRun(rest.history, [next.1] + rest.outputs, rest.running)
  }

  /** `n` passes of `chat_loop` as written, over the lines of its input. */
  function LoopAsWritten(history: seq<Message>, reg: Registry, lines: seq<string>, n: nat,
                         llm: (seq<Message>, seq<CatalogEntry>) -> Reply, decode: string -> Result<Json, string>,
                         show: Json -> string, render: seq<TextContent> -> string): LoopRun
  {
    Passes(StepOf(reg, llm, decode, show, render), history, Commands(lines), n)
  }

  /** Once the input is used up, every pass prints the `EOFError` and leaves the
      transcript as it was, whatever the step does with a command. */
  lemma {:induction false} PassesAtEnd(step: (seq<Message>, Command) -> Option<(seq<Message>, string)>,
                                       history: seq<Message>, n: nat)
    ensures Passes(step, history, [], n) == LoopRun(history, Repeated("\nError: " + EndOfFileMessage, n), true)
    decreases n
  {
    if n > 0 {
      PassesAtEnd(step, history, n - 1);
    }
  }

  /** Over commands none of which is "exit", the passes do what `ChatOver` does for as
      many passes as there are commands, and each of the `n` passes after that prints
      the `EOFError`. */
  lemma {:induction false} PassesAfterInput(step: (seq<Message>, Command) -> Option<(seq<Message>, string)>,
                                            history: seq<Message>, commands: seq<Command>, k: nat, n: nat)
    requires forall h, c :: step(h, c).None? <==> c == Exit
    requires forall j :: 0 <= j < |commands| ==> commands[j] != Exit
    requires k == |commands| + n
    ensures Passes(step, history, commands, k)
            == LoopRun(ChatOver(step, history, commands).history,
                       ChatOver(step, history, commands).outputs + Repeated("\nError: " + EndOfFileMessage, n), true)
    decreases |commands|
  {
    var spin := Repeated("\nError: " + EndOfFileMessage, n);
    if commands == [] {
      PassesAtEnd(step, history, n);
      assert [] + spin == spin;
    } else {
      var tail := commands[1..];
      assert forall j :: 0 <= j < |tail| ==> tail[j] == commands[j + 1];
      var next := step(history, commands[0]).value;
      PassesAfterInput(step, next.0, tail, k - 1, n);
      var c := ChatOver(step, next.0, tail);
      assert [next.1] + (c.outputs + spin) == ([next.1] + c.outputs) + spin;
    }
  }

  /** Once its input is used up, the loop as written never leaves: every pass prints the
      `EOFError` and leaves the transcript as it was. */
  lemma EndOfInputNeverExits(history: seq<Message>, reg: Registry, n: nat,
                             llm: (seq<Message>, seq<CatalogEntry>) -> Reply, decode: string -> Result<Json, string>,
                             show: Json -> string, render: seq<TextContent> -> string)
    ensures LoopAsWritten(history, reg, [], n, llm, decode, show, render)
            == LoopRun(history, Repeated("\nError: " + EndOfFileMessage, n), true)
  {
    assert Commands([]) == [];
    PassesAtEnd(StepOf(reg, llm, decode, show, render), history, n);
  }

  /** `n` copies of a printed line. */
  function Repeated(line: string, n: nat): seq<string>
  {
    if n == 0 then [] else [line] + Repeated(line, n - 1)
  }

  /** `MCPClient` of client/client.py: the configuration read at construction, the
      sessions by server name in insertion order, and the current conversation. */
  class MCPClient {
    const config: Json
    var sessions: Registry
    var conversation: seq<Entry>

    /** A dictionary holds each server name once. */
    ghost predicate Valid()
      reads this
    {
      DistinctNames(sessions)
    }

    constructor(config: Json)
      ensures this.config == config && sessions == [] && conversation == []
      ensures Valid()
    {
      this.config := config;
      sessions := [];
      conversation := [];
    }

    /** `get_all_tools`: the catalog of every session, session by session. */
    method GetAllTools() returns (allTools: seq<CatalogEntry>)
      ensures allTools == Catalog(sessions)
    {
      allTools := [];
      var i := 0;
      while i < |sessions|
        invariant 0 <= i <= |sessions|
        invariant allTools == Catalog(sessions[..i])
      {
        var serverName := sessions[i].0;
        var tools := sessions[i].1.tools;
        var available := seq(|tools|, j requires 0 <= j < |tools| => Described(serverName, tools[j]));
        assert sessions[..i + 1][..i] == sessions[..i];
        allTools := allTools + available;
        i := i + 1;
      }
      assert sessions[..i] == sessions;
    }

    /** `_connect_to_single_server`: launch and initialize the server, then register its
        session under the name; a failure registers nothing. */
    method ConnectToSingleServer(serverName: string, environ: Dict,
                                 openSession: ServerParams -> Result<Session, string>,
                                 initialize: Session -> Option<string>)
      returns (r: Result<Session, ClientError>)
      requires Valid()
      modifies this
      ensures Valid()
      ensures r == Connect(config, serverName, environ, openSession, initialize)
      ensures r.Success? ==> sessions == Register(old(sessions), serverName, r.value)
      ensures r.Failure? ==> sessions == old(sessions)
      ensures conversation == old(conversation)
    {
      var params :- LaunchParams(config, serverName, environ);
      var made := openSession(params);
      if made.Failure? {
        return Failure(ConnectFailed(made.error));
      }
      var failure := initialize(made.value);
      if failure.Some? {
        return Failure(InitializeFailed(failure.value));
      }
      RegisterDistinct(sessions, serverName, made.value);
      sessions := Register(sessions, serverName, made.value);
      r := Success(made.value);
    }

    /** `call_tool`: split a qualified name, or ask the sessions in order for a bare one,
        then call the tool on the session found. The second result names the sessions
        whose listing was awaited. */
    method CallTool(toolCallName: string, toolArgs: Json) returns (r: Result<CallResult, ClientError>, probed: seq<string>)
      ensures r == Invoke(sessions, toolCallName, toolArgs)
      ensures probed == Probed(sessions, toolCallName)
    {
      probed := [];
      var serverName: string;
      var actualToolName: string;
      var colon := Text.Find(toolCallName, ':');
      if colon.Some? {
        serverName := toolCallName[..colon.value];
        actualToolName := toolCallName[colon.value + 1..];
      } else {
        actualToolName := toolCallName;
        var found;
        found, probed := FindListing(actualToolName);
        if found.None? {
          return Failure(ToolNotFound(toolCallName)), probed;
        }
        serverName := sessions[found.value].0;
        if serverName == "" {
          return Failure(ToolNotFound(toolCallName)), probed;
        }
      }
      if !Registered(sessions, serverName) {
        return Failure(ServerNotConnected(serverName)), probed;
      }
      var session := Lookup(sessions, serverName).value;
      var result := session.call(actualToolName, toolArgs);
      if result.Failure? {
        return Failure(ToolCallFailed(result.error)), probed;
      }
      r := Success(result.value);
    }

    /** The scan of `call_tool` for a bare name: the sessions are asked for their
        listing in insertion order until one lists the tool. */
    method FindListing(name: string) returns (found: Option<nat>, probed: seq<string>)
      ensures found == FirstListing(sessions, name)
      ensures probed == if found.None? then Names(sessions) else Names(sessions[..found.value + 1])
    {
      probed := [];
      found := None;
      var i := 0;
      while i < |sessions|
        invariant 0 <= i <= |sessions|
        invariant found.None? && probed == Names(sessions[..i])
        invariant forall j :: 0 <= j < i ==> !Lists(sessions[j].1, name)
      {
        assert Names(sessions[..i + 1]) == Names(sessions[..i]) + [sessions[i].0];
        probed := probed + [sessions[i].0];
        if Lists(sessions[i].1, name) {
          found := Some(i);
          return;
        }
        i := i + 1;
      }
      assert sessions[..i] == sessions;
    }

    /** `process_query`: the transcript grows by the turn's messages. The assistant
        entries of one turn all refer to one list that receives each call just before
        it is made, so each of them ends up showing every call put on it. */
    method ProcessQuery(query: string,
                        llm: (seq<Message>, seq<CatalogEntry>) -> Reply, decode: string -> Result<Json, string>,
                        show: Json -> string, render: seq<TextContent> -> string)
      returns (r: Result<string, ClientError>, requests: seq<seq<Message>>)
      modifies this
      ensures sessions == old(sessions)
      ensures var o := Turn(old(View(conversation)), sessions, query, llm, decode, show, render);
              && View(conversation) == old(View(conversation)) + o.log
              && r == o.result && requests == o.requests
    {
      ghost var prior := conversation;
      ghost var history := View(conversation);
      SharedListsOrigin(prior);
      assert forall l | l in SharedLists(prior) :: allocated(l) && (l as object) != (this as object);
      var messages := View(conversation) + [UserMessage(query)];
      conversation := conversation + [UserEntry(query)];
      var availableTools := GetAllTools();
      if availableTools == [] {
        conversation := conversation + [AssistantEntry(Some("No tools available"))];
        PlainTurnView(prior, query, Some("No tools available"));
        return Success("No tools available"), [];
      }
      var reply := llm(messages, availableTools);
      if reply.toolCalls == [] {
        conversation := conversation + [AssistantEntry(reply.content)];
        PlainTurnView(prior, query, reply.content);
        return Success(Text.Join("\n", Present([reply.content]))), [messages];
      }
      r, requests := RunToolCalls(prior, history, query, messages, reply, availableTools, llm, decode, show, render);
    }

    /** The tool-call branch of `process_query`: run the calls, then ask the model again
        unless one of them failed. */
    method RunToolCalls(ghost prior: seq<Entry>, ghost history: seq<Message>, query: string,
                        messages0: seq<Message>, reply: Reply, availableTools: seq<CatalogEntry>,
                        llm: (seq<Message>, seq<CatalogEntry>) -> Reply, decode: string -> Result<Json, string>,
                        show: Json -> string, render: seq<TextContent> -> string)
      returns (r: Result<string, ClientError>, requests: seq<seq<Message>>)
      requires reply.toolCalls != []
      requires availableTools == Catalog(sessions) && messages0 == history + [UserMessage(query)]
      requires conversation == prior + [UserEntry(query)] && View(prior) == history
      requires forall l | l in SharedLists(prior) :: allocated(l) && (l as object) != (this as object)
      modifies this
      ensures sessions == old(sessions)
      ensures var o := CallsTurn(messages0, query, sessions, reply, llm, decode, show, render);
              && View(conversation) == history + o.log
              && r == o.result && requests == o.requests
    {
      var text := reply.content.GetOr("");
      var shared, steps, failure, messages, finalText := CallEach(prior, query, messages0, text, reply.toolCalls, decode, show, render);
      assert View(prior) == history;
      requests := [messages0];
      if failure.Some? {
        CallsStopped(messages0, query, sessions, reply, llm, decode, show, render, steps, failure.value, |shared.calls|);
        TranscriptView(prior, query, steps, text, shared, render);
        return Failure(failure.value), requests;
      }
      r, requests := FollowUp(prior, query, messages0, reply, availableTools, shared, steps, messages, finalText,
                              llm, decode, show, render);
    }

    /** After calls that all completed: ask the model again with the per-call exchange,
        record its reply, and join the pieces of the result. */
    method FollowUp(ghost prior: seq<Entry>, query: string, messages0: seq<Message>, reply: Reply,
                    availableTools: seq<CatalogEntry>, shared: CallList, steps: seq<Step>,
                    messages: seq<Message>, finalText: seq<Option<string>>,
                    llm: (seq<Message>, seq<CatalogEntry>) -> Reply, decode: string -> Result<Json, string>,
                    show: Json -> string, render: seq<TextContent> -> string)
      returns (r: Result<string, ClientError>, requests: seq<seq<Message>>)
      requires reply.toolCalls != [] && availableTools == Catalog(sessions)
      requires RunCalls(sessions, reply.toolCalls, decode) == CallsRun(steps, None, |shared.calls|)
      requires shared.calls == reply.toolCalls[..|shared.calls|]
      requires conversation == prior + [UserEntry(query)] + PairEntries(steps, reply.content.GetOr(""), shared, render)
      requires messages == messages0 + Exchange(steps, reply.content.GetOr(""), render)
      requires finalText == CallTexts(steps, show)
      requires forall l | l in SharedLists(prior) :: allocated(l) && (l as object) != (this as object)
      modifies this
      ensures sessions == old(sessions)
      ensures var o := CallsTurn(messages0, query, sessions, reply, llm, decode, show, render);
              && View(conversation) == old(View(prior)) + o.log
              && r == o.result && requests == o.requests
    {
      var text := reply.content.GetOr("");
      var followUp := llm(messages, availableTools);
      requests := [messages0, messages];
      conversation := conversation + [AssistantEntry(followUp.content)];
      CallsCompleted(messages0, query, sessions, reply, llm, decode, show, render, steps);
      TakeAll(reply.toolCalls);
      assert shared.calls == reply.toolCalls;
      FinalTranscriptView(prior, query, steps, text, shared, render, followUp.content);
      r := Success(Text.Join("\n", Present(finalText + [followUp.content])));
    }

    /** The loop over the tool calls of `process_query`: each call is made and answered
        in the transcript and in the history for the model; the first error ends the
        loop. */
    method CallEach(ghost prior: seq<Entry>, query: string, messages0: seq<Message>, text: string, calls: seq<ToolCall>,
                    decode: string -> Result<Json, string>, show: Json -> string, render: seq<TextContent> -> string)
      returns (shared: CallList, steps: seq<Step>, failure: Option<ClientError>,
               messages: seq<Message>, finalText: seq<Option<string>>)
      requires conversation == prior + [UserEntry(query)]
      modifies this
      ensures fresh(shared) && sessions == old(sessions)
      ensures RunCalls(sessions, calls, decode) == CallsRun(steps, failure, |shared.calls|)
      ensures |shared.calls| <= |calls| && shared.calls == calls[..|shared.calls|]
      ensures conversation == prior + [UserEntry(query)] + PairEntries(steps, text, shared, render)
      ensures messages == messages0 + Exchange(steps, text, render)
      ensures finalText == CallTexts(steps, show)
    {
      messages := messages0;
      finalText := [];
      shared := new CallList();
      steps := [];
      failure := None;
      var i := 0;
      while i < |calls|
        invariant 0 <= i <= |calls| && |steps| == i && failure.None?
        invariant sessions == old(sessions)
        invariant RunCalls(sessions, calls[..i], decode) == CallsRun(steps, None, i)
        invariant shared.calls == calls[..i]
        invariant conversation == prior + [UserEntry(query)] + PairEntries(steps, text, shared, render)
        invariant messages == messages0 + Exchange(steps, text, render)
        invariant finalText == CallTexts(steps, show)
      {
        var step;
        failure, step := CallOne(shared, text, calls, i, steps, decode, render);
        if failure.Some? {
          return;
        }
        finalText := finalText + [Some(CallText(step.call.name, step.args, show))];
        messages := messages + [AssistantCalls(text, [step.call]), ToolMessage(step.call.id, render(step.result.content))];
        StepSnoc(steps, step, text, shared, show, render);
        steps := steps + [step];
        i := i + 1;
      }
      TakeAll(calls);
    }

    /** One iteration of the tool-call loop: decode the arguments, put the call on the
        shared list, make it, and record the exchange in the transcript. */
    method CallOne(shared: CallList, text: string, calls: seq<ToolCall>, i: nat, steps: seq<Step>,
                   decode: string -> Result<Json, string>, render: seq<TextContent> -> string)
      returns (failure: Option<ClientError>, step: Step)
      requires i < |calls| && RunCalls(sessions, calls[..i], decode) == CallsRun(steps, None, i)
      requires shared.calls == calls[..i]
      modifies this, shared
      ensures sessions == old(sessions)
      ensures failure.Some? ==>
                && RunCalls(sessions, calls, decode) == CallsRun(steps, failure, |shared.calls|)
                && |shared.calls| <= |calls| && shared.calls == calls[..|shared.calls|]
                && conversation == old(conversation)
      ensures failure.None? ==>
                && RunCalls(sessions, calls[..i + 1], decode) == CallsRun(steps + [step], None, i + 1)
                && step.call == calls[i] && shared.calls == calls[..i + 1]
                && conversation == old(conversation) + [CallsEntry(text, shared), ToolEntry(step.call.id, render(step.result.content))]
    {
      var call := calls[i];
      var toolArgs := decode(call.arguments);
      if toolArgs.Failure? {
        RunCallsFailsAt(sessions, calls, decode, i, steps, ArgumentsNotJson(toolArgs.error), i);
        return Some(ArgumentsNotJson(toolArgs.error)), Step(call, JNull, CallResult([]));
      }
      TakeSnoc(calls, i);
      shared.calls := shared.calls + [call];
      var result, _ := CallTool(call.name, toolArgs.value);
      if result.Failure? {
        RunCallsFailsAt(sessions, calls, decode, i, steps, result.error, i + 1);
        return Some(result.error), Step(call, JNull, CallResult([]));
      }
      step := Step(call, toolArgs.value, result.value);
      RunCallsStep(sessions, calls, decode, i, steps, toolArgs.value, result.value);
      conversation := conversation + [CallsEntry(text, shared), ToolEntry(call.id, render(result.value.content))];
      failure := None;
    }

    /** `_clear_current_conversation`. */
    method ClearCurrentConversation()
      modifies this
      ensures conversation == [] && sessions == old(sessions)
    {
      conversation := [];
    }

    /** `chat_loop` over the lines typed: each line is dispatched; the reply of a query,
        or the error it raised, is printed, and the loop goes on until "exit". */
    method ChatLoop(lines: seq<string>,
                    llm: (seq<Message>, seq<CatalogEntry>) -> Reply, decode: string -> Result<Json, string>,
                    show: Json -> string, render: seq<TextContent> -> string)
      returns (outputs: seq<string>)
      modifies this
      ensures sessions == old(sessions)
      ensures var c := Chat(old(View(conversation)), sessions, Commands(lines), llm, decode, show, render);
              View(conversation) == c.history && outputs == c.outputs
    {
      ghost var commands := Commands(lines);
      outputs := [];
      var i := 0;
      while i < |lines|
        invariant 0 <= i <= |lines| && sessions == old(sessions)
        invariant var rest := Chat(View(conversation), sessions, commands[i..], llm, decode, show, render);
                  var whole := Chat(old(View(conversation)), sessions, commands, llm, decode, show, render);
                  rest.history == whole.history && outputs + rest.outputs == whole.outputs
      {
        var command := Dispatch(lines[i]);
        assert commands[i..][0] == command && commands[i..][1..] == commands[i + 1..];
        if command == Exit {
          assert outputs + [] == outputs;
          return;
        }
        var printed := HandleCommand(command, llm, decode, show, render);
        outputs := outputs + [printed];
        i := i + 1;
      }
      assert outputs + [] == outputs;
    }

    /** The body of `chat_loop` for a command other than "exit". */
    method HandleCommand(command: Command,
                         llm: (seq<Message>, seq<CatalogEntry>) -> Reply, decode: string -> Result<Json, string>,
                         show: Json -> string, render: seq<TextContent> -> string)
      returns (printed: string)
      requires command != Exit
      modifies this
      ensures sessions == old(sessions)
      ensures ChatStep(old(View(conversation)), sessions, command, llm, decode, show, render) == Some((View(conversation), printed))
    {
      if command == Clear {
        ClearCurrentConversation();
        printed := ClearedNotice;
      } else {
        var response, _ := ProcessQuery(command.text, llm, decode, show, render);
        printed := Printed(response);
      }
    }
  }
}
