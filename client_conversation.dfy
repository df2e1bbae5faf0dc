/** The transcript of the multi-server client (client/client.py) and the reference
    definition of one `process_query` turn over it. The model is the function `llm`,
    `json.loads` is `decode`, `str()` of the decoded arguments is `show` and
    `str(result.content)` is `render`. */
module ClientConversation {
  import opened Wrappers
  import opened Values
  import opened McpTypes
  import opened LlmTypes
  import opened ClientSessions
  import Text

  /** A message of the transcript or of the history sent to the model. */
  datatype Message =
    | UserMessage(text: string)                               // {"role": "user", "content": query}
    | AssistantMessage(reply: Option<string>)                 // {"role": "assistant", "content": ...}
    | AssistantCalls(text: string, toolCalls: seq<ToolCall>)  // ... with "tool_calls"
    | ToolMessage(toolCallId: string, output: string)         // {"role": "tool", ...}

  /** The `tool_calls` list of `assistant_response_with_tools`. Its shallow copies all
      share this one list. */
  class CallList {
    var calls: seq<ToolCall>

    constructor()
      ensures calls == []
    {
      calls := [];
    }
  }

  /** An entry of `current_conversation`. The entry of an assistant message with tool
      calls refers to the shared list instead of holding its own. */
  datatype Entry =
    | UserEntry(text: string)
    | AssistantEntry(reply: Option<string>)
    | CallsEntry(text: string, shared: CallList)
    | ToolEntry(toolCallId: string, output: string)

  /** The shared lists the entries refer to. */
  function SharedLists(entries: seq<Entry>): set<CallList>
  {
    if entries == [] then {}
    else (if entries[0].CallsEntry? then {entries[0].shared} else {}) + SharedLists(entries[1..])
  }

  /** The messages the entries stand for, each shared list read as it is now. */
  function View(entries: seq<Entry>): seq<Message>
    reads SharedLists(entries)
  {
    if entries == [] then []
    else
      var e := entries[0];
      [match e
       case UserEntry(t) => UserMessage(t)
       case AssistantEntry(r) => AssistantMessage(r)
       case CallsEntry(t, l) => AssistantCalls(t, l.calls)
       case ToolEntry(id, o) => ToolMessage(id, o)]
      + View(entries[1..])
  }

  lemma {:induction false} SharedListsAppend(a: seq<Entry>, b: seq<Entry>)
    ensures SharedLists(a + b) == SharedLists(a) + SharedLists(b)
    decreases |a|
  {
    if a == [] {
      assert a + b == b;
    } else {
      assert (a + b)[1..] == a[1..] + b;
      SharedListsAppend(a[1..], b);
    }
  }

  lemma {:induction false} ViewAppend(a: seq<Entry>, b: seq<Entry>)
    ensures View(a + b) == View(a) + View(b)
    decreases |a|
  {
    if a == [] {
      assert a + b == b;
    } else {
      assert (a + b)[1..] == a[1..] + b;
      ViewAppend(a[1..], b);
    }
  }

  /** Every shared list among the entries' lists is the list of one of the entries. */
  lemma {:induction false} SharedListsOrigin(entries: seq<Entry>)
    ensures forall l | l in SharedLists(entries) ::
              exists i :: 0 <= i < |entries| && entries[i].CallsEntry? && entries[i].shared == l
    decreases |entries|
  {
    if entries != [] {
      SharedListsOrigin(entries[1..]);
      forall l | l in SharedLists(entries)
        ensures exists i :: 0 <= i < |entries| && entries[i].CallsEntry? && entries[i].shared == l
      {
        if !(entries[0].CallsEntry? && entries[0].shared == l) {
          assert l in SharedLists(entries[1..]);
          var i :| 0 <= i < |entries[1..]| && entries[1..][i].CallsEntry? && entries[1..][i].shared == l;
          assert entries[i + 1] == entries[1..][i];
        }
      }
    }
  }

  /** A tool call that ran: the call, its decoded arguments and the session's result. */
  datatype Step = Step(call: ToolCall, args: Json, result: CallResult)

  /** Running the calls of one reply in order: the calls that completed, the error of the
      first one that did not, and how many calls were put on the shared list. */
  datatype CallsRun = CallsRun(steps: seq<Step>, failure: Option<ClientError>, announced: nat)

  /** One iteration of the tool-call loop: decode the arguments, then route and call. A
      decoding error comes before the call is put on the shared list, a routing or call
      error after (the flag says which). */
  function ExecCall(reg: Registry, call: ToolCall, decode: string -> Result<Json, string>): Result<Step, (ClientError, bool)>
  {
    match decode(call.arguments)
    case Failure(e) => Failure((ArgumentsNotJson(e), false))
    case Success(args) =>
      match Invoke(reg, call.name, args)
      case Failure(e) => Failure((e, true))
      case Success(result) => Success(Step(call, args, result))
  }

  /** The tool-call loop over `calls`: it stops at the first error, which escapes. */
  function RunCalls(reg: Registry, calls: seq<ToolCall>, decode: string -> Result<Json, string>): (r: CallsRun)
    ensures |r.steps| <= |calls|
    ensures r.failure.None? ==> |r.steps| == |calls| && r.announced == |calls|
    ensures r.failure.Some? ==> |r.steps| < |calls| && |r.steps| <= r.announced <= |r.steps| + 1
  {
    if calls == [] then CallsRun([], None, 0)
    else
      var prev := RunCalls(reg, calls[..|calls| - 1], decode);
      if prev.failure.Some? then prev
      else
        match ExecCall(reg, calls[|calls| - 1], decode)
        case Success(step) => CallsRun(prev.steps + [step], None, prev.announced + 1)
        case Failure((e, announced)) => CallsRun(prev.steps, Some(e), prev.announced + (if announced then 1 else 0))
  }

  /** The completed calls are the first ones of the reply, in order, each as its own
      iteration computes it; a failure is the error of the call right after them, and
      that call is on the shared list exactly when its arguments decoded. */
  lemma RunCallsSteps(reg: Registry, calls: seq<ToolCall>, decode: string -> Result<Json, string>)
    ensures var r := RunCalls(reg, calls, decode);
            forall k :: 0 <= k < |r.steps| ==> ExecCall(reg, calls[k], decode) == Success(r.steps[k])
  {
    forall k | 0 <= k < |RunCalls(reg, calls, decode).steps|
      ensures ExecCall(reg, calls[k], decode) == Success(RunCalls(reg, calls, decode).steps[k])
    {
      RunCallsStepAt(reg, calls, decode, k);
    }
  }

  lemma {:induction false} RunCallsStepAt(reg: Registry, calls: seq<ToolCall>, decode: string -> Result<Json, string>, k: nat)
    requires k < |RunCalls(reg, calls, decode).steps|
    ensures ExecCall(reg, calls[k], decode) == Success(RunCalls(reg, calls, decode).steps[k])
    decreases |calls|
  {
    var init := calls[..|calls| - 1];
    var prev := RunCalls(reg, init, decode);
    var r := RunCalls(reg, calls, decode);
    if k < |prev.steps| {
      RunCallsStepAt(reg, init, decode, k);
      assert calls[k] == init[k];
      assert r.steps[k] == prev.steps[k];
    } else {
      var last := ExecCall(reg, calls[|calls| - 1], decode);
      assert prev.failure.None? && last.Success?;
      assert r.steps == prev.steps + [last.value];
      assert k == |init|;
    }
  }

  lemma {:induction false} RunCallsFailure(reg: Registry, calls: seq<ToolCall>, decode: string -> Result<Json, string>)
    ensures var r := RunCalls(reg, calls, decode);
            r.failure.Some? ==>
              && ExecCall(reg, calls[|r.steps|], decode).Failure?
              && r.failure.value == ExecCall(reg, calls[|r.steps|], decode).error.0
              && r.announced == |r.steps| + (if ExecCall(reg, calls[|r.steps|], decode).error.1 then 1 else 0)
    decreases |calls|
  {
    if calls != [] {
      var init := calls[..|calls| - 1];
      RunCallsFailure(reg, init, decode);
      var prev := RunCalls(reg, init, decode);
      if prev.failure.Some? {
        assert calls[|prev.steps|] == init[|prev.steps|];
      }
    }
  }

  /** The completed calls and the failure together. */
  lemma RunCallsSpec(reg: Registry, calls: seq<ToolCall>, decode: string -> Result<Json, string>)
    ensures var r := RunCalls(reg, calls, decode);
            && (forall k :: 0 <= k < |r.steps| ==> ExecCall(reg, calls[k], decode) == Success(r.steps[k]))
            && (r.failure.Some? ==>
                  && ExecCall(reg, calls[|r.steps|], decode).Failure?
                  && r.failure.value == ExecCall(reg, calls[|r.steps|], decode).error.0
                  && r.announced == |r.steps| + (if ExecCall(reg, calls[|r.steps|], decode).error.1 then 1 else 0))
  {
    RunCallsSteps(reg, calls, decode);
    RunCallsFailure(reg, calls, decode);
  }

  /** Once a call has failed, the later calls change nothing: they never run. */
  lemma {:induction false} RunCallsStops(reg: Registry, calls: seq<ToolCall>, decode: string -> Result<Json, string>, i: nat)
    requires i < |calls| && RunCalls(reg, calls[..i + 1], decode).failure.Some?
    ensures RunCalls(reg, calls, decode) == RunCalls(reg, calls[..i + 1], decode)
    decreases |calls|
  {
    if i + 1 < |calls| {
      var init := calls[..|calls| - 1];
      assert init[..i + 1] == calls[..i + 1];
      RunCallsStops(reg, init, decode, i);
    } else {
      assert calls[..i + 1] == calls;
    }
  }

  lemma RunCallsSnoc(reg: Registry, calls: seq<ToolCall>, decode: string -> Result<Json, string>, i: nat)
    requires i < |calls|
    ensures RunCalls(reg, calls[..i + 1], decode)
            == var prev := RunCalls(reg, calls[..i], decode);
               if prev.failure.Some? then prev
               else match ExecCall(reg, calls[i], decode)
                 case Success(step) => CallsRun(prev.steps + [step], None, prev.announced + 1)
                 case Failure((e, announced)) => CallsRun(prev.steps, Some(e), prev.announced + (if announced then 1 else 0))
  {
    assert calls[..i + 1][..i] == calls[..i];
  }

  /** The transcript entries of the completed calls: per call, the assistant entry on the
      shared list and the tool entry. */
  function PairEntries(steps: seq<Step>, text: string, l: CallList, render: seq<TextContent> -> string): seq<Entry>
  {
    if steps == [] then []
    else
      var s := steps[|steps| - 1];
      PairEntries(steps[..|steps| - 1], text, l, render)
      + [CallsEntry(text, l), ToolEntry(s.call.id, render(s.result.content))]
  }

  /** The transcript messages of the completed calls, the shared list reading `shared`. */
  function Pairs(steps: seq<Step>, text: string, shared: seq<ToolCall>, render: seq<TextContent> -> string): (r: seq<Message>)
    ensures |r| == 2 * |steps|
  {
    if steps == [] then []
    else
      var s := steps[|steps| - 1];
      Pairs(steps[..|steps| - 1], text, shared, render)
      + [AssistantCalls(text, shared), ToolMessage(s.call.id, render(s.result.content))]
  }

  /** The history sent to the model after the calls: per call, an assistant message with
      that one call and its tool message. */
  function Exchange(steps: seq<Step>, text: string, render: seq<TextContent> -> string): (r: seq<Message>)
    ensures |r| == 2 * |steps|
  {
    if steps == [] then []
    else
      var s := steps[|steps| - 1];
      Exchange(steps[..|steps| - 1], text, render)
      + [AssistantCalls(text, [s.call]), ToolMessage(s.call.id, render(s.result.content))]
  }

  /** Pair k of the transcript: an assistant message showing the shared list, then the
      tool message answering call k. */
  lemma {:induction false} PairsAt(steps: seq<Step>, text: string, shared: seq<ToolCall>, render: seq<TextContent> -> string)
    ensures forall k :: 0 <= k < |steps| ==>
              && Pairs(steps, text, shared, render)[2 * k] == AssistantCalls(text, shared)
              && Pairs(steps, text, shared, render)[2 * k + 1] == ToolMessage(steps[k].call.id, render(steps[k].result.content))
    decreases |steps|
  {
    if steps != [] {
      var init := steps[..|steps| - 1];
      PairsAt(init, text, shared, render);
      assert forall k :: 0 <= k < |init| ==> init[k] == steps[k];
    }
  }

  /** Pair k of the history sent back to the model: an assistant message with call k
      alone, then the tool message answering it. */
  lemma {:induction false} ExchangeAt(steps: seq<Step>, text: string, render: seq<TextContent> -> string)
    ensures forall k :: 0 <= k < |steps| ==>
              && Exchange(steps, text, render)[2 * k] == AssistantCalls(text, [steps[k].call])
              && Exchange(steps, text, render)[2 * k + 1] == ToolMessage(steps[k].call.id, render(steps[k].result.content))
    decreases |steps|
  {
    if steps != [] {
      var init := steps[..|steps| - 1];
      ExchangeAt(init, text, render);
      assert forall k :: 0 <= k < |init| ==> init[k] == steps[k];
    }
  }

  /** The entries of the completed calls refer to the one shared list, and read as the
      pairs over what that list holds. */
  lemma {:induction false} ViewPairEntries(steps: seq<Step>, text: string, l: CallList, render: seq<TextContent> -> string)
    ensures SharedLists(PairEntries(steps, text, l, render)) <= {l}
    ensures View(PairEntries(steps, text, l, render)) == Pairs(steps, text, l.calls, render)
    decreases |steps|
  {
    if steps != [] {
      var init := steps[..|steps| - 1];
      var s := steps[|steps| - 1];
      var tail := [CallsEntry(text, l), ToolEntry(s.call.id, render(s.result.content))];
      ViewPairEntries(init, text, l, render);
      SharedListsAppend(PairEntries(init, text, l, render), tail);
      ViewAppend(PairEntries(init, text, l, render), tail);
      assert tail[1..][1..] == [];
      assert SharedLists(tail[1..]) == {} && View(tail[1..]) == [ToolMessage(s.call.id, render(s.result.content))];
      assert SharedLists(tail) == {l} && View(tail) == [AssistantCalls(text, l.calls), ToolMessage(s.call.id, render(s.result.content))];
    }
  }

  /** The piece of the returned text for one call. */
  function CallText(name: string, args: Json, show: Json -> string): (r: string)
    ensures r != ""
  {
    "[Calling tool " + name + " with args " + show(args) + "]"
  }

  function CallTexts(steps: seq<Step>, show: Json -> string): (r: seq<Option<string>>)
    ensures |r| == |steps|
  {
    if steps == [] then []
    else CallTexts(steps[..|steps| - 1], show) + [Some(CallText(steps[|steps| - 1].call.name, steps[|steps| - 1].args, show))]
  }

  /** Piece k is the text of call k. */
  lemma {:induction false} CallTextsAt(steps: seq<Step>, show: Json -> string)
    ensures forall k :: 0 <= k < |steps| ==> CallTexts(steps, show)[k] == Some(CallText(steps[k].call.name, steps[k].args, show))
    decreases |steps|
  {
    if steps != [] {
      var init := steps[..|steps| - 1];
      CallTextsAt(init, show);
      assert forall k :: 0 <= k < |init| ==> init[k] == steps[k];
    }
  }

  /** `filter(None, pieces)`: the pieces that are neither None nor "". */
  function Present(pieces: seq<Option<string>>): (r: seq<string>)
    ensures |r| <= |pieces|
    ensures forall k :: 0 <= k < |r| ==> r[k] != ""
  {
    if pieces == [] then []
    else
      var p := pieces[|pieces| - 1];
      Present(pieces[..|pieces| - 1]) + (if p.Some? && p.value != "" then [p.value] else [])
  }

  /** Pieces that are all present pass the filter unchanged. */
  lemma {:induction false} PresentAll(pieces: seq<Option<string>>)
    requires forall k :: 0 <= k < |pieces| ==> pieces[k].Some? && pieces[k].value != ""
    ensures |Present(pieces)| == |pieces|
    ensures forall k :: 0 <= k < |pieces| ==> Present(pieces)[k] == pieces[k].value
    decreases |pieces|
  {
    if pieces != [] {
      PresentAll(pieces[..|pieces| - 1]);
    }
  }

  lemma PresentSnoc(pieces: seq<Option<string>>, p: Option<string>)
    ensures Present(pieces + [p]) == Present(pieces) + (if p.Some? && p.value != "" then [p.value] else [])
  {
    assert (pieces + [p])[..|pieces|] == pieces;
  }

  /** What one turn does: the histories sent to the model, the messages the transcript
      grows by, and the returned text or the error that escapes. */
  datatype TurnOutcome = TurnOutcome(requests: seq<seq<Message>>, log: seq<Message>, result: Result<string, ClientError>)

  /** The reference definition of `process_query` on a transcript reading `history`. */
  function Turn(history: seq<Message>, reg: Registry, query: string,
                llm: (seq<Message>, seq<CatalogEntry>) -> Reply, decode: string -> Result<Json, string>,
                show: Json -> string, render: seq<TextContent> -> string): TurnOutcome
  {
    var messages := history + [UserMessage(query)];
    var catalog := Catalog(reg);
    if catalog == [] then
      TurnOutcome([], [UserMessage(query), AssistantMessage(Some("No tools available"))], Success("No tools available"))
    else
      var reply := llm(messages, catalog);
      if reply.toolCalls == [] then
        TurnOutcome([messages], [UserMessage(query), AssistantMessage(reply.content)],
                    Success(Text.Join("\n", Present([reply.content]))))
      else CallsTurn(messages, query, reg, reply, llm, decode, show, render)
  }

  /** The tool-call branch of `process_query`: run the calls, then ask the model again
      with the per-call exchange unless a call failed. */
  function CallsTurn(messages: seq<Message>, query: string, reg: Registry, reply: Reply,
                     llm: (seq<Message>, seq<CatalogEntry>) -> Reply, decode: string -> Result<Json, string>,
                     show: Json -> string, render: seq<TextContent> -> string): TurnOutcome
  {
    var text := reply.content.GetOr("");
    var run := RunCalls(reg, reply.toolCalls, decode);
    var pairs := Pairs(run.steps, text, reply.toolCalls[..run.announced], render);
    if run.failure.Some? then
      TurnOutcome([messages], [UserMessage(query)] + pairs, Failure(run.failure.value))
    else
      var followUp := llm(messages + Exchange(run.steps, text, render), Catalog(reg));
      TurnOutcome([messages, messages + Exchange(run.steps, text, render)],
                  [UserMessage(query)] + pairs + [AssistantMessage(followUp.content)],
                  Success(Text.Join("\n", Present(CallTexts(run.steps, show) + [followUp.content]))))
  }

  /** A turn without tool calls grows the transcript by the user message and one
      assistant message; with an empty catalog the model is not asked at all. */
  lemma TurnWithoutCalls(history: seq<Message>, reg: Registry, query: string,
                         llm: (seq<Message>, seq<CatalogEntry>) -> Reply, decode: string -> Result<Json, string>,
                         show: Json -> string, render: seq<TextContent> -> string)
    ensures var o := Turn(history, reg, query, llm, decode, show, render);
            && (ToolCount(reg) == 0 ==>
                  && o.requests == []
                  && o.log == [UserMessage(query), AssistantMessage(Some("No tools available"))]
                  && o.result == Success("No tools available"))
            && (Catalog(reg) != [] && llm(history + [UserMessage(query)], Catalog(reg)).toolCalls == [] ==>
                  var reply := llm(history + [UserMessage(query)], Catalog(reg));
                  && o.requests == [history + [UserMessage(query)]]
                  && o.log == [UserMessage(query), AssistantMessage(reply.content)]
                  && o.result == Success(if reply.content.Some? then reply.content.value else ""))
  {
    CatalogLength(reg);
    var reply := llm(history + [UserMessage(query)], Catalog(reg));
    if reply.content.Some? && reply.content.value != "" {
      assert [reply.content][..0] == [];
    }
  }

  /** A turn whose K tool calls all complete: the transcript grows by the user message,
      K pairs of an assistant message and the tool message answering call k, and one
      final assistant message. Every assistant message of the turn shows the one shared
      list, which holds all K calls. The model is asked twice, the second time with the
      per-call exchange appended. */
  lemma TurnWithCalls(history: seq<Message>, reg: Registry, query: string,
                      llm: (seq<Message>, seq<CatalogEntry>) -> Reply, decode: string -> Result<Json, string>,
                      show: Json -> string, render: seq<TextContent> -> string)
    requires Catalog(reg) != []
    requires var reply := llm(history + [UserMessage(query)], Catalog(reg));
             reply.toolCalls != [] && RunCalls(reg, reply.toolCalls, decode).failure.None?
    ensures var o := Turn(history, reg, query, llm, decode, show, render);
            var messages := history + [UserMessage(query)];
            var reply := llm(messages, Catalog(reg));
            var calls := reply.toolCalls;
            var steps := RunCalls(reg, calls, decode).steps;
            && |o.log| == 2 * |calls| + 2
            && o.log[0] == UserMessage(query)
            && (forall k :: 0 <= k < |calls| ==>
                  && o.log[2 * k + 1] == AssistantCalls(reply.content.GetOr(""), calls)
                  && o.log[2 * k + 2].ToolMessage? && o.log[2 * k + 2].toolCallId == calls[k].id)
            && o.log[2 * |calls| + 1] == AssistantMessage(llm(o.requests[1], Catalog(reg)).content)
            && |o.requests| == 2 && o.requests[0] == messages
            && o.requests[1] == messages + Exchange(steps, reply.content.GetOr(""), render)
            && o.result.Success?
  {
    CatalogLength(reg);
    var messages := history + [UserMessage(query)];
    var reply := llm(messages, Catalog(reg));
    var calls := reply.toolCalls;
    var run := RunCalls(reg, calls, decode);
    var text := reply.content.GetOr("");
    StepCalls(reg, calls, decode);
    CallsCompleted(messages, query, reg, reply, llm, decode, show, render, run.steps);
    var o := Turn(history, reg, query, llm, decode, show, render);
    assert o == CallsTurn(messages, query, reg, reply, llm, decode, show, render);
    var final := AssistantMessage(llm(o.requests[1], Catalog(reg)).content);
    TurnLogPairs(query, run.steps, text, calls, [final], calls, render);
  }

  /** The completed calls are the first calls of the reply. */
  lemma StepCalls(reg: Registry, calls: seq<ToolCall>, decode: string -> Result<Json, string>)
    ensures var r := RunCalls(reg, calls, decode);
            forall k :: 0 <= k < |r.steps| ==> r.steps[k].call == calls[k]
  {
    RunCallsSteps(reg, calls, decode);
  }

  /** The transcript of a turn: the user message, the pairs of the completed calls, whose
      tool messages answer the reply's calls in order, and what follows them. */
  lemma TurnLogPairs(query: string, steps: seq<Step>, text: string, shared: seq<ToolCall>, tail: seq<Message>,
                     calls: seq<ToolCall>, render: seq<TextContent> -> string)
    requires |steps| <= |calls|
    requires forall k :: 0 <= k < |steps| ==> steps[k].call == calls[k]
    ensures var log := [UserMessage(query)] + Pairs(steps, text, shared, render) + tail;
            && |log| == 2 * |steps| + 1 + |tail|
            && log[0] == UserMessage(query)
            && (forall k :: 0 <= k < |steps| ==>
                  && log[2 * k + 1] == AssistantCalls(text, shared)
                  && log[2 * k + 2].ToolMessage? && log[2 * k + 2].toolCallId == calls[k].id)
            && (forall i :: 0 <= i < |tail| ==> log[2 * |steps| + 1 + i] == tail[i])
  {
    var pairs := Pairs(steps, text, shared, render);
    var log := [UserMessage(query)] + pairs + tail;
    PairsAt(steps, text, shared, render);
    InLog(UserMessage(query), pairs, tail);
    forall k | 0 <= k < |steps|
      ensures log[2 * k + 1] == AssistantCalls(text, shared)
      ensures log[2 * k + 2].ToolMessage? && log[2 * k + 2].toolCallId == calls[k].id
    {
      assert log[2 * k + 1] == pairs[2 * k] && log[2 * k + 2] == pairs[2 * k + 1];
    }
  }

  /** Where the messages of the calls sit in the transcript of a turn. */
  lemma InLog(head: Message, pairs: seq<Message>, tail: seq<Message>)
    ensures |[head] + pairs + tail| == 1 + |pairs| + |tail|
    ensures forall i :: 0 <= i < |pairs| ==> ([head] + pairs + tail)[i + 1] == pairs[i]
    ensures forall i :: 0 <= i < |tail| ==> ([head] + pairs + tail)[|pairs| + 1 + i] == tail[i]
  {
  }

  /** The text a completed turn returns: the call pieces in call order and then the final
      reply unless it is None or "", joined by line breaks. */
  lemma TurnResultText(history: seq<Message>, reg: Registry, query: string,
                       llm: (seq<Message>, seq<CatalogEntry>) -> Reply, decode: string -> Result<Json, string>,
                       show: Json -> string, render: seq<TextContent> -> string)
    requires Catalog(reg) != []
    requires var reply := llm(history + [UserMessage(query)], Catalog(reg));
             reply.toolCalls != [] && RunCalls(reg, reply.toolCalls, decode).failure.None?
    ensures var o := Turn(history, reg, query, llm, decode, show, render);
            var steps := RunCalls(reg, llm(history + [UserMessage(query)], Catalog(reg)).toolCalls, decode).steps;
            var final := llm(o.requests[1], Catalog(reg)).content;
            var pieces := seq(|steps|, k requires 0 <= k < |steps| => CallText(steps[k].call.name, steps[k].args, show));
            o.result == Success(Text.Join("\n", pieces + (if final.Some? && final.value != "" then [final.value] else [])))
  {
    CatalogLength(reg);
    var o := Turn(history, reg, query, llm, decode, show, render);
    var steps := RunCalls(reg, llm(history + [UserMessage(query)], Catalog(reg)).toolCalls, decode).steps;
    var final := llm(o.requests[1], Catalog(reg)).content;
    PresentCallTexts(steps, final, show);
  }

  /** The pieces of the result text of completed calls and a final reply. */
  lemma PresentCallTexts(steps: seq<Step>, final: Option<string>, show: Json -> string)
    ensures Present(CallTexts(steps, show) + [final])
            == seq(|steps|, k requires 0 <= k < |steps| => CallText(steps[k].call.name, steps[k].args, show))
               + (if final.Some? && final.value != "" then [final.value] else [])
  {
    PresentCallPieces(steps, show);
    PresentSnoc(CallTexts(steps, show), final);
  }

  lemma PresentCallPieces(steps: seq<Step>, show: Json -> string)
    ensures Present(CallTexts(steps, show))
            == seq(|steps|, k requires 0 <= k < |steps| => CallText(steps[k].call.name, steps[k].args, show))
  {
    CallTextsAt(steps, show);
    PresentAll(CallTexts(steps, show));
  }

  /** A turn whose call k fails: the error escapes, the model is not asked again, and the
      transcript keeps the user message and the pairs of the k calls before it, whose
      assistant messages show the shared list with the calls put on it so far (call k
      included when it failed after decoding). */
  lemma TurnWithError(history: seq<Message>, reg: Registry, query: string,
                      llm: (seq<Message>, seq<CatalogEntry>) -> Reply, decode: string -> Result<Json, string>,
                      show: Json -> string, render: seq<TextContent> -> string)
    requires Catalog(reg) != []
    requires var reply := llm(history + [UserMessage(query)], Catalog(reg));
             reply.toolCalls != [] && RunCalls(reg, reply.toolCalls, decode).failure.Some?
    ensures var o := Turn(history, reg, query, llm, decode, show, render);
            var reply := llm(history + [UserMessage(query)], Catalog(reg));
            var calls := reply.toolCalls;
            var run := RunCalls(reg, calls, decode);
            var k := |run.steps|;
            && k < |calls|
            && ExecCall(reg, calls[k], decode).Failure?
            && o.result == Failure(ExecCall(reg, calls[k], decode).error.0)
            && (decode(calls[k].arguments).Failure? ==> o.result == Failure(ArgumentsNotJson(decode(calls[k].arguments).error)))
            && o.requests == [history + [UserMessage(query)]]
            && |o.log| == 2 * k + 1 && o.log[0] == UserMessage(query)
            && (forall j :: 0 <= j < k ==>
                  && o.log[2 * j + 1] == AssistantCalls(reply.content.GetOr(""), calls[..run.announced])
                  && o.log[2 * j + 2].ToolMessage? && o.log[2 * j + 2].toolCallId == calls[j].id)
            && run.announced == (if decode(calls[k].arguments).Failure? then k else k + 1)
  {
    CatalogLength(reg);
    var messages := history + [UserMessage(query)];
    var reply := llm(messages, Catalog(reg));
    var calls := reply.toolCalls;
    var run := RunCalls(reg, calls, decode);
    RunCallsFailure(reg, calls, decode);
    StepCalls(reg, calls, decode);
    CallsStopped(messages, query, reg, reply, llm, decode, show, render, run.steps, run.failure.value, run.announced);
    var o := Turn(history, reg, query, llm, decode, show, render);
    assert o == CallsTurn(messages, query, reg, reply, llm, decode, show, render);
    TurnLogPairs(query, run.steps, reply.content.GetOr(""), calls[..run.announced], [], calls, render);
    assert o.log == [UserMessage(query)] + Pairs(run.steps, reply.content.GetOr(""), calls[..run.announced], render) + [];
  }

  /** The tool-call branch when call k fails, stated outright from the run of the calls. */
  lemma CallsStopped(messages: seq<Message>, query: string, reg: Registry, reply: Reply,
                     llm: (seq<Message>, seq<CatalogEntry>) -> Reply, decode: string -> Result<Json, string>,
                     show: Json -> string, render: seq<TextContent> -> string,
                     steps: seq<Step>, e: ClientError, announced: nat)
    requires RunCalls(reg, reply.toolCalls, decode) == CallsRun(steps, Some(e), announced)
    ensures CallsTurn(messages, query, reg, reply, llm, decode, show, render)
            == TurnOutcome([messages],
                           [UserMessage(query)] + Pairs(steps, reply.content.GetOr(""), reply.toolCalls[..announced], render),
                           Failure(e))
  {
  }

  /** The tool-call branch when every call completes, stated outright from the run of
      the calls. */
  lemma CallsCompleted(messages: seq<Message>, query: string, reg: Registry, reply: Reply,
                       llm: (seq<Message>, seq<CatalogEntry>) -> Reply, decode: string -> Result<Json, string>,
                       show: Json -> string, render: seq<TextContent> -> string,
                       steps: seq<Step>)
    requires RunCalls(reg, reply.toolCalls, decode) == CallsRun(steps, None, |reply.toolCalls|)
    ensures var text := reply.content.GetOr("");
            var followUp := llm(messages + Exchange(steps, text, render), Catalog(reg));
            CallsTurn(messages, query, reg, reply, llm, decode, show, render)
            == TurnOutcome([messages, messages + Exchange(steps, text, render)],
                           [UserMessage(query)] + Pairs(steps, text, reply.toolCalls, render) + [AssistantMessage(followUp.content)],
                           Success(Text.Join("\n", Present(CallTexts(steps, show) + [followUp.content]))))
  {
    assert reply.toolCalls[..|reply.toolCalls|] == reply.toolCalls;
  }

  /** The transcript during a turn: the earlier entries, the user entry and the entries
      of the completed calls, which read the shared list as it is now. */
  lemma TranscriptView(prior: seq<Entry>, query: string, steps: seq<Step>, text: string, l: CallList,
                       render: seq<TextContent> -> string)
    ensures View(prior + [UserEntry(query)] + PairEntries(steps, text, l, render))
            == View(prior) + ([UserMessage(query)] + Pairs(steps, text, l.calls, render))
  {
    var pairs := PairEntries(steps, text, l, render);
    ViewPairEntries(steps, text, l, render);
    ViewAppend(prior, [UserEntry(query)]);
    ViewAppend(prior + [UserEntry(query)], pairs);
    assert [UserEntry(query)][1..] == [];
  }

  /** ... and with the final assistant entry after them. */
  lemma FinalTranscriptView(prior: seq<Entry>, query: string, steps: seq<Step>, text: string, l: CallList,
                            render: seq<TextContent> -> string, final: Option<string>)
    ensures View(prior + [UserEntry(query)] + PairEntries(steps, text, l, render) + [AssistantEntry(final)])
            == View(prior) + ([UserMessage(query)] + Pairs(steps, text, l.calls, render) + [AssistantMessage(final)])
  {
    TranscriptView(prior, query, steps, text, l, render);
    ViewAppend(prior + [UserEntry(query)] + PairEntries(steps, text, l, render), [AssistantEntry(final)]);
    assert [AssistantEntry(final)][1..] == [];
  }

  /** The transcript after a turn without tool calls. */
  lemma PlainTurnView(prior: seq<Entry>, query: string, reply: Option<string>)
    ensures View(prior + [UserEntry(query)] + [AssistantEntry(reply)])
            == View(prior) + [UserMessage(query), AssistantMessage(reply)]
  {
    var added := [UserEntry(query), AssistantEntry(reply)];
    assert prior + [UserEntry(query)] + [AssistantEntry(reply)] == prior + added;
    ViewAppend(prior, added);
    assert added[1..][1..] == [];
    assert View(added[1..]) == [AssistantMessage(reply)];
    assert View(added) == [UserMessage(query), AssistantMessage(reply)];
  }

  /** One more call completes: the run of the calls so far grows by its step. */
  lemma RunCallsStep(reg: Registry, calls: seq<ToolCall>, decode: string -> Result<Json, string>, i: nat,
                     steps: seq<Step>, args: Json, result: CallResult)
    requires i < |calls| && RunCalls(reg, calls[..i], decode) == CallsRun(steps, None, i)
    requires decode(calls[i].arguments) == Success(args) && Invoke(reg, calls[i].name, args) == Success(result)
    ensures RunCalls(reg, calls[..i + 1], decode) == CallsRun(steps + [Step(calls[i], args, result)], None, i + 1)
  {
    RunCallsSnoc(reg, calls, decode, i);
  }

  /** Call i fails: the run ends with its error, after the steps of the calls before it. */
  lemma RunCallsFailsAt(reg: Registry, calls: seq<ToolCall>, decode: string -> Result<Json, string>, i: nat,
                        steps: seq<Step>, e: ClientError, announced: nat)
    requires i < |calls| && RunCalls(reg, calls[..i], decode) == CallsRun(steps, None, i)
    requires || (decode(calls[i].arguments).Failure? && e == ArgumentsNotJson(decode(calls[i].arguments).error) && announced == i)
             || (decode(calls[i].arguments).Success? && Invoke(reg, calls[i].name, decode(calls[i].arguments).value) == Failure(e)
                 && announced == i + 1)
    ensures RunCalls(reg, calls, decode) == CallsRun(steps, Some(e), announced)
  {
    RunCallsSnoc(reg, calls, decode, i);
    RunCallsStops(reg, calls, decode, i);
  }

  /** The entries, the history for the model and the text pieces once one more call has
      completed. */
  lemma StepSnoc(steps: seq<Step>, step: Step, text: string, l: CallList,
                 show: Json -> string, render: seq<TextContent> -> string)
    ensures PairEntries(steps + [step], text, l, render)
            == PairEntries(steps, text, l, render) + [CallsEntry(text, l), ToolEntry(step.call.id, render(step.result.content))]
    ensures Exchange(steps + [step], text, render)
            == Exchange(steps, text, render) + [AssistantCalls(text, [step.call]), ToolMessage(step.call.id, render(step.result.content))]
    ensures CallTexts(steps + [step], show) == CallTexts(steps, show) + [Some(CallText(step.call.name, step.args, show))]
  {
    assert (steps + [step])[..|steps|] == steps;
  }

  lemma TakeAll<T>(s: seq<T>)
    ensures s[..|s|] == s
  {
  }

  lemma TakeSnoc<T>(s: seq<T>, i: nat)
    requires i < |s|
    ensures s[..i + 1] == s[..i] + [s[i]]
  {
  }
}
