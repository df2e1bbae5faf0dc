# end2end-mcp in Dafny

This project models the chat clients and the small MCP servers of end2end-mcp, and proves properties of that model.

**The multi-server client** (`client/client.py`, class `MCPClient`) is the core. It is modelled as a Dafny class. Its fields are:

- the configuration;
- the sessions, as (server name, session) pairs in insertion order, like a Python dict;
- the current conversation.

The model covers these operations:

- `get_all_tools`, which merges the catalog;
- `_connect_to_single_server`: the environment overlay, the launch parameters and registration;
- `call_tool`, which routes a qualified or bare tool name to a session;
- `process_query`, one turn of the transcript with at most two model calls;
- `_clear_current_conversation`;
- the dispatch of `chat_loop`.

Two parts of the outside world become parameters:

- The model is a function from the history and the catalog to a reply, which has a text and an ordered list of tool calls.
- A session is its tool listing plus a call function that returns a result or fails with a message.

**The transcript and the shared list.** The assistant entry that `process_query` appends for each tool call is a shallow copy of one dict (`assistant_response_with_tools.copy()`). All these copies share one `tool_calls` list, which keeps growing during the turn. The model keeps that list as a heap object, `ClientConversation.CallList`. A transcript entry with tool calls refers to it, and `ClientConversation.View` reads the transcript as messages, each shared list as it is now. The methods of the class are proved against `ClientConversation.Turn`, a reference definition of one turn on values. The lemmas about `Turn` state the shape of the transcript, the returned text and the error cases.

**The secondary cores** are modelled too:

- **The single-server client** (`client.py`): `serialize_text_content`, `get_tools` and `process_query`. A fresh history is built for each query, only the first tool call runs, and the result is joined with the literal two characters backslash and n.
- **The prompt and tool handlers of the trading server** (`src/need-client-integrate/server.py`). The prompt table of `src/need-client-integrate/prompts.py` is embedded.
- **The customer look-ups and validators** (`src/negg-server/utils.py`). The decoded customer file is a parameter.
- **The deposit-form tools** (`src/negg-server/server.py`). The clock and the decoded form files are parameters.
- **The whitelist filters** of the two trade-record parsers (`server/shioaji-server/parser.py`, `src/shioaji-mcp-openai/parser.py`).

Python values at the JSON boundaries form the datatype `Values.Json`. A `dict` is an association list in insertion order. An exception becomes the `Failure` of a `Result` that carries the exception's message or kind.

**Where the specification and the code differ, the model follows the code.** The differences:

- **Catalog names.** Catalog entries carry the bare tool name, not a qualified one, and duplicate bare names are kept.
- **Re-registration.** Registering a connected name again replaces its session and keeps its place. It is not rejected.
- **Failed listings.** A listing that fails is not skipped. This case is left out, see below.
- **Errors in a turn.** Errors from decoding the arguments, routing a call or making it are not captured into tool results. They escape `process_query`, and `chat_loop` catches and prints them.
- **Timeouts.** There are none.
- **Assistant entries.** A turn with K calls appends K assistant entries, one before each tool message. All of them show the one shared list, which ends up holding all K calls. The transcript does not get a single assistant entry.
- **Empty server name.** When a bare name's first listing session is configured under the name "", the tool is reported as not found (`if not server_name`).

## Model

| member | source | states |
|---|---|---|
| MultiServerClient.MCPClient.constructor | client/client.py:18-23 | The client starts with the configuration it is given, no sessions and an empty conversation. |
| MultiServerClient.MCPClient.GetAllTools | client/client.py:49-67 | The loop's result is exactly the merged catalog `Catalog(sessions)`: session by session, each session's tools in listing order. |
| ClientSessions.CatalogLength | client/client.py:49-67 | The catalog has one entry per listed tool across all sessions. Nothing is merged or dropped, so duplicate names are kept. |
| ClientSessions.CatalogAt | client/client.py:52-65 | Tool j of session i sits at position ToolCount(sessions before i) + j. Its entry has the bare name, the description prefixed by "[server] " (the text "None" for a tool without a description) and the schema unchanged. |
| ClientSessions.CatalogOrigin | client/client.py:52-65 | Every catalog entry describes a tool that some session lists. |
| ClientSessions.EntriesExtendSingleServer | client/client.py:54-64 | A session's catalog entries match the single-server `get_tools` entries of client.py:50-60 except for the "[server] " prefix. |
| ClientSessions.Lookup | client/client.py:126-129 | `self.sessions[name]` is found exactly when the name is registered, and it is the session of the first entry with that name. |
| ClientSessions.RegisterLookup | client/client.py:100 | After `sessions[name] = session`, the name finds the new session and every other name finds what it found before. |
| ClientSessions.RegisterPlace | client/client.py:100 | Re-registering a connected name keeps every server's place. A new name is appended last. |
| ClientSessions.RegisterDistinct | client/client.py:100 | Registration keeps server names distinct, as dict keys are. |
| ClientSessions.FirstListing | client/client.py:115-119 | The result is the first session in insertion order whose listing has the tool, or None when none has it. |
| ClientSessions.Resolve | client/client.py:109-127 | A successful routing always names a registered server. |
| ClientSessions.QualifiedRouting | client/client.py:108-131 | A name with a colon is split at the first colon and no listing is awaited. If that server is not connected, the call fails with "Server ... is not connected". Otherwise the remainder goes to that session. |
| ClientSessions.BareRouting | client/client.py:111-131 | A bare name fails with "not found in any connected server" exactly when no session lists it, or when the first session that lists it is named "". Otherwise the call goes to that first session, and only the sessions up to it have their listing awaited. |
| ClientSessions.BareNotFound | client/client.py:115-124 | This is the failure half of BareRouting, in both directions. |
| ClientSessions.BareFound | client/client.py:115-130 | This is the success half of BareRouting, for the first listing session i. |
| MultiServerClient.MCPClient.FindListing | client/client.py:115-119 | The scan with `break` finds FirstListing and awaits the listings of exactly the sessions up to and including it. |
| MultiServerClient.MCPClient.CallTool | client/client.py:108-131 | The method's result equals the routing-and-call definition `Invoke`. The sessions whose listings it awaited equal `Probed`. |
| ClientSessions.Set | client/client.py:83 | `d[k] = v` on an ordered dict: k then maps to v and every other key is unchanged. |
| ClientSessions.UpdateGet | client/client.py:80-83 | `env.update(items)`: a key the items give gets the value they give it last, and every other key keeps its inherited value. |
| ClientSessions.UpdateGetDistinct | client/client.py:80-83 | With the distinct keys of a decoded JSON object, each overlay key gets its own value. |
| ClientSessions.UpdateItems | client/client.py:83 | `dict.update` takes a dict's items, or a list whose every element is a pair, in order. A pair is a two-element list with a string key, a two-character string, or an object with two keys, which gives the first key with the second key as its value. It rejects anything else, except the cases named under "## Left out". |
| ClientSessions.Environment | client/client.py:80-83 | A missing or falsy `env` leaves the inherited environment unchanged. A server configuration that is not a dict fails. A truthy `env` succeeds exactly when `UpdateItems` takes it, and the result is the inherited environment updated by its items. Otherwise the error is EnvNotUpdatable. |
| ClientSessions.EnvironmentFromPairs | client/client.py:82-83 | An `env` of `[["A", "B"]]` sets A to "B" and leaves every other variable as inherited. |
| ClientSessions.EnvironmentFromObjectPair | client/client.py:82-83 | An `env` of `[{"A": 1, "B": 2}]` also sets A to "B", because the object iterates as its two keys. Every other variable stays as inherited. |
| ClientSessions.LaunchParams | client/client.py:79-89 | Successful launch parameters always carry an environment. |
| ClientSessions.LaunchParamsSpec | client/client.py:79-89 | The launch command is the configured "command". "args" defaults to []. The environment is the inherited one with the configured `env` entries overriding. |
| ClientSessions.Connect | client/client.py:79-99 | A connection succeeds exactly when the configuration yields launch parameters, the session opens and `initialize` does not raise. A configuration error, an opening failure (ConnectFailed) and an `initialize` failure (InitializeFailed) each become the error of the connection. On success the result is the session that was opened. |
| MultiServerClient.MCPClient.ConnectToSingleServer | client/client.py:78-100 | The result is `Connect`. The session is registered under its name only after `initialize` succeeds, and a failure registers nothing. The conversation is untouched and names stay distinct. |
| ClientConversation.RunCalls | client/client.py:160-201 | The calls of a reply run in order and the first error stops the loop. At most one call past the completed ones is on the shared list. |
| ClientConversation.RunCallsSteps | client/client.py:160-183 | Completed step k is call k of the reply, decoded and made as its own iteration would. |
| ClientConversation.RunCallsFailure | client/client.py:160-176 | A failure is the error of the call right after the completed ones. That call is on the shared list exactly when its arguments decoded. |
| ClientConversation.RunCallsSpec | client/client.py:160-201 | RunCallsSteps and RunCallsFailure together. |
| ClientConversation.RunCallsStops | client/client.py:160-176 | Once a call has failed, later calls change nothing: they never run. |
| ClientConversation.PairsAt | client/client.py:192-201 | Transcript pair k holds an assistant message showing the shared list and then the tool message for the tool that call k named. |
| ClientConversation.ExchangeAt | client/client.py:185-199 | History pair k sent back to the model holds an assistant message with call k alone and then its tool message. |
| ClientConversation.ViewPairEntries | client/client.py:155-200 | The entries of one turn's calls refer only to the one shared list, and they read as the pairs over its current contents. |
| ClientConversation.CallTextsAt | client/client.py:183 | Text piece k is "[Calling tool {name} with args {args}]" for completed call k. |
| ClientConversation.CallText | client/client.py:183 | A call's text piece is never empty, so `filter(None, ...)` keeps it. |
| ClientConversation.Present | client/client.py:211 | `filter(None, pieces)` keeps only pieces that are neither None nor "". |
| ClientConversation.PresentAll | client/client.py:211 | Pieces that are all non-empty pass the filter unchanged. |
| ClientConversation.TurnWithoutCalls | client/client.py:133-153 | With an empty catalog the model is not asked. The transcript grows by the user message and "No tools available", and that text is returned. Without tool calls the model is asked once, and the transcript grows by exactly the user message and the assistant message. |
| ClientConversation.TurnWithCalls | client/client.py:133-209 | With K tool calls that all complete, the transcript grows by the user message, K pairs and exactly one final assistant message. Pair k is an assistant message showing all K calls, then the tool message answering call k. The model is asked twice, the second time with the per-call exchange appended. |
| ClientConversation.TurnResultText | client/client.py:183-211 | A completed turn returns the call pieces in call order and then the final reply unless it is None or "", joined by "\n". |
| ClientConversation.TurnWithError | client/client.py:133-201 | A turn whose call k fails (decoding, routing or calling) raises that error without asking the model again. The transcript keeps the user message and the k earlier pairs. Their assistant messages show the calls put on the shared list so far, including call k when its arguments decoded. |
| MultiServerClient.MCPClient.ProcessQuery | client/client.py:133-211 | The sessions are unchanged. The conversation, read through the shared lists, grows by exactly `Turn(...).log`. The returned text or error and the histories sent to the model are those of `Turn`. |
| MultiServerClient.MCPClient.RunToolCalls | client/client.py:154-211 | The tool-call branch grows the conversation by the outcome of `CallsTurn`. |
| MultiServerClient.MCPClient.CallEach | client/client.py:160-201 | After the loop, the run equals `RunCalls`. The shared list holds the calls put on it. The transcript, the history and the text pieces equal PairEntries, Exchange and CallTexts. |
| MultiServerClient.MCPClient.CallOne | client/client.py:161-201 | One iteration either stops with the run's failure, or extends the run, the shared list and the transcript by that call. |
| MultiServerClient.MCPClient.FollowUp | client/client.py:203-211 | After completed calls the model is asked once more, its reply is appended, and the pieces are joined. |
| MultiServerClient.MCPClient.ClearCurrentConversation | client/client.py:225-227 | The conversation becomes empty and the sessions are unchanged. |
| MultiServerClient.Dispatch | client/client.py:232-236 | A line is "exit" or "clear-current" exactly when its stripped, lower-cased form is. Anything else is the stripped query. |
| Text.StripIsTrimmedSlice | client/client.py:232 | `strip()` yields a contiguous slice with only white space cut off at either end, and no white space at its ends. |
| Text.Find | client/client.py:109-110 | The first colon of a name, which `split(":", 1)` splits at. |
| MultiServerClient.ChatStep | client/client.py:234-240 | "exit" ends the loop. "clear-current" empties the transcript and prints the clear notice. |
| MultiServerClient.ChatStopsAtExit | client/client.py:234-235 | Lines after "exit" are never carried out. |
| MultiServerClient.ChatClearForgets | client/client.py:225-237 | After "clear-current" the transcript owes nothing to what came before. |
| MultiServerClient.ChatExtends | client/client.py:229-243 | Without a clear, the transcript only grows. |
| MultiServerClient.Printed | client/client.py:239-243 | A reply is printed after a line break. An error is printed as "Error: " and its message. |
| MultiServerClient.MCPClient.ChatLoop | client/client.py:229-243 | The transcript and the printed outputs are those of the reference `Chat` over the dispatched lines, up to "exit" or the end of input. A query's error is printed and the loop goes on. |
| MultiServerClient.StepOf | client/client.py:232-240 | One pass of the loop body over a command stops the loop exactly for "exit". |
| MultiServerClient.ChatIsChatOver | client/client.py:230-240 | The reference `Chat` is the run of the loop body's steps over the commands, stopping at "exit". |
| MultiServerClient.PassesAtEnd | client/client.py:230-243 | As written, once `input()` has no line left, every pass of `while True` prints "\nError: EOF when reading a line" from the `except` branch, leaves the transcript unchanged and does not leave the loop. |
| MultiServerClient.PassesAfterInput | client/client.py:230-243 | As written, over input without an "exit" line, the first passes do what the reference run over the lines does, one pass per line. Every later pass prints "\nError: EOF when reading a line", and the loop is still running after any number of them. |
| MultiServerClient.EndOfInputNeverExits | client/client.py:230-243 | The loop as written, built from the loop body and an `input()` that raises once its lines are used up, never leaves after the end of input. Each further pass prints "\nError: EOF when reading a line" and leaves the transcript unchanged. |
| MultiServerClient.MCPClient.HandleCommand | client/client.py:236-240 | For one command other than "exit", the state and the printed text are those of `ChatStep`. |
| SingleServerClient.SerializeTextContent | client.py:16-23 | The dict has keys type, text and annotations in that order. Type and text are copied, and annotations are kept, with None becoming "". |
| SingleServerClient.SerializeRoundTrip | client.py:16-23 | Serializing loses nothing unless the annotations are the empty string. |
| SingleServerClient.SerializeMergesEmptyAnnotations | client.py:20-22 | None annotations and "" annotations serialize alike. |
| SingleServerClient.FunctionTools | client.py:50-60 | There is one entry per listed tool, in order, with name, description (None when the tool has none) and input_schema unchanged and no server prefix. |
| SingleServerClient.FunctionToolsInjective | client.py:50-60 | The listing can be read back from the entries. |
| SingleServerClient.MCPClient.constructor | client.py:27-38 | The client starts without a session. |
| SingleServerClient.MCPClient.GetTools | client.py:48-62 | Without a session the call fails. Otherwise the result is the session's listing as function entries. |
| SingleServerClient.MCPClient.ConnectToServer | client.py:64-87 | The server is launched as `python <path>` with env None. The session is kept as soon as it is opened, before `initialize`. |
| SingleServerClient.JoinLiteral | client.py:123 | The join fails exactly when a piece is None. |
| SingleServerClient.TurnShape | client.py:89-123 | The first history is exactly [user query]. Without a tool call the model is asked once, and the result is its content as it is, or the TypeError of the join when the content is None. At most the first tool call runs, and only when its arguments decode. The model is asked twice exactly when that call succeeds, and the second history is the query followed by the tool's result content. |
| SingleServerClient.TurnLiteralSeparator | client.py:109-123 | The two pieces are joined by backslash and n, not by a line break. |
| SingleServerClient.MCPClient.ProcessQuery | client.py:89-123 | The method's result, the histories sent to the model and the calls it made are those of `Turn`. |
| PromptServer.PromptKeysAreNames | src/need-client-integrate/prompts.py:4-37 | Each prompt is stored under its own name. |
| PromptServer.ListPrompts | src/need-client-integrate/server.py:22-24 | `list_prompts` returns the two prompts "analyze-csv" and "trade", in that order. |
| PromptServer.Arg | src/need-client-integrate/server.py:35-55 | `arguments.get(k)` is the stored value, or None when the key is absent. |
| PromptServer.GetPrompt | src/need-client-integrate/server.py:27-72 | A name that is not a key raises "Prompt {name} not found". "trade" succeeds with one user message exactly when all three arguments are truthy, and otherwise raises "Missing arguments...". Every result is one user message. |
| PromptServer.CsvPromptUnreachable | src/need-client-integrate/server.py:27-72 | As written, the listed "analyze-csv" prompt raises "Prompt implemetation not found", and "analyze_csv" raises "Prompt analyze_csv not found". |
| PromptServer.GetPromptIntended | src/need-client-integrate/server.py:31-72 | The corrected handler rejects unknown names the same way, and each result is one user message. |
| PromptServer.IntendedPromptsImplemented | src/need-client-integrate/server.py:31-72 | With the branch corrected, every listed prompt succeeds exactly when all its required arguments are truthy, and the csv prompt has its text. |
| PromptServer.ListTools | src/need-client-integrate/server.py:75-100 | `list_tools` returns exactly two tools, "analyze_csv" and then "trade". |
| PromptServer.ListedRequired | src/need-client-integrate/server.py:75-100 | The schemas require ["csv_path"] and ["stock_id", "price", "quantity"]. |
| PromptServer.CallTool | src/need-client-integrate/server.py:103-138 | Only an unknown tool raises "Tool implementation not found", and every other result is one text item. "analyze_csv" gives "Attempting to read file: {csv_path}", or its error text when the path is falsy. "trade" gives "Placing a long order ...", or its error text when any argument is falsy. |
| PromptServer.ListedToolsImplemented | src/need-client-integrate/server.py:76-138 | `call_tool` succeeds exactly for the names that `list_tools` lists. |
| PromptServer.RequiredArgumentsChecked | src/need-client-integrate/server.py:76-136 | A listed tool reports an error text exactly when one of the arguments its schema requires is missing or falsy. |
| Customers.AccountById | src/negg-server/utils.py:4-10 | The result is the first account, in the table's order, whose record id matches, or None when none matches. The error is that of the first record before any match that has no readable id. |
| Customers.GetAccountById | src/negg-server/utils.py:4-10 | The scan with its early return computes AccountById. |
| Customers.GetInfoByAccount | src/negg-server/utils.py:12-17 | The result is the record stored under the number, or None exactly when the key is absent. |
| Customers.ValidAccount | src/negg-server/utils.py:19-24 | A length other than 14 raises before any look-up. A missing or falsy record raises "帳號錯誤". Success means a truthy record, and the result is always True. |
| Customers.ValidId | src/negg-server/utils.py:26-31 | A length other than 10 raises. An id with no match, or whose first match is stored under the account key "", raises "查無此人:)". Success means a first match with a non-empty account, and the result is always True. |
| Customers.ProcessNotes | src/negg-server/utils.py:33-37 | None or "" gives "". Any other note fails on the undefined `strip`. |
| DepositForms.NewDepositForm | src/negg-server/server.py:12-34 | The checks run in the order id, account, amount > 0, notes, and the first failing one decides the error. On success the form is written to `{applicant_id}_{timestamp}.json` and returned. |
| DepositForms.DepositFormContents | src/negg-server/server.py:31 | The form has exactly the six keys in order, each once, holding the call's values and the processed note. |
| DepositForms.NonEmptyNoteRejectsForm | src/negg-server/server.py:25-28 | A non-empty note always rejects the form. Once the id, account and amount checks pass, the error is the NameError of the undefined `strip`. |
| Customers.ProcessNotesIntended | src/negg-server/utils.py:33-37 | Corrected `process_notes`: it never fails. A falsy note gives "", and any other note gives its text with the leading and trailing white space cut off. |
| DepositForms.NewDepositFormIntended | src/negg-server/server.py:12-34 | With the corrected `process_notes`, the form is built exactly when the id, account and amount checks pass. |
| DepositForms.IntendedFormKeepsNote | src/negg-server/server.py:25-34 | With the corrected `process_notes`, a note no longer rejects the form. The form is filed under the same name and holds the stripped note under 存款備註. Without a note it is the form the code as written files. |
| DepositForms.Header | src/negg-server/server.py:51 | A form's header line can be built exactly when the form has both the service key and the time key. |
| DepositForms.GetFilledFormats | src/negg-server/server.py:44-56 | With no forms the result is "{FORMS_DIR}中沒有{applicant_id}預填的表單". Otherwise it is the blocks of the forms in order, numbered from 0. |
| DepositForms.AppendBody | src/negg-server/server.py:52-55 | The inner loop appends one "\t{k}: {v}\n" line per item except 服務名稱, in the items' order. |
| DepositForms.RenderedStopsAtError | src/negg-server/server.py:49-51 | The first form that cannot be read ends the rendering with its error. |
| DepositForms.DepositFormBlock | src/negg-server/server.py:31-56 | A filed form renders as "i. 台幣存款: {time}" and five body lines in key order, note included, so the time appears in both the header and the body. |
| ShioajiServerParser.ParseContract | server/shioaji-server/parser.py:9-17 | The result has exactly the contract's entries whose key is a contract key, with values unchanged and in the contract's order. It has at most 5 entries, and filtering it again changes nothing. A missing or malformed section raises. |
| ShioajiServerParser.ParseOrder | server/shioaji-server/parser.py:19-20 | The result is None whatever the record holds. |
| ShioajiServerParser.ParseStatus | server/shioaji-server/parser.py:10-25 | The result has exactly the status entries with keys status and msg, in order. It has at most 2 entries, and filtering it again changes nothing. |
| ShioajiServerParser.ParseContractExample | server/shioaji-server/parser.py:12-17 | A contract with an extra key is cut down to its listed keys. |
| ShioajiOpenAIParser.ParseOrder | src/shioaji-mcp-openai/parser.py:9-17 | The result has exactly the order entries with keys action, price and quantity, in order. It has at most 3 entries, and filtering it again changes nothing. |
| ShioajiOpenAIParser.ParseStatus | src/shioaji-mcp-openai/parser.py:10-22 | The result has exactly the status entries with keys status and msg, in order. It has at most 2 entries, and filtering it again changes nothing. |
| ShioajiOpenAIParser.ParseOrderMissingSection | src/shioaji-mcp-openai/parser.py:12-17 | A record without "order" raises KeyError('order'). |
| Values.FilterSection | server/shioaji-server/parser.py:12-25 | The shared dict comprehension keeps exactly the listed keys with their values, in the input's order. Filtering the result again changes nothing, and with distinct keys it has at most as many entries as listed keys. |
| Values.FilterKeysIdempotent | src/shioaji-mcp-openai/parser.py:12-22 | Re-filtering is idempotent. |
| Values.FilterKeysBound | src/shioaji-mcp-openai/parser.py:12-22 | With distinct input keys, the output has at most as many keys as the whitelist. |

## Left out

- **LLM transport.** `get_response` and the choice of provider from environment variables (client/client.py:25-47, client.py:30-46) are foreign calls. The model is the function `llm`.
- **MCP plumbing.** `stdio_client`, `ClientSession`, `AsyncExitStack`, spawning the subprocess, `clean_up`/`cleanup` and the `self.stdio`/`self.write` fields are I/O. Opening a session and `initialize` are the parameters `openSession` and `initialize`.
- **async/await.** It is treated as sequential code. Nothing about concurrency is modelled.
- ClientSessions.Connect: the `list_tools` request and the print after registration (client/client.py:101-106) are left out. It is taken to succeed, because a session's listing is part of the session value.
- **Failing listings.** A `list_tools` request in `get_all_tools` or `call_tool` that fails is not modelled. Listings are values.
- **`connect_to_servers`** (client/client.py:69-76) is a loop of `_connect_to_single_server` over the configured names and is not modelled separately. `list_available_servers` only prints.
- MultiServerClient.MCPClient.ChatLoop: the prompt is the sequence of lines typed, and the loop ends where they end. In the source, `input()` on piped input then raises `EOFError("EOF when reading a line")`, the `except Exception` of client/client.py:242-243 prints "\nError: EOF when reading a line", and the loop goes on forever (see Findings, MultiServerClient.EndOfInputNeverExits). At an interactive terminal, an end of input is one Ctrl-D, printed the same way, and the next `input()` waits for more; that path is not modelled. The print of "Current session conversation cleared" is the output ClearedNotice. A `KeyboardInterrupt` is not modelled.
- ClientSessions.Environment: `dict.update` also takes pairs whose key is a number, a boolean or None, such as `[[1, "x"]]`. The model rejects those. `StdioServerParameters`' own type checks of command, args and env are not modelled.
- ClientSessions.ErrorMessage: `str(e)` of a decoder or session failure is the reason the oracle gives. Configuration errors, which never reach `chat_loop`, have no message.
- **Decoding and `str()`.** `json.loads` is the parameter `decode`. `str()` of decoded arguments, of a result's content and of a form value are the parameters `show` and `render`. `os.environ` is the parameter `environ`.
- ClientConversation.Turn: `hasattr(result, "content")` holds for every session result, so the tool message is `render(result.content)`. The prints inside `process_query` are left out.
- SingleServerClient.MCPClient.ProcessQuery: a reply's content is a string or None and never has a `.text` attribute. So the assistant message of client.py:111-112 is never added. The prints in `get_response` and `connect_to_server` are left out.
- SingleServerClient.MCPClient.ConnectToServer: the `list_tools` request and the print after `initialize` (client.py:84-87) are left out. The request is taken to succeed, because a session's listing is part of the session value.
- **The single-server `chat_loop`** (client.py:125-140) is not modelled. It is a plain read-print loop with "quit".
- Text.Lower: it lower-cases ASCII letters only. This is enough for comparing with "exit" and "clear-current", because no other character lower-cases to an ASCII letter except the Kelvin sign, which gives "k", and neither word has a "k".
- Values.Json: floats are mathematical reals. No float operation is modelled.
- **Broker and CSV code** (server.py, src/shioaji-mcp-openai/server.py, src/need-client-integrate/utils.py, src/shioaji-mcp/) is live brokerage and CSV reading. src/shioaji-mcp-openai/client.py wraps an agents SDK. Configuration reading (client/utils.py, server/shioaji-server/config.py) is file I/O.
- DepositForms.NewDepositForm: `datetime.now()` is the parameter `timestamp`. Writing the file is the returned file name and form.
- DepositForms.GetFilledFormats: the forms on file are a parameter, already decoded, in the sorted order of their names. Errors from `glob` and `json.load` are not modelled.
- **Customer records.** The customer file is a parameter. Each helper re-reads it in the source.
- **Configuration.** It is read once, when the client is constructed.

## Findings

| source | as written | input that shows it | evidently intended | confidence | as-written member | corrected member |
|---|---|---|---|---|---|---|
| src/need-client-integrate/server.py:34 | `get_prompt` tests `prompt_name == "analyze_csv"`, but the prompt is stored and listed under "analyze-csv" (src/need-client-integrate/prompts.py:5). | `get_prompt("analyze-csv", {"csv_path": "a.csv"})` raises "Prompt implemetation not found". `get_prompt("analyze_csv", ...)` raises "Prompt analyze_csv not found". | The branch tests "analyze-csv", so that the listed csv prompt can be fetched. | not executed | PromptServer.CsvPromptUnreachable | PromptServer.IntendedPromptsImplemented |
| client/client.py:230-243 | `chat_loop` catches every `Exception` around `input()`, including the `EOFError` raised once the input has ended. | Piped input without an "exit" line, e.g. a file of queries. After the last line, the loop prints "\nError: EOF when reading a line" over and over and never returns. | The end of input ends the loop, as "exit" does. | not executed | MultiServerClient.EndOfInputNeverExits | MultiServerClient.MCPClient.ChatLoop |
| src/negg-server/utils.py:37 | `process_notes` calls the bare name `strip`, which the module never defines, so any non-empty note raises `NameError`. `new_deposit_form` calls it at src/negg-server/server.py:28, so a deposit with a note is never filed. | `new_deposit_form` with a valid id, account and amount and `notes="cash"` raises `NameError: name 'strip' is not defined`. | `notes.strip()`: the note is kept without surrounding white space. | not executed | DepositForms.NonEmptyNoteRejectsForm | DepositForms.IntendedFormKeepsNote |
