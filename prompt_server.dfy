/** The prompt and tool handlers of the trading MCP server
    (src/need-client-integrate/server.py) over the prompt table of
    src/need-client-integrate/prompts.py. Each handler either returns a value or raises
    `ValueError`, modelled as `Failure` with the exception's message. `str()` of an
    argument inside an f-string is the function `show`. */
module PromptServer {
  import opened Wrappers
  import opened Values
  import opened McpTypes

  /** `PROMPTS`, in its insertion order. Its keys use a hyphen: "analyze-csv". */
  const Prompts: seq<Prompt> := [
    Prompt("analyze-csv", "Analyzes a CSV file containing stock trading info",
           [PromptArgument("csv_path", "Path to the local CSV file", true)]),
    Prompt("trade", "Places a long order for a stock at a specific price and quantity",
           [PromptArgument("stock_id", "Stock ID", true),
            PromptArgument("price", "Price", true),
            PromptArgument("quantity", "Quantity (number of shares)", true)])
  ]

  /** The keys of `PROMPTS`, in order. */
  const PromptKeys: seq<string> := ["analyze-csv", "trade"]

  /** Each prompt is stored under its own name. */
  lemma PromptKeysAreNames()
    ensures |PromptKeys| == |Prompts|
    ensures forall i :: 0 <= i < |Prompts| ==> PromptKeys[i] == Prompts[i].name
  {
  }

  /** `list_prompts`: the values of `PROMPTS`, in order. */
  function ListPrompts(): (r: seq<Prompt>)
    ensures |r| == 2
    ensures r[0].name == "analyze-csv" && r[1].name == "trade"
  {
    Prompts
  }

  /** `arguments.get(k)`: the value, or `None` when the key is absent. */
  function Arg(arguments: Dict, k: string): (r: Json)
    ensures HasKey(arguments, k) ==> Get(arguments, k) == Some(r)
    ensures !HasKey(arguments, k) ==> r == JNull
  {
    Get(arguments, k).GetOr(JNull)
  }

  /** `all([stock_id, price, quantity])` over the three trade arguments. */
  predicate TradeArgsPresent(arguments: Dict)
  {
    Truthy(Arg(arguments, "stock_id")) && Truthy(Arg(arguments, "price")) && Truthy(Arg(arguments, "quantity"))
  }

  /** The trade prompt's text. */
  function TradePromptText(arguments: Dict, show: Json -> string): string
  {
    "Place a long order for stock_id: " + show(Arg(arguments, "stock_id"))
    + ", price: " + show(Arg(arguments, "price"))
    + ", quantity: " + show(Arg(arguments, "quantity"))
  }

  /** The csv prompt's text, built only by a branch that no key of `PROMPTS` reaches. */
  function CsvPromptText(arguments: Dict, show: Json -> string): string
  {
    "Analyze the csv path : " + show(Arg(arguments, "csv_path")) + " into dictionary"
  }

  /** `get_prompt`, as written: a name must be a key of `PROMPTS`; the branches then test
      "analyze_csv" (underscore) and "trade". */
  function GetPrompt(promptName: string, arguments: Dict, show: Json -> string): (r: Result<seq<PromptMessage>, string>)
    ensures promptName !in PromptKeys ==> r == Failure("Prompt " + promptName + " not found")
    ensures promptName == "trade" ==>
              r == (if TradeArgsPresent(arguments)
                    then Success([PromptMessage("user", PlainText(TradePromptText(arguments, show)))])
                    else Failure("Missing arguments: stock_id, price, or quantity"))
    ensures r.Success? ==> |r.value| == 1 && r.value[0].role == "user"
  {
    if promptName !in PromptKeys then Failure("Prompt " + promptName + " not found")
    else if promptName == "analyze_csv" then
      if !Truthy(Arg(arguments, "csv_path")) then Failure("Missing argument: csv_path")
      else Success([PromptMessage("user", PlainText(CsvPromptText(arguments, show)))])
    else if promptName == "trade" then
      if !TradeArgsPresent(arguments) then Failure("Missing arguments: stock_id, price, or quantity")
      else Success([PromptMessage("user", PlainText(TradePromptText(arguments, show)))])
    else Failure("Prompt implemetation not found")
  }

  /** As written, the csv prompt that `list_prompts` advertises can never be fetched:
      its own name reaches no branch, and the branch's name is not a key. */
  lemma CsvPromptUnreachable(arguments: Dict, show: Json -> string)
    ensures ListPrompts()[0].name == "analyze-csv"
    ensures GetPrompt("analyze-csv", arguments, show) == Failure("Prompt implemetation not found")
    ensures GetPrompt("analyze_csv", arguments, show) == Failure("Prompt analyze_csv not found")
  {
    assert "analyze-csv"[7] != "analyze_csv"[7];
    assert "analyze_csv" !in PromptKeys;
    assert "Prompt " + "analyze_csv" + " not found" == "Prompt analyze_csv not found";
  }

  /** `get_prompt` with its first branch testing the key under which `PROMPTS` stores
      the csv prompt. */
  function GetPromptIntended(promptName: string, arguments: Dict, show: Json -> string): (r: Result<seq<PromptMessage>, string>)
    ensures promptName !in PromptKeys ==> r == Failure("Prompt " + promptName + " not found")
    ensures r.Success? ==> |r.value| == 1 && r.value[0].role == "user"
  {
    if promptName !in PromptKeys then Failure("Prompt " + promptName + " not found")
    else if promptName == "analyze-csv" then
      if !Truthy(Arg(arguments, "csv_path")) then Failure("Missing argument: csv_path")
      else Success([PromptMessage("user", PlainText(CsvPromptText(arguments, show)))])
    else if promptName == "trade" then
      if !TradeArgsPresent(arguments) then Failure("Missing arguments: stock_id, price, or quantity")
      else Success([PromptMessage("user", PlainText(TradePromptText(arguments, show)))])
    else Failure("Prompt implemetation not found")
  }

  /** With the branch corrected, every listed prompt is implemented: it succeeds exactly
      when each of its required arguments is truthy. */
  lemma IntendedPromptsImplemented(arguments: Dict, show: Json -> string)
    ensures forall p :: p in ListPrompts() ==>
              (GetPromptIntended(p.name, arguments, show).Success?
               <==> forall a :: a in p.arguments && a.required ==> Truthy(Arg(arguments, a.name)))
    ensures GetPromptIntended("analyze-csv", arguments, show).Success? ==>
              GetPromptIntended("analyze-csv", arguments, show).value[0].content.text == CsvPromptText(arguments, show)
  {
    var ps := ListPrompts();
    assert ps[0].arguments[0].name == "csv_path";
    assert ps[1].arguments[0].name == "stock_id";
    assert ps[1].arguments[1].name == "price";
    assert ps[1].arguments[2].name == "quantity";
  }

  /** The two tools of `list_tools`, in order. */
  function ListTools(): (r: seq<Tool>)
    ensures |r| == 2
    ensures r[0].name == "analyze_csv" && r[1].name == "trade"
  {
    [ Tool("analyze_csv", Some("Analyze a CSV file containing stock trading info"), CsvSchema()),
      Tool("trade", Some("Place a long order for a stock at a specific price and quantity"), TradeSchema()) ]
  }

  /** The argument schema of `analyze_csv`. */
  function CsvSchema(): Json
  {
    JObj([("type", JStr("object")),
          ("properties", JObj([("csv_path", JObj([("type", JStr("string"))]))])),
          ("required", JArr([JStr("csv_path")]))])
  }

  /** The argument schema of `trade`. */
  function TradeSchema(): Json
  {
    JObj([("type", JStr("object")),
          ("properties", JObj([("stock_id", JObj([("type", JStr("integer"))])),
                               ("price", JObj([("type", JStr("number"))])),
                               ("quantity", JObj([("type", JStr("integer"))]))])),
          ("required", JArr([JStr("stock_id"), JStr("price"), JStr("quantity")]))])
  }

  /** The arguments each listed tool's schema requires. */
  lemma ListedRequired()
    ensures Required(ListTools()[0]) == ["csv_path"]
    ensures Required(ListTools()[1]) == ["stock_id", "price", "quantity"]
  {
    CsvRequired(ListTools()[0]);
    TradeRequired(ListTools()[1]);
  }

  lemma CsvRequired(t: Tool)
    requires t.inputSchema == CsvSchema()
    ensures Required(t) == ["csv_path"]
  {
    var items := [JStr("csv_path")];
    assert Get(CsvSchema().fields, "required") == Some(JArr(items));
    assert Strings(items) == ["csv_path"];
  }

  lemma TradeRequired(t: Tool)
    requires t.inputSchema == TradeSchema()
    ensures Required(t) == ["stock_id", "price", "quantity"]
  {
    var items := [JStr("stock_id"), JStr("price"), JStr("quantity")];
    assert Get(TradeSchema().fields, "required") == Some(JArr(items));
    assert Strings(items[2..]) == ["quantity"];
    assert Strings(items[1..]) == ["price", "quantity"];
  }

  /** The string entries of a tool schema's "required" list. */
  function Required(t: Tool): seq<string>
  {
    if t.inputSchema.JObj? && Get(t.inputSchema.fields, "required").Some?
       && Get(t.inputSchema.fields, "required").value.JArr?
    then Strings(Get(t.inputSchema.fields, "required").value.items)
    else []
  }

  function Strings(items: seq<Json>): seq<string>
  {
    if items == [] then []
    else (if items[0].JStr? then [items[0].s] else []) + Strings(items[1..])
  }

  /** The text `call_tool` returns for a trade with all arguments present. */
  function TradeToolText(arguments: Dict, show: Json -> string): string
  {
    "Placing a long order for stock_id: " + show(Arg(arguments, "stock_id"))
    + ", price: " + show(Arg(arguments, "price"))
    + ", quantity: " + show(Arg(arguments, "quantity"))
  }

  /** `call_tool`: a missing or falsy argument is reported in the result rather than
      raised; only an unknown tool name raises. */
  function CallTool(toolName: string, arguments: Dict, show: Json -> string): (r: Result<seq<TextContent>, string>)
    ensures r.Failure? <==> toolName != "analyze_csv" && toolName != "trade"
    ensures r.Failure? ==> r.error == "Tool implementation not found"
    ensures r.Success? ==> |r.value| == 1 && r.value[0].kind == "text"
    ensures toolName == "analyze_csv" ==>
              r.value[0].text == (if Truthy(Arg(arguments, "csv_path"))
                                  then "Attempting to read file: " + show(Arg(arguments, "csv_path"))
                                  else "Error: Missing csv_path argument")
    ensures toolName == "trade" ==>
              r.value[0].text == (if TradeArgsPresent(arguments) then TradeToolText(arguments, show)
                                  else "Error: Missing stock_id, price, or quantity")
  {
    if toolName == "analyze_csv" then
      if !Truthy(Arg(arguments, "csv_path")) then Success([PlainText("Error: Missing csv_path argument")])
      else Success([PlainText("Attempting to read file: " + show(Arg(arguments, "csv_path")))])
    else if toolName == "trade" then
      if !TradeArgsPresent(arguments) then Success([PlainText("Error: Missing stock_id, price, or quantity")])
      else Success([PlainText(TradeToolText(arguments, show))])
    else Failure("Tool implementation not found")
  }

  /** The error texts `call_tool` reports in its result. */
  predicate IsToolErrorText(text: string)
  {
    text == "Error: Missing csv_path argument" || text == "Error: Missing stock_id, price, or quantity"
  }

  /** `list_tools` and `call_tool` agree on names: exactly the listed tools are
      implemented. */
  lemma ListedToolsImplemented(toolName: string, arguments: Dict, show: Json -> string)
    ensures CallTool(toolName, arguments, show).Success?
            <==> exists i :: 0 <= i < |ListTools()| && ListTools()[i].name == toolName
  {
    var ts := ListTools();
    if toolName == "analyze_csv" {
      assert ts[0].name == toolName;
    } else if toolName == "trade" {
      assert ts[1].name == toolName;
    }
  }

  /** `list_tools` and `call_tool` agree on arguments: a listed tool reports an error
      exactly when one of the arguments its schema requires is missing or falsy. */
  lemma RequiredArgumentsChecked(t: Tool, arguments: Dict, show: Json -> string)
    requires t in ListTools()
    ensures CallTool(t.name, arguments, show).Success?
    ensures IsToolErrorText(CallTool(t.name, arguments, show).value[0].text)
            <==> exists k :: k in Required(t) && !Truthy(Arg(arguments, k))
  {
    var ts := ListTools();
    ListedRequired();
    if t == ts[0] {
      CsvArgumentsChecked(t, arguments, show);
    } else {
      TradeArgumentsChecked(t, arguments, show);
    }
  }

  lemma CsvArgumentsChecked(t: Tool, arguments: Dict, show: Json -> string)
    requires t.name == "analyze_csv" && Required(t) == ["csv_path"]
    ensures IsToolErrorText(CallTool(t.name, arguments, show).value[0].text)
            <==> exists k :: k in Required(t) && !Truthy(Arg(arguments, k))
  {
    var text := CallTool(t.name, arguments, show).value[0].text;
    if Truthy(Arg(arguments, "csv_path")) {
      assert text[0] == 'A';
    } else {
      assert "csv_path" in Required(t);
    }
  }

  lemma TradeArgumentsChecked(t: Tool, arguments: Dict, show: Json -> string)
    requires t.name == "trade" && Required(t) == ["stock_id", "price", "quantity"]
    ensures IsToolErrorText(CallTool(t.name, arguments, show).value[0].text)
            <==> exists k :: k in Required(t) && !Truthy(Arg(arguments, k))
  {
    var text := CallTool(t.name, arguments, show).value[0].text;
    var required := Required(t);
    if TradeArgsPresent(arguments) {
      assert text[0] == 'P';
      forall k | k in required ensures Truthy(Arg(arguments, k)) {
        assert k == "stock_id" || k == "price" || k == "quantity";
      }
    } else if !Truthy(Arg(arguments, "stock_id")) {
      assert required[0] == "stock_id";
    } else if !Truthy(Arg(arguments, "price")) {
      assert required[1] == "price";
    } else {
      assert required[2] == "quantity";
    }
  }
}
