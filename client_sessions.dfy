/** The sessions of the multi-server client (client/client.py) and what it derives from
    them: the server registry in insertion order, the merged tool catalog, the routing
    of a tool name to a session, and the launch parameters of a configured server. */
module ClientSessions {
  import opened Wrappers
  import opened Values
  import opened McpTypes
  import Text
  import SingleServerClient

  /** `self.sessions`: (server name, session) pairs in insertion order. */
  type Registry = seq<(string, Session)>

  /** Every server name occurs once, as in the dict. */
  predicate DistinctNames(reg: Registry)
  {
    forall i, j :: 0 <= i < j < |reg| ==> reg[i].0 != reg[j].0
  }

  predicate Registered(reg: Registry, name: string)
  {
    exists i :: 0 <= i < |reg| && reg[i].0 == name
  }

  /** `self.sessions[name]` when it exists. */
  function Lookup(reg: Registry, name: string): (r: Option<Session>)
    ensures r.Some? <==> Registered(reg, name)
    ensures r.Some? ==> (name, r.value) in reg
    ensures forall i :: 0 <= i < |reg| && reg[i].0 == name && (forall j :: 0 <= j < i ==> reg[j].0 != name)
                        ==> r == Some(reg[i].1)
  {
    if reg == [] then None
    else if reg[0].0 == name then Some(reg[0].1)
    else
      assert forall i :: 1 <= i < |reg| ==> reg[1..][i - 1] == reg[i];
      Lookup(reg[1..], name)
  }

  /** In a registry with distinct names, the session of entry `i` is found under its name. */
  lemma LookupDistinct(reg: Registry, i: nat)
    requires DistinctNames(reg) && i < |reg|
    ensures Lookup(reg, reg[i].0) == Some(reg[i].1)
  {
  }

  /** The server names, in insertion order. */
  function Names(reg: Registry): (r: seq<string>)
    ensures |r| == |reg| && forall i :: 0 <= i < |reg| ==> r[i] == reg[i].0
  {
    seq(|reg|, i requires 0 <= i < |reg| => reg[i].0)
  }

  /** `self.sessions[name] = session`: a new name goes last, a known one keeps its place
      and gets the new session. */
  function Register(reg: Registry, name: string, session: Session): (r: Registry)
    ensures |r| == |reg| || |r| == |reg| + 1
  {
    if reg == [] then [(name, session)]
    else if reg[0].0 == name then [(name, session)] + reg[1..]
    else [reg[0]] + Register(reg[1..], name, session)
  }

  /** After registration the name finds the new session and every other name what it
      found before. */
  lemma {:induction false} RegisterLookup(reg: Registry, name: string, session: Session, n: string)
    ensures Lookup(Register(reg, name, session), n) == if n == name then Some(session) else Lookup(reg, n)
    decreases |reg|
  {
    if reg != [] && reg[0].0 != name {
      RegisterLookup(reg[1..], name, session, n);
      var r := Register(reg, name, session);
      assert r[1..] == Register(reg[1..], name, session);
    }
  }

  /** Registering a connected name keeps every server's place; a new name is appended. */
  lemma {:induction false} RegisterPlace(reg: Registry, name: string, session: Session)
    ensures var r := Register(reg, name, session);
            && (Registered(reg, name) ==> Names(r) == Names(reg))
            && (!Registered(reg, name) ==> r == reg + [(name, session)])
    decreases |reg|
  {
    if reg != [] && reg[0].0 != name {
      var rest := reg[1..];
      RegisterPlace(rest, name, session);
      RegisteredTail(reg, name);
      var r := Register(reg, name, session);
      assert r == [reg[0]] + Register(rest, name, session);
      if Registered(reg, name) {
        NamesCons(reg[0], Register(rest, name, session));
        NamesCons(reg[0], rest);
        assert reg == [reg[0]] + rest;
      } else {
        assert reg == [reg[0]] + rest;
      }
    }
  }

  /** A name other than the first is registered exactly when the rest has it. */
  lemma RegisteredTail(reg: Registry, name: string)
    requires reg != [] && reg[0].0 != name
    ensures Registered(reg, name) <==> Registered(reg[1..], name)
  {
    var rest := reg[1..];
    if Registered(reg, name) {
      var i :| 0 <= i < |reg| && reg[i].0 == name;
      assert rest[i - 1].0 == name;
    }
    if Registered(rest, name) {
      var i :| 0 <= i < |rest| && rest[i].0 == name;
      assert reg[i + 1].0 == name;
    }
  }

  lemma NamesCons(p: (string, Session), reg: Registry)
    ensures Names([p] + reg) == [p.0] + Names(reg)
  {
  }

  /** Registration keeps the server names distinct. */
  lemma RegisterDistinct(reg: Registry, name: string, session: Session)
    requires DistinctNames(reg)
    ensures DistinctNames(Register(reg, name, session))
  {
    var r := Register(reg, name, session);
    RegisterPlace(reg, name, session);
    if Registered(reg, name) {
      assert Names(r) == Names(reg);
      forall i, j | 0 <= i < j < |r| ensures r[i].0 != r[j].0 {
        assert Names(r)[i] == Names(reg)[i] && Names(r)[j] == Names(reg)[j];
      }
    } else {
      forall i, j | 0 <= i < j < |r| ensures r[i].0 != r[j].0 {
        if j == |reg| {
          assert !(reg[i].0 == name);
        }
      }
    }
  }

  /** One entry of the merged catalog sent to the model:
      `{"type": "function", "function": {name, description, parameters}}`. */
  datatype CatalogEntry = FunctionEntry(name: string, description: string, parameters: Json)

  /** A listed tool as the catalog shows it: its bare name, its description behind the
      server's name in brackets, and its schema unchanged. */
  function Described(serverName: string, t: Tool): CatalogEntry
  {
    FunctionEntry(t.name, "[" + serverName + "] " + Formatted(t.description), t.inputSchema)
  }

  /** An optional description inside an f-string: the text itself, or "None" when the
      tool has none. */
  function Formatted(description: Option<string>): string
  {
    if description.Some? then description.value else "None"
  }

  /** The comprehension of `get_all_tools` for one session. */
  function Entries(serverName: string, tools: seq<Tool>): (r: seq<CatalogEntry>)
    ensures |r| == |tools| && forall j :: 0 <= j < |tools| ==> r[j] == Described(serverName, tools[j])
  {
    seq(|tools|, j requires 0 <= j < |tools| => Described(serverName, tools[j]))
  }

  /** The catalog of `get_all_tools`: the entries of each session in insertion order. */
  function Catalog(reg: Registry): seq<CatalogEntry>
  {
    if reg == [] then []
    else Catalog(reg[..|reg| - 1]) + Entries(reg[|reg| - 1].0, reg[|reg| - 1].1.tools)
  }

  /** The number of tools the sessions list, duplicates included. */
  function ToolCount(reg: Registry): nat
  {
    if reg == [] then 0 else ToolCount(reg[..|reg| - 1]) + |reg[|reg| - 1].1.tools|
  }

  /** The catalog holds one entry per listed tool: nothing is merged or dropped. */
  lemma {:induction false} CatalogLength(reg: Registry)
    ensures |Catalog(reg)| == ToolCount(reg)
    decreases |reg|
  {
    if reg != [] {
      CatalogLength(reg[..|reg| - 1]);
    }
  }

  /** Tool `j` of session `i` sits at position `ToolCount(reg[..i]) + j`: sessions in
      insertion order, each session's tools in listing order. */
  lemma {:induction false} CatalogAt(reg: Registry, i: nat, j: nat)
    requires i < |reg| && j < |reg[i].1.tools|
    ensures ToolCount(reg[..i]) + j < |Catalog(reg)|
    ensures Catalog(reg)[ToolCount(reg[..i]) + j] == Described(reg[i].0, reg[i].1.tools[j])
    decreases |reg|
  {
    var init := reg[..|reg| - 1];
    CatalogLength(init);
    if i == |reg| - 1 {
      assert reg[..i] == init;
    } else {
      assert init[..i] == reg[..i] && init[i] == reg[i];
      CatalogAt(init, i, j);
    }
  }

  /** Conversely, every catalog entry describes a tool some session lists. */
  lemma {:induction false} CatalogOrigin(reg: Registry, k: nat)
    requires k < |Catalog(reg)|
    ensures exists i, j :: 0 <= i < |reg| && 0 <= j < |reg[i].1.tools|
                           && Catalog(reg)[k] == Described(reg[i].0, reg[i].1.tools[j])
    decreases |reg|
  {
    var init := reg[..|reg| - 1];
    var last := |reg| - 1;
    if k < |Catalog(init)| {
      CatalogOrigin(init, k);
      var i, j :| 0 <= i < |init| && 0 <= j < |init[i].1.tools|
                  && Catalog(init)[k] == Described(init[i].0, init[i].1.tools[j]);
      assert init[i] == reg[i];
    } else {
      var j := k - |Catalog(init)|;
      assert Catalog(reg)[k] == Described(reg[last].0, reg[last].1.tools[j]);
    }
  }

  /** Against the single-server client's `get_tools`, a session's catalog entries differ
      only in the bracketed server name ahead of the description. */
  lemma EntriesExtendSingleServer(serverName: string, tools: seq<Tool>)
    ensures var single := SingleServerClient.FunctionTools(tools);
            var multi := Entries(serverName, tools);
            && |multi| == |single|
            && forall j :: 0 <= j < |multi| ==>
                 && multi[j].name == single[j].name
                 && multi[j].parameters == single[j].inputSchema
                 && multi[j].description == "[" + serverName + "] " + Formatted(single[j].description)
  {
  }

  /** Why a call into the client raises. */
  datatype ClientError =
    | ToolNotFound(toolCallName: string)      // ValueError from `call_tool`
    | ServerNotConnected(serverName: string)  // ValueError from `call_tool`
    | ArgumentsNotJson(reason: string)        // `json.loads` raised
    | ToolCallFailed(reason: string)          // the session's `call_tool` raised
    | ConfigError(e: AccessError)             // reading the server's configuration raised
    | EnvNotUpdatable                         // `env.update` of a value that is neither a dict nor a list of pairs
    | ConnectFailed(reason: string)           // opening the transport or session raised
    | InitializeFailed(reason: string)        // `session.initialize()` raised
    | InputEnded(reason: string)              // `input()` raised EOFError

  /** `str(e)`: the messages of the `ValueError`s that `call_tool` raises, and the reason
      the decoder or the session gave. The configuration errors, which `chat_loop` never
      sees, have no message here. */
  function ErrorMessage(e: ClientError): string
  {
    match e
    case ToolNotFound(name) => "Tool '" + name + "' not found in any connected server"
    case ServerNotConnected(name) => "Server '" + name + "' is not connected"
    case ArgumentsNotJson(reason) => reason
    case ToolCallFailed(reason) => reason
    case ConnectFailed(reason) => reason
    case InitializeFailed(reason) => reason
    case InputEnded(reason) => reason
    case _ => ""
  }

  /** `any(tool.name == name for tool in response.tools)`. */
  predicate Lists(s: Session, name: string)
  {
    exists j :: 0 <= j < |s.tools| && s.tools[j].name == name
  }

  /** The first session, in insertion order, whose listing has the tool. */
  function FirstListing(reg: Registry, name: string): (r: Option<nat>)
    ensures r.Some? ==> r.value < |reg| && Lists(reg[r.value].1, name)
                        && forall j :: 0 <= j < r.value ==> !Lists(reg[j].1, name)
    ensures r.None? ==> forall j :: 0 <= j < |reg| ==> !Lists(reg[j].1, name)
  {
    if reg == [] then None
    else if Lists(reg[0].1, name) then Some(0)
    else
      assert forall j :: 1 <= j < |reg| ==> reg[1..][j - 1] == reg[j];
      match FirstListing(reg[1..], name)
      case None => None
      case Some(k) => Some(k + 1)
  }

  /** Where `call_tool` sends a call: a session and a tool name on it. */
  datatype Route = Route(serverName: string, toolName: string)

  /** The routing of `call_tool`. A name with a colon is split at the first one into a
      server and a tool. A bare name goes to the first session that lists it; when there
      is none, or that session's name is "" (falsy), the tool is not found. */
  function Resolve(reg: Registry, toolCallName: string): (r: Result<Route, ClientError>)
    ensures r.Success? ==> Registered(reg, r.value.serverName)
  {
    match Text.Find(toolCallName, ':')
    case Some(i) =>
      var serverName := toolCallName[..i];
      if Registered(reg, serverName) then Success(Route(serverName, toolCallName[i + 1..]))
      else Failure(ServerNotConnected(serverName))
    case None =>
      match FirstListing(reg, toolCallName)
      case None => Failure(ToolNotFound(toolCallName))
      case Some(i) =>
        if reg[i].0 == "" then Failure(ToolNotFound(toolCallName))
        else Success(Route(reg[i].0, toolCallName))
  }

  /** The session names whose listing `call_tool` awaits: none for a qualified name; for
      a bare name, the sessions up to and including the first that lists it. */
  function Probed(reg: Registry, toolCallName: string): seq<string>
  {
    if ':' in toolCallName then []
    else match FirstListing(reg, toolCallName)
      case None => Names(reg)
      case Some(i) => Names(reg[..i + 1])
  }

  /** `call_tool`: the routed session's result for the tool and its arguments. */
  function Invoke(reg: Registry, toolCallName: string, toolArgs: Json): (r: Result<CallResult, ClientError>)
  {
    var route :- Resolve(reg, toolCallName);
    Lookup(reg, route.serverName).value.call(route.toolName, toolArgs).MapError(e => ToolCallFailed(e))
  }

  /** A qualified name is split at its first colon: the server part has no colon, and the
      call goes to that server, or fails when it is not connected, without any listing. */
  lemma QualifiedRouting(reg: Registry, server: string, tool: string, toolArgs: Json)
    requires ':' !in server
    ensures Probed(reg, server + ":" + tool) == []
    ensures Registered(reg, server) ==>
              Resolve(reg, server + ":" + tool) == Success(Route(server, tool))
              && Invoke(reg, server + ":" + tool, toolArgs)
                 == Lookup(reg, server).value.call(tool, toolArgs).MapError(e => ToolCallFailed(e))
    ensures !Registered(reg, server) ==>
              Invoke(reg, server + ":" + tool, toolArgs) == Failure(ServerNotConnected(server))
  {
    var name := server + ":" + tool;
    assert name[|server|] == ':';
    assert name[..|server|] == server && name[|server| + 1..] == tool;
    assert ':' in name;
  }

  /** A bare name goes to the first session whose listing has the tool, and the sessions
      after it are not asked; it is not found exactly when no session lists it or that first
      session is named "". */
  lemma BareRouting(reg: Registry, toolCallName: string, toolArgs: Json)
    requires DistinctNames(reg)
    requires ':' !in toolCallName
    ensures Resolve(reg, toolCallName).Failure? <==>
              (forall i :: 0 <= i < |reg| ==> !Lists(reg[i].1, toolCallName))
              || (exists i :: 0 <= i < |reg| && Lists(reg[i].1, toolCallName) && reg[i].0 == ""
                             && forall j :: 0 <= j < i ==> !Lists(reg[j].1, toolCallName))
    ensures Resolve(reg, toolCallName).Failure? ==>
              Invoke(reg, toolCallName, toolArgs) == Failure(ToolNotFound(toolCallName))
    ensures forall i :: 0 <= i < |reg| && Lists(reg[i].1, toolCallName) && reg[i].0 != ""
                        && (forall j :: 0 <= j < i ==> !Lists(reg[j].1, toolCallName))
                        ==> && Probed(reg, toolCallName) == Names(reg[..i + 1])
                            && Invoke(reg, toolCallName, toolArgs)
                               == reg[i].1.call(toolCallName, toolArgs).MapError(e => ToolCallFailed(e))
  {
    BareNotFound(reg, toolCallName, toolArgs);
    forall i | 0 <= i < |reg| && Lists(reg[i].1, toolCallName) && reg[i].0 != ""
               && (forall j :: 0 <= j < i ==> !Lists(reg[j].1, toolCallName))
      ensures && Probed(reg, toolCallName) == Names(reg[..i + 1])
              && Invoke(reg, toolCallName, toolArgs)
                 == reg[i].1.call(toolCallName, toolArgs).MapError(e => ToolCallFailed(e))
    {
      BareFound(reg, toolCallName, toolArgs, i);
    }
  }

  lemma BareNotFound(reg: Registry, toolCallName: string, toolArgs: Json)
    requires ':' !in toolCallName
    ensures Resolve(reg, toolCallName).Failure? <==>
              (forall i :: 0 <= i < |reg| ==> !Lists(reg[i].1, toolCallName))
              || (exists i :: 0 <= i < |reg| && Lists(reg[i].1, toolCallName) && reg[i].0 == ""
                             && forall j :: 0 <= j < i ==> !Lists(reg[j].1, toolCallName))
    ensures Resolve(reg, toolCallName).Failure? ==>
              Invoke(reg, toolCallName, toolArgs) == Failure(ToolNotFound(toolCallName))
  {
    match FirstListing(reg, toolCallName)
    case None =>
    case Some(k) =>
      forall i | 0 <= i < |reg| && Lists(reg[i].1, toolCallName)
                 && (forall j :: 0 <= j < i ==> !Lists(reg[j].1, toolCallName))
        ensures i == k
      {
        FirstListingUnique(reg, toolCallName, i);
      }
  }

  lemma BareFound(reg: Registry, toolCallName: string, toolArgs: Json, i: nat)
    requires DistinctNames(reg)
    requires ':' !in toolCallName
    requires i < |reg| && Lists(reg[i].1, toolCallName) && reg[i].0 != ""
    requires forall j :: 0 <= j < i ==> !Lists(reg[j].1, toolCallName)
    ensures Probed(reg, toolCallName) == Names(reg[..i + 1])
    ensures Invoke(reg, toolCallName, toolArgs)
            == reg[i].1.call(toolCallName, toolArgs).MapError(e => ToolCallFailed(e))
  {
    FirstListingUnique(reg, toolCallName, i);
    LookupDistinct(reg, i);
  }

  /** The first session that lists a tool is unique. */
  lemma FirstListingUnique(reg: Registry, name: string, i: nat)
    requires i < |reg| && Lists(reg[i].1, name)
    requires forall j :: 0 <= j < i ==> !Lists(reg[j].1, name)
    ensures FirstListing(reg, name) == Some(i)
  {
  }

  /** `dict[k] = v` on an ordered dict: a known key keeps its place, a new one goes last. */
  function Set(d: Dict, k: string, v: Json): (r: Dict)
    ensures Get(r, k) == Some(v)
    ensures forall k' :: k' != k ==> Get(r, k') == Get(d, k')
  {
    if d == [] then [(k, v)]
    else if d[0].0 == k then [(k, v)] + d[1..]
    else
      var rest := Set(d[1..], k, v);
      assert forall k' :: k' != d[0].0 ==> Get([d[0]] + rest, k') == Get(rest, k');
      [d[0]] + rest
  }

  /** `env.update(overlay)`: the overlay's items set one after another. */
  function Update(d: Dict, overlay: Dict): Dict
  {
    if overlay == [] then d
    else
      var last := overlay[|overlay| - 1];
      Set(Update(d, overlay[..|overlay| - 1]), last.0, last.1)
  }

  /** Looking up a dict extended at the end. */
  lemma {:induction false} GetSnoc(d: Dict, p: (string, Json), k: string)
    ensures Get(d + [p], k) == if HasKey(d, k) then Get(d, k) else if p.0 == k then Some(p.1) else None
    decreases |d|
  {
    if d != [] {
      assert (d + [p])[1..] == d[1..] + [p];
      GetSnoc(d[1..], p, k);
      if d[0].0 != k {
        assert HasKey(d, k) == HasKey(d[1..], k) by {
          if HasKey(d, k) {
            var i :| 0 <= i < |d| && d[i].0 == k;
            assert d[1..][i - 1].0 == k;
          }
          if HasKey(d[1..], k) {
            var i :| 0 <= i < |d[1..]| && d[1..][i].0 == k;
            assert d[i + 1].0 == k;
          }
        }
      }
    }
  }

  /** The value the items give a key last, if they give it one: what `update` leaves. */
  function LastValue(items: Dict, k: string): (r: Option<Json>)
    ensures r.Some? <==> HasKey(items, k)
    ensures r.Some? ==> (k, r.value) in items
  {
    if items == [] then None
    else
      var init := items[..|items| - 1];
      assert forall i :: 0 <= i < |init| ==> init[i] == items[i];
      assert items == init + [items[|items| - 1]];
      if items[|items| - 1].0 == k then Some(items[|items| - 1].1)
      else LastValue(init, k)
  }

  /** With distinct keys, the last value given is the only one. */
  lemma {:induction false} LastValueDistinct(items: Dict, k: string)
    requires DistinctKeys(items)
    ensures LastValue(items, k) == Get(items, k)
    decreases |items|
  {
    if items != [] {
      var init := items[..|items| - 1];
      var last := items[|items| - 1];
      assert items == init + [last];
      assert DistinctKeys(init);
      LastValueDistinct(init, k);
      GetSnoc(init, last, k);
      if k == last.0 {
        assert !HasKey(init, k);
      }
    }
  }

  /** `env.update(items)`: a key the items give gets the value they give it last, every
      other key keeps the inherited one. */
  lemma {:induction false} UpdateGet(d: Dict, items: Dict, k: string)
    ensures Get(Update(d, items), k) == if HasKey(items, k) then LastValue(items, k) else Get(d, k)
    decreases |items|
  {
    if items != [] {
      UpdateGet(d, items[..|items| - 1], k);
    }
  }

  /** The items of a decoded JSON object have distinct keys, so each gets its own value. */
  lemma UpdateGetDistinct(d: Dict, items: Dict, k: string)
    requires DistinctKeys(items)
    ensures Get(Update(d, items), k) == if HasKey(items, k) then Get(items, k) else Get(d, k)
  {
    UpdateGet(d, items, k);
    LastValueDistinct(items, k);
  }

  /** An element of a list passed to `dict.update` that is a key/value pair: a list of
      a string key and a value, a string of two characters, which iterates as its two
      letters, or an object with two distinct keys, which iterates as those keys. */
  predicate IsPair(v: Json)
  {
    || (v.JArr? && |v.items| == 2 && v.items[0].JStr?)
    || (v.JStr? && |v.s| == 2)
    || (v.JObj? && |v.fields| == 2 && v.fields[0].0 != v.fields[1].0)
  }

  /** The key and the value of a pair. */
  function PairOf(v: Json): (string, Json)
  {
    if v.JArr? && |v.items| == 2 && v.items[0].JStr? then (v.items[0].s, v.items[1])
    else if v.JStr? && |v.s| == 2 then ([v.s[0]], JStr([v.s[1]]))
    else if v.JObj? && |v.fields| == 2 then (v.fields[0].0, JStr(v.fields[1].0))
    else ("", JNull)
  }

  /** The items `dict.update(v)` sets: a dict's items, or the pairs of a list whose
      every element is a pair; None where `update` raises. */
  function UpdateItems(v: Json): (r: Option<Dict>)
    ensures v.JObj? ==> r == Some(v.fields)
    ensures v.JArr? ==> (r.Some? <==> forall i :: 0 <= i < |v.items| ==> IsPair(v.items[i]))
    ensures v.JArr? && r.Some? ==>
              |r.value| == |v.items| && forall i :: 0 <= i < |v.items| ==> r.value[i] == PairOf(v.items[i])
    ensures !v.JObj? && !v.JArr? ==> r.None?
  {
    if v.JObj? then Some(v.fields)
    else if v.JArr? && forall i :: 0 <= i < |v.items| ==> IsPair(v.items[i]) then
      Some(seq(|v.items|, i requires 0 <= i < |v.items| => PairOf(v.items[i])))
    else None
  }

  /** The environment of a server: the inherited one, overlaid by a truthy `env` entry. */
  function Environment(serverConfig: Json, environ: Dict): (r: Result<Dict, ClientError>)
    ensures !serverConfig.JObj? ==> r == Failure(ConfigError(NoAttribute))
    ensures serverConfig.JObj? && Missing(serverConfig.fields, "env") ==> r == Success(environ)
    ensures serverConfig.JObj? && !Missing(serverConfig.fields, "env") ==>
              var items := UpdateItems(Get(serverConfig.fields, "env").value);
              && (r.Success? <==> items.Some?)
              && (r.Success? ==> r.value == Update(environ, items.value))
              && (r.Failure? ==> r.error == EnvNotUpdatable)
  {
    var env :- GetOf(serverConfig, "env").MapError(e => ConfigError(e));
    if env.None? || !Truthy(env.value) then Success(environ)
    else match UpdateItems(env.value)
      case Some(items) => Success(Update(environ, items))
      case None => Failure(EnvNotUpdatable)
  }

  /** An `env` given as a list of pairs is taken, as `dict.update` takes it. */
  lemma EnvironmentFromPairs(environ: Dict, k: string)
    ensures var r := Environment(JObj([("env", JArr([JArr([JStr("A"), JStr("B")])]))]), environ);
            && r.Success?
            && Get(r.value, "A") == Some(JStr("B"))
            && (k != "A" ==> Get(r.value, k) == Get(environ, k))
  {
    var pair := JArr([JStr("A"), JStr("B")]);
    var items := [("A", JStr("B"))];
    assert IsPair(pair) && PairOf(pair) == items[0];
    var u := UpdateItems(JArr([pair]));
    assert u.Some? && |u.value| == 1 && u.value[0] == items[0];
    assert u.value == items;
    UpdateGet(environ, items, k);
    UpdateGet(environ, items, "A");
  }

  /** An `env` whose element is an object with two keys is taken too: the first key
      names the variable and the second key is its value. */
  lemma EnvironmentFromObjectPair(environ: Dict, k: string)
    ensures var r := Environment(JObj([("env", JArr([JObj([("A", JInt(1)), ("B", JInt(2))])]))]), environ);
            && r.Success?
            && Get(r.value, "A") == Some(JStr("B"))
            && (k != "A" ==> Get(r.value, k) == Get(environ, k))
  {
    var pair := JObj([("A", JInt(1)), ("B", JInt(2))]);
    var items := [("A", JStr("B"))];
    assert IsPair(pair) && PairOf(pair) == items[0];
    var u := UpdateItems(JArr([pair]));
    assert u.Some? && |u.value| == 1 && u.value[0] == items[0];
    assert u.value == items;
    UpdateGet(environ, items, k);
    UpdateGet(environ, items, "A");
  }

  /** The parameters `_connect_to_single_server` launches a configured server with:
      `config["mcpServers"][name]` must exist and have a "command"; "args" defaults to
      `[]`. */
  function LaunchParams(config: Json, serverName: string, environ: Dict): (r: Result<ServerParams, ClientError>)
    ensures r.Success? ==> r.value.env.Some?
  {
    var servers :- Subscript(config, "mcpServers").MapError(e => ConfigError(e));
    var serverConfig :- Subscript(servers, serverName).MapError(e => ConfigError(e));
    var env :- Environment(serverConfig, environ);
    var command :- Subscript(serverConfig, "command").MapError(e => ConfigError(e));
    Success(ServerParams(command, Get(serverConfig.fields, "args").GetOr(JArr([])), Some(env)))
  }

  /** What the launch parameters say about a configured server: its command, its
      arguments or `[]`, and the inherited environment with the overlay's entries
      overriding. */
  lemma LaunchParamsSpec(config: Json, serverName: string, environ: Dict, k: string)
    requires LaunchParams(config, serverName, environ).Success?
    ensures var servers := Subscript(config, "mcpServers").value;
            var sc := Subscript(servers, serverName).value;
            var p := LaunchParams(config, serverName, environ).value;
            && sc.JObj?
            && Get(sc.fields, "command") == Some(p.command)
            && p.args == (if HasKey(sc.fields, "args") then Get(sc.fields, "args").value else JArr([]))
            && (Missing(sc.fields, "env") ==> p.env == Some(environ))
            && (!Missing(sc.fields, "env") ==>
                  var items := UpdateItems(Get(sc.fields, "env").value);
                  && items.Some?
                  && Get(p.env.value, k) == if HasKey(items.value, k) then LastValue(items.value, k)
                                            else Get(environ, k))
  {
    var servers := Subscript(config, "mcpServers").value;
    var sc := Subscript(servers, serverName).value;
    if !Missing(sc.fields, "env") {
      UpdateGet(environ, UpdateItems(Get(sc.fields, "env").value).value, k);
    }
  }

  /** `_connect_to_single_server` up to registration: launch, open the session, and
      initialize it. */
  function Connect(config: Json, serverName: string, environ: Dict,
                   openSession: ServerParams -> Result<Session, string>,
                   initialize: Session -> Option<string>): (r: Result<Session, ClientError>)
    ensures LaunchParams(config, serverName, environ).Failure? ==>
              r == Failure(LaunchParams(config, serverName, environ).error)
    ensures var p := LaunchParams(config, serverName, environ);
            r.Success? <==> && p.Success? && openSession(p.value).Success?
                            && initialize(openSession(p.value).value).None?
    ensures var p := LaunchParams(config, serverName, environ);
            p.Success? ==>
              var launched := openSession(p.value);
              && (launched.Failure? ==> r == Failure(ConnectFailed(launched.error)))
              && (launched.Success? && initialize(launched.value).Some? ==>
                    r == Failure(InitializeFailed(initialize(launched.value).value)))
              && (r.Success? ==> r.value == launched.value)
  {
    var params :- LaunchParams(config, serverName, environ);
    var session :- openSession(params).MapError(e => ConnectFailed(e));
    if initialize(session).Some? then Failure(InitializeFailed(initialize(session).value))
    else Success(session)
  }
}
