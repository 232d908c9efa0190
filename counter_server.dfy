/**
  The counter server of src/main.rs: one shared `i32` counter behind a lock,
  three tools that increment, decrement and read it, and the `ServerHandler`
  entry points that dispatch tool calls, list the tools and describe the server.
  Each locked section is one atomic step here; the lock itself is not modelled.
 */
module CounterServer {
  import opened Wrappers
  import opened Decimal

  // ---------------------------------------------------------------- protocol records

  /** A content item of a tool result; the server only ever produces text. */
  datatype Content = Text(text: string)

  /** `CallToolResult`: the content items and the error flag. */
  datatype CallToolResult = CallToolResult(content: seq<Content>, isError: Option<bool>)

  /** An error reported to the client; its shape is not fixed by this model. */
  datatype ErrorData = ErrorData(code: int, message: string)

  /** A tool-call request: the tool name and an optional JSON object of arguments (values kept as JSON text). */
  datatype CallToolRequestParam = CallToolRequestParam(name: string, arguments: Option<map<string, string>>)

  /** The pagination argument of `list_tools`. */
  datatype PaginatedRequestParam = PaginatedRequestParam(cursor: Option<string>)

  /** A tool descriptor as advertised to clients. */
  datatype Tool = Tool(name: string, description: string)

  datatype ListToolsResult = ListToolsResult(tools: seq<Tool>, nextCursor: Option<string>)

  datatype ToolsCapability = ToolsCapability(listChanged: Option<bool>)

  /** The capability set: tools, plus the optional features this server does not enable. */
  datatype ServerCapabilities = ServerCapabilities(
    tools: Option<ToolsCapability>, prompts: bool, resources: bool, logging: bool, completions: bool)

  /** Server identity (`Implementation`), taken from build metadata. */
  datatype Implementation = Implementation(name: string, version: string)

  datatype ServerInfo = ServerInfo(
    protocolVersion: string,
    capabilities: ServerCapabilities,
    serverInfo: Implementation,
    instructions: Option<string>)

  /** `CallToolResult::success`: the given content, flagged as not an error. */
  function Success(content: seq<Content>): CallToolResult {
    CallToolResult(content, Some(false))
  }

  // ---------------------------------------------------------------- the tools

  /** The three tools registered on the router. */
  datatype ToolName = Increment | Decrement | GetCounter {
    function Name(): string {
      match this
      case Increment => "increment"
      case Decrement => "decrement"
      case GetCounter => "get_counter"
    }

    function Description(): string {
      match this
      case Increment => "Tool that increments and decrements a counter"
      case Decrement => "Tool that decrements a counter"
      case GetCounter => "Tool that returns the current value of the counter"
    }
  }

  /** The names the router accepts. */
  function ToolNames(): set<string> {
    {"increment", "decrement", "get_counter"}
  }

  /** Router lookup: the tool registered under `name`, if any. */
  function LookupTool(name: string): (r: Option<ToolName>)
    ensures r.Some? <==> name in ToolNames()
    ensures r.Some? ==> r.value.Name() == name
  {
    if name == "increment" then Some(Increment)
    else if name == "decrement" then Some(Decrement)
    else if name == "get_counter" then Some(GetCounter)
    else None
  }

  /** The inverse direction of `LookupTool`: every tool is found under its own name. */
  lemma LookupToolName(t: ToolName)
    ensures LookupTool(t.Name()) == Some(t)
  {
  }

  /** Effect of one tool call on the counter value. */
  function Step(c: int, t: ToolName): int {
    match t
    case Increment => c + 1
    case Decrement => c - 1
    case GetCounter => c
  }

  /** A call of `t` on counter value `c` does not overflow `i32` (overflow panics in the source). */
  predicate CanRun(c: int, t: ToolName) {
    match t
    case Increment => c < I32_MAX
    case Decrement => c > I32_MIN
    case GetCounter => true
  }

  /** A call of the tool named `name` (if any) does not overflow. */
  predicate CanCall(c: int, name: string) {
    LookupTool(name).Some? ==> CanRun(c, LookupTool(name).value)
  }

  lemma StepStaysInI32(c: int, t: ToolName)
    requires InI32(c) && CanRun(c, t)
    ensures InI32(Step(c, t))
  {
  }

  /** The reply of every handler: one text item, the decimal rendering of the counter. */
  function Reply(c: int): CallToolResult {
    Success([Text(IntToString(c))])
  }

  /** The single text of a successful result, if it has exactly one text item. */
  function ReplyText(r: Result<CallToolResult, ErrorData>): Option<string> {
    if r.Ok? && |r.value.content| == 1 then Some(r.value.content[0].text) else None
  }

  /** The reply text is non-empty, starts with '-' exactly when the counter is negative, and parses back to it. */
  lemma ReplyParsesBack(c: int)
    requires InI32(c)
    ensures ReplyText(Ok(Reply(c))).Some?
    ensures var s := ReplyText(Ok(Reply(c))).value;
      |s| > 0 && (s[0] == '-' <==> c < 0) && ParseI32(s) == Some(c)
  {
    ParseIntToString(c);
  }

  /** Two counter values give the same reply only if they are equal. */
  lemma ReplyDeterminesCounter(c: int, d: int)
    requires InI32(c) && InI32(d)
    ensures Reply(c) == Reply(d) <==> c == d
  {
    if c != d {
      IntToStringInjective(c, d);
      assert Reply(c).content[0].text != Reply(d).content[0].text;
    }
  }

  // ---------------------------------------------------------------- static descriptors

  /** The tool descriptors the router lists (its order is not modelled). */
  function ToolDescriptors(): seq<Tool> {
    [ Tool(Increment.Name(), Increment.Description()),
      Tool(Decrement.Name(), Decrement.Description()),
      Tool(GetCounter.Name(), GetCounter.Description()) ]
  }

  /** `list_tools`: all tools, one page, whatever the pagination argument. */
  function ListTools(pagination: Option<PaginatedRequestParam>): (r: Result<ListToolsResult, ErrorData>)
    ensures r.Ok? && r.value.nextCursor.None?
    ensures |r.value.tools| == 3
    ensures (set i | 0 <= i < |r.value.tools| :: r.value.tools[i].name) == ToolNames()
    ensures forall i, j :: 0 <= i < j < |r.value.tools| ==> r.value.tools[i].name != r.value.tools[j].name
    ensures forall i :: 0 <= i < |r.value.tools| ==>
      LookupTool(r.value.tools[i].name).Some? &&
      r.value.tools[i].description == LookupTool(r.value.tools[i].name).value.Description()
  {
    var tools := ToolDescriptors();
    assert tools[0].name == "increment" && tools[1].name == "decrement" && tools[2].name == "get_counter";
    assert (set i | 0 <= i < |tools| :: tools[i].name) == ToolNames() by {
      assert forall n :: n in ToolNames() ==> tools[0].name == n || tools[1].name == n || tools[2].name == n;
    }
    Ok(ListToolsResult(tools, None))
  }

  /** The instructions text the server advertises. */
  const INSTRUCTIONS: string :=
    INSTRUCTIONS_HEAD + Quoted(Increment.Name()) + ", " + Quoted(Decrement.Name()) + ", and "
    + Quoted(GetCounter.Name()) + INSTRUCTIONS_TAIL

  const INSTRUCTIONS_HEAD: string :=
    "This server provide counter tools that can increment, decrement, and retrieve the current value of a counter. Use the "
  const INSTRUCTIONS_TAIL: string := " tools to interact with the counter."

  function Quoted(s: string): string {
    "'" + s + "'"
  }

  const PROTOCOL_VERSION_2024_11_05: string := "2024-11-05"

  predicate OccursAt(s: string, part: string, i: int) {
    0 <= i <= |s| - |part| && s[i..i + |part|] == part
  }

  predicate Contains(s: string, part: string) {
    exists i :: 0 <= i <= |s| - |part| && OccursAt(s, part, i)
  }

  /** `get_info`: protocol 2024-11-05, only the tools capability, the build identity and the instructions. */
  function GetInfo(build: Implementation): (info: ServerInfo)
    ensures info.protocolVersion == "2024-11-05"
    ensures info.capabilities.tools.Some?
    ensures !info.capabilities.prompts && !info.capabilities.resources
    ensures !info.capabilities.logging && !info.capabilities.completions
    ensures info.serverInfo == build
    ensures info.instructions.Some?
  {
    ServerInfo(
      PROTOCOL_VERSION_2024_11_05,
      ServerCapabilities(Some(ToolsCapability(None)), false, false, false, false),
      build,
      Some(INSTRUCTIONS))
  }

  /** The advertised instructions name every tool the router accepts, in quotes. */
  lemma InstructionsNameEveryTool(build: Implementation, t: ToolName)
    ensures Contains(GetInfo(build).instructions.value, Quoted(t.Name()))
  {
    var s := INSTRUCTIONS;
    var part := Quoted(t.Name());
    var a := INSTRUCTIONS_HEAD;
    var b := a + Quoted(Increment.Name()) + ", ";
    var c := b + Quoted(Decrement.Name()) + ", and ";
    var i := match t case Increment => |a| case Decrement => |b| case GetCounter => |c|;
    assert s == (if t == Increment then a else if t == Decrement then b else c) + part
      + s[i + |part|..];
    assert OccursAt(s, part, i);
  }

  // ---------------------------------------------------------------- the server object

  /** `HelloWorld`: the shared counter (a signed 32-bit value). */
  class HelloWorld {
    var counter: int

    ghost predicate Valid()
      reads this
    {
      InI32(counter)
    }

    /** `HelloWorld::new`: the counter starts at 0. */
    constructor ()
      ensures Valid() && counter == 0
    {
      counter := 0;
    }

    /** The `increment` tool: add 1 and reply with the new value. */
    method Increment() returns (r: Result<CallToolResult, ErrorData>)
      requires Valid() && counter < I32_MAX
      modifies this
      ensures Valid()
      ensures counter == old(counter) + 1
      ensures r == Ok(Reply(counter))
    {
      counter := counter + 1;
      r := Ok(Success([Text(IntToString(counter))]));
    }

    /** The `decrement` tool: subtract 1 (no floor) and reply with the new value. */
    method Decrement() returns (r: Result<CallToolResult, ErrorData>)
      requires Valid() && counter > I32_MIN
      modifies this
      ensures Valid()
      ensures counter == old(counter) - 1
      ensures r == Ok(Reply(counter))
    {
      counter := counter - 1;
      r := Ok(Success([Text(IntToString(counter))]));
    }

    /** The `get_counter` tool: reply with the current value; nothing changes. */
    method GetCounter() returns (r: Result<CallToolResult, ErrorData>)
      requires Valid()
      ensures ReplyText(r).Some? && ParseI32(ReplyText(r).value) == Some(counter)
      ensures r == Ok(Reply(counter))
    {
      r := Ok(Success([Text(IntToString(counter))]));
      ReplyParsesBack(counter);
    }

    /**
      `call_tool`: hand the name and arguments to the router, which runs the
      handler registered under that name; an unknown name is an error and the
      counter is untouched. The arguments are not read.
     */
    method CallTool(params: CallToolRequestParam) returns (r: Result<CallToolResult, ErrorData>)
      requires Valid() && CanCall(counter, params.name)
      modifies this
      ensures Valid()
      ensures r.Ok? <==> params.name in ToolNames()
      ensures LookupTool(params.name).Some? ==>
        counter == Step(old(counter), LookupTool(params.name).value) && r == Ok(Reply(counter))
      ensures LookupTool(params.name).None? ==> counter == old(counter)
    {
      match LookupTool(params.name)
      case Some(Increment) =>
        r := Increment();
      case Some(Decrement) =>
        r := Decrement();
      case Some(GetCounter) =>
        r := GetCounter();
      case None =>
        var e: ErrorData :| true;
        r := Err(e);
    }
  }

  // ---------------------------------------------------------------- sessions of calls

  /** Issue one call by tool name, with no arguments, and return its reply text. */
  method Call(server: HelloWorld, name: string) returns (text: Option<string>)
    requires server.Valid() && CanCall(server.counter, name)
    modifies server
    ensures server.Valid()
    ensures LookupTool(name).Some? ==> server.counter == Step(old(server.counter), LookupTool(name).value)
    ensures LookupTool(name).Some? ==> text == Some(IntToString(server.counter))
    ensures LookupTool(name).None? ==> text.None? && server.counter == old(server.counter)
  {
    var r := server.CallTool(CallToolRequestParam(name, None));
    text := ReplyText(r);
  }

  /** Fresh server; increment, increment, decrement, get_counter reply "1", "2", "1", "1". */
  method IncrementsThenDecrement() returns (texts: seq<Option<string>>)
    ensures texts == [Some("1"), Some("2"), Some("1"), Some("1")]
  {
    var server := new HelloWorld();
    var a := Call(server, "increment");
    var b := Call(server, "increment");
    var c := Call(server, "decrement");
    var d := Call(server, "get_counter");
    texts := [a, b, c, d];
  }

  /** Fresh server; decrement replies "-1": there is no floor at zero. */
  method DecrementFromZero() returns (text: Option<string>)
    ensures text == Some("-1")
  {
    var server := new HelloWorld();
    text := Call(server, "decrement");
    assert NatToString(1) == "1";
    assert IntToString(-1) == "-" + "1" == "-1";
  }

  /** Two consecutive `get_counter` calls reply with the same text, and an unknown tool leaves the counter alone. */
  method ReadTwice(server: HelloWorld, bogus: string) returns (first: Option<string>, second: Option<string>)
    requires server.Valid() && bogus !in ToolNames()
    modifies server
    ensures first.Some? && first == second
    ensures server.counter == old(server.counter)
  {
    first := Call(server, "get_counter");
    var none := Call(server, bogus);
    second := Call(server, "get_counter");
  }
}
