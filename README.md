# Counter MCP server — Dafny model

This project models the counter server in `src/main.rs`. The server keeps one
shared signed 32-bit counter, `HelloWorld.counter`, which starts at 0. It offers
three tools to a Model Context Protocol client:

- `increment` adds 1.
- `decrement` subtracts 1, with no floor at zero.
- `get_counter` reads the value.

Each tool answers with a successful `CallToolResult` that holds exactly one text
item: the decimal rendering of the counter after the call. The `ServerHandler`
side has three parts:

- `call_tool` hands the request's name and arguments to the tool router.
- `list_tools` returns every tool descriptor on a single page.
- `get_info` describes the server: protocol `2024-11-05`, only the tools
  capability, the build identity and a fixed instructions text.

Modules:

- `Wrappers`: Rust's `Option` and `Result`.
- `Decimal`: `i32::to_string` as `IntToString`, and `str::parse::<i32>` as
  `ParseI32`. It proves that both round trips hold and that the rendering is
  injective.
- `CounterServer`: the protocol records and the `HelloWorld` class. `Increment`
  and `Decrement` update the `counter` field in place under `modifies this`;
  `GetCounter` only reads it.
  `Valid()` keeps the field in i32 range. `CallTool` dispatches by name. The
  pure functions `ListTools` and `GetInfo` build the static descriptors. A few
  client methods replay short call sequences: two increments then a decrement,
  a decrement from zero, two reads.
- `CallSequences`: runs of calls issued one at a time. Each locked section is
  one atomic `Step`, so a run is the composition of its steps. `RunCalls`
  issues a sequence of calls through `HelloWorld.CallTool` and leaves the
  counter where the fold `Run` says. The lemmas prove that the counter equals
  #increment − #decrement and that `get_counter` calls do not matter. They also
  prove that `k` increments add exactly `k`, which is the no-lost-updates claim
  in sequential form.

Some behaviour lives in the rmcp library rather than in src/main.rs, so the
model promises less there:

- The unknown-tool error comes from the macro-generated router, and its shape
  is not visible in src/main.rs. `CallTool` therefore promises only an error and
  an unchanged counter. The error value is chosen arbitrarily.
- The listing order comes from the router's `list_all()`, which is not visible
  here. `ListTools` therefore promises the set of names, their distinctness and
  the count, but no order.

The `increment` tool's descriptor reads "Tool that increments and decrements a
counter". The model keeps that text as the code has it.

## Model

| member | source | states |
|---|---|---|
| Decimal.NatToString | src/main.rs:27-29 | the digits of a natural number are non-empty and all decimal, with no superfluous leading zero, and they are "0" exactly for 0 |
| Decimal.IntToString | src/main.rs:27-29 | the rendering of a counter value is canonical decimal, with a leading '-' exactly when the value is negative |
| Decimal.ParseI32 | src/main.rs:27-29 | a successful parse yields a value in i32 range, and a negative value only from text that starts with '-' |
| Decimal.DigitsValueOfNatToString | src/main.rs:27-29 | reading back the digits of `n` gives `n` |
| Decimal.NatToStringOfDigitsValue | src/main.rs:27-29 | canonical digits are the rendering of their own value |
| Decimal.ParseIntToString | src/main.rs:27-29 | parsing the rendering of any i32 value gives that value back |
| Decimal.IntToStringOfParse | src/main.rs:27-29 | rendering the value of a canonical text that parses gives the same text back |
| Decimal.IntToStringInjective | src/main.rs:27-29 | distinct i32 values render as distinct texts |
| CounterServer.LookupTool | src/main.rs:23-47 | the router knows exactly the names increment, decrement and get_counter, and each resolves to the tool of that name |
| CounterServer.LookupToolName | src/main.rs:23-47 | the inverse direction: every tool is found under its own name |
| CounterServer.StepStaysInI32 | src/main.rs:26 | a call allowed by the overflow bound keeps the counter in i32 range |
| CounterServer.ReplyParsesBack | src/main.rs:27-29 | every handler's reply is one non-empty text that starts with '-' exactly for a negative counter and that parses back to the counter |
| CounterServer.ReplyDeterminesCounter | src/main.rs:36-38 | two replies are equal exactly when the counter values are equal |
| CounterServer.ListTools | src/main.rs:63-72 | whatever the pagination argument, the listing succeeds on one page with no next cursor; it holds exactly three descriptors whose names are distinct and are increment, decrement and get_counter, each with its own description |
| CounterServer.GetInfo | src/main.rs:51-61 | the server info gives protocol version 2024-11-05, enables the tools capability and no other, carries the build identity unchanged and includes instructions |
| CounterServer.InstructionsNameEveryTool | src/main.rs:56-59 | the advertised instructions name each of the three tools in quotes |
| CounterServer.HelloWorld.constructor | src/main.rs:17-21 | a new server's counter is 0 |
| CounterServer.HelloWorld.Increment | src/main.rs:24-30 | the counter rises by exactly 1 and the result is Ok with one text item rendering the new value |
| CounterServer.HelloWorld.Decrement | src/main.rs:33-39 | the counter falls by exactly 1, with no floor, and the result is Ok with one text item rendering the new value |
| CounterServer.HelloWorld.GetCounter | src/main.rs:42-47 | without changing anything, the result is Ok with one text item that renders the counter and parses back to it |
| CounterServer.HelloWorld.CallTool | src/main.rs:74-85 | a known name runs exactly that handler, with its effect and its reply; an unknown name gives an error and leaves the counter unchanged; the result is Ok exactly for the three tool names; arguments play no part |
| CounterServer.Call | src/main.rs:74-85 | a call by name, without arguments, replies with the rendering of the counter after that tool's step, or with no text and no change for an unknown name |
| CounterServer.IncrementsThenDecrement | src/main.rs:17-47 | on a fresh server, increment, increment, decrement and get_counter reply "1", "2", "1" and "1" |
| CounterServer.DecrementFromZero | src/main.rs:33-39 | on a fresh server, decrement replies "-1" |
| CounterServer.ReadTwice | src/main.rs:42-47 | two get_counter calls, with an unknown-tool call between them, reply with the same text and leave the counter unchanged |
| CallSequences.RunIsNet | src/main.rs:25-26 | after any sequence of calls to the three tools, the counter has moved by #increment − #decrement |
| CallSequences.FreshRunIsNet | src/main.rs:17-21 | from a fresh server, the counter equals #increment − #decrement |
| CallSequences.GetCounterDoesNotAffectRun | src/main.rs:42-47 | adding a get_counter call anywhere in a run leaves the run's final value unchanged |
| CallSequences.NoLostIncrements | src/main.rs:24-30 | k increments, one at a time, raise the counter by exactly k |
| CallSequences.AdmissibleStaysInI32 | src/main.rs:12 | when no call in a run overflows, the counter stays in i32 range after every prefix of the run |
| CallSequences.RunAppend | src/main.rs:25 | running a prefix and then the rest of a sequence has the same effect as running the whole sequence |
| CallSequences.RunCalls | src/main.rs:74-85 | calls to the three tools, issued one at a time through CallTool, none of which overflows, leave the server's counter at the fold `Run` of their steps from the old value |
| CallSequences.FreshServerRun | src/main.rs:17-21 | on a fresh server, any sequence of calls to the three tools that never overflows leaves the counter at #increment − #decrement |

## Left out

- The `Arc<Mutex<i32>>` lock and `async`/`await` (src/main.rs:2, 12, 25, 34, 43) are not modelled. Each locked section is one atomic step, so interleavings of concurrent callers are not modelled, beyond the fact that any order in which the lock is granted is a sequence of such steps.
- `main`, `serve(stdio())` and `waiting()` (src/main.rs:90-96) are left out. They are process start-up and stdio transport.
- The protocol handshake (initialize before calls, protocol-violation errors) and the JSON message encoding are left out. Both belong to the `rmcp` library, which is not part of this model.
- The internals of the macro-generated tool router are left out. That covers the shape of its unknown-tool error and the order `list_all()` returns descriptors in.
- `Implementation::from_build_env()` (src/main.rs:55) reads build metadata. `GetInfo` receives the result as its parameter `build`.
- The request context (`RequestContext<RoleServer>`) that `list_tools` and `call_tool` receive is not modelled. `list_tools` ignores it and `call_tool` only forwards it to the router.
- Tool descriptors keep only a name and a description. The input schema (empty, because no tool takes parameters) and annotations are not modelled. Tool arguments are a map from key to JSON text.
- `CallToolResult` keeps only its content and its error flag. Content items are text only.
- CounterServer.HelloWorld.Increment: does not model the overflow panic at 2147483647. Instead it requires `counter < I32_MAX`, because `+=` on `i32` panics in debug builds and wraps in release builds.
- CounterServer.HelloWorld.Decrement: does not model the overflow panic at −2147483648. Instead it requires `counter > I32_MIN`, for the same reason.
- CounterServer.HelloWorld.CallTool: requires that the named tool does not overflow, which inherits the two bounds above.
- CallSequences.RunCalls: runs range over the three tools only; a run with unknown-tool calls is not covered, although each such call leaves the counter unchanged by `CallTool`'s contract.
- Decimal.ParseI32: reports a failed parse as `None` and does not distinguish the kinds of `ParseIntError` (empty, invalid digit, positive or negative overflow).

