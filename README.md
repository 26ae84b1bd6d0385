# Synapse-OS workflow runner, in Dafny

Synapse-OS is a desktop automation tool: a visual editor builds a workflow of
typed nodes and the Rust backend runs it. This project models the backend's
two logic-bearing commands in `desktop/src-tauri/src/commands.rs`:

- `greet(name)`, the connection test, which answers
  `Hello, <name>! Synapse-OS Backend is online.`;
- `run_workflow(nodes)`, the (mock) executor. It walks the submitted node
  list in order. For every node it writes `Processing node: <id> (<type>)`
  and then one line chosen by the node's type tag: `log` prints its
  `message`, `delay` announces its `ms`, `file_move` announces its `source`
  and `dest`, and any other tag gets a warning line. Missing or ill-typed
  parameters fall back to `No message`, `1000` and `?`. Every node counts as
  a success. The run always returns `Ok` with `success = true`, the message
  `Executed <n> nodes successfully.` and the accumulated log.

Files:

- `wrappers.dfy` — `Option` (with Rust's `unwrap_or`) and `Result`.
- `json_value.dfy` — the JSON value a node carries as `data` (serde_json's
  `Value`), with key lookup (`v[key]`, which yields `Null` for a missing key
  or a non-object), `as_str` and `as_u64`.
- `decimal.dfy` — Rust's `{}` formatting of unsigned integers, with a parser
  for canonical numerals and the round trip in both directions.
- `text.dfy` — stripping a known prefix and suffix, used to read lines back.
- `commands.dfy` — nodes and the execution result, the line builders, the
  specification `ExpectedLogs` of a run's log, and `RunWorkflow`, an
  imperative method with the source's loop, proved against that
  specification.

The runner is a mock. The backend receives a bare node list with no edges
(`desktop/src/App.tsx` lines 31-33 send only `nodes`), walks it in order, and
no node can fail. No delay is waited out and no file is moved: those nodes
only describe what they would do.

## Model

| member | source | states |
|---|---|---|
| `JsonValue.Index` | desktop/src-tauri/src/commands.rs:55-65 | looking up a key yields that member of an object, and `Null` whenever the value is not an object or lacks the key; a non-`Null` result is always the object's member |
| `JsonValue.AsStr` | desktop/src-tauri/src/commands.rs:55 | `as_str` succeeds if and only if the value is a string, and then returns that string |
| `JsonValue.AsU64` | desktop/src-tauri/src/commands.rs:59 | `as_u64` succeeds if and only if the value is a number stored as a non-negative 64-bit integer, and then returns it; negative integers, floats and non-numbers give nothing |
| `Decimal.NatToString` | desktop/src-tauri/src/commands.rs:61 | `{}` of an unsigned integer is a non-empty string of digits without leading zeros, starting with `0` exactly when the number is zero |
| `Decimal.NatToStringRoundTrip` | desktop/src-tauri/src/commands.rs:61 | reading back a printed number gives the number |
| `Decimal.ParseNatRoundTrip` | desktop/src-tauri/src/commands.rs:80 | every numeral the parser accepts is exactly how its number prints, so printing is a bijection onto canonical numerals |
| `Decimal.NatToStringInjective` | desktop/src-tauri/src/commands.rs:80 | different counts and durations print differently |
| `Commands.Greet` | desktop/src-tauri/src/commands.rs:31-33 | the reply is `Hello, ` + name + `! Synapse-OS Backend is online.`: the name can be read back from it, and it is 38 characters longer than the name |
| `Commands.LogMessage` | desktop/src-tauri/src/commands.rs:55 | a `log` node's message is `data["message"]` when that is a string, and `No message` otherwise |
| `Commands.DelayMs` | desktop/src-tauri/src/commands.rs:59 | a `delay` node's duration is `data["ms"]` when that is an unsigned 64-bit integer, and 1000 otherwise |
| `Commands.MoveEndpoint` | desktop/src-tauri/src/commands.rs:64-65 | a `file_move` endpoint is the string under `source` / `dest`, and `?` when that is missing or not a string |
| `Commands.KindOf` | desktop/src-tauri/src/commands.rs:53 | the dispatch picks the `log`, `delay` and `file_move` arms exactly when the tag equals that string (case-sensitive), and the catch-all arm for every other tag |
| `Commands.ProcessingLine` | desktop/src-tauri/src/commands.rs:50 | the first line for a node starts with `Processing node: `, continues with the node's id and ends with ` (` + type tag + `)` |
| `Commands.ActionLine` | desktop/src-tauri/src/commands.rs:53-71 | the second line for a node starts with the prefix of the arm its type tag selects: `LOG OUTPUT: `, `Waiting for `, `Moving ` or the warning sign and `Unknown node type: ` |
| `Commands.ActionLineKind` | desktop/src-tauri/src/commands.rs:53-71 | the second line for a node never looks like a `Processing node` line, and its opening (`LOG OUTPUT: `, `Waiting for `, `Moving `, the warning sign) identifies exactly which arm of the exact, case-sensitive dispatch on `log`, `delay`, `file_move` or anything else produced it |
| `Commands.LogLineRoundTrip` | desktop/src-tauri/src/commands.rs:54-57 | a `log` node's line is `LOG OUTPUT: ` followed by exactly its message (or the default) |
| `Commands.DelayLineRoundTrip` | desktop/src-tauri/src/commands.rs:58-62 | a `delay` node's `Waiting for <ms>ms...` line announces exactly the node's duration (or the default 1000), readable back as a number |
| `Commands.UnknownLineRoundTrip` | desktop/src-tauri/src/commands.rs:68-70 | an unrecognised node's warning line ends with exactly its type tag, which can be read back |
| `Commands.ProcessingLineAmbiguous` | desktop/src-tauri/src/commands.rs:50 | the `Processing node` line cannot always be read back: id `a (b` with type `c` prints the same line as id `a` with type `b (c` |
| `Commands.MoveLineAmbiguous` | desktop/src-tauri/src/commands.rs:63-67 | the `file_move` line cannot always be read back: source `a to b` with dest `c` prints the same line as source `a` with dest `b to c` |
| `Commands.ExpectedLogs` | desktop/src-tauri/src/commands.rs:48-74 | the log of a run is each node's two lines in input order, so it has exactly two lines per node |
| `Commands.ExpectedLogsAt` | desktop/src-tauri/src/commands.rs:48-71 | line 2i is node i's `Processing node` line and line 2i+1 is the line node i's type selects: the log keeps the input order |
| `Commands.ExpectedLogsAppend` | desktop/src-tauri/src/commands.rs:48-74 | the log of a concatenated node list is the concatenation of the two logs, so each node's lines depend on that node alone |
| `Commands.LogsAlternate` | desktop/src-tauri/src/commands.rs:48-71 | in a run's log exactly the even-numbered lines are `Processing node` lines |
| `Commands.SummaryMessage` | desktop/src-tauri/src/commands.rs:80 | the message `Executed <n> nodes successfully.` states exactly the count it was built from, readable back as a number |
| `Commands.RunWorkflow` | desktop/src-tauri/src/commands.rs:37-83 | the run always returns `Ok` with `success = true`; its message reports the number of submitted nodes (also for an empty list); its log is the specification `ExpectedLogs`, two lines per node in input order, line 2i the `Processing node` line and line 2i+1 the type-selected line of node i |

## Left out

- Console output (`println!`, commands.rs lines 39-40, 49 and 76): it does not affect the returned result.
- `get_system_info` (commands.rs lines 88-94): it only reads the build's OS, architecture and package version.
- Deserialising the node list from JSON and the asynchronous Tauri command plumbing: library behaviour; the model starts from the already-deserialised node list.
- `desktop/src-tauri/src/main.rs` (application bootstrap and handler registration), `desktop/src/App.tsx` (UI state, JSON parsing, the IPC call, alerts) and `desktop/src/views/Editor.tsx` (canvas rendering): user-interface code with no logic of the runner.
- Graph validation, stage planning, failure and skip propagation, concurrency, real delays, file writes and agent calls: the code does none of them.
- `JsonValue.Number`: a floating-point number carries no value in the model, because the runner never reads one (`as_u64` refuses it and nothing prints it). Booleans and arrays are kept only so that lookups and conversions can fail on them.
- `Commands.RunWorkflow`: `success_count` is an `i32` in the source; the model counts with an unbounded natural, so it does not model the overflow past 2^31 - 1 nodes, a list too long to be held in memory.
- `Commands.RunWorkflow`: the `Vec` that `logs.push` grows in place is modelled as a sequence the loop reassigns; nothing else holds a reference to it.
