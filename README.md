# handle-sandbox, modelled in Dafny

handle-sandbox runs untrusted JavaScript in a Deno child process and lets
that code call functions registered on the host. There are two ends of one
pipe, and both speak line-delimited JSON-RPC 2.0.

- **The host** is the `Sandbox` class together with its `JsonRpcHandler`. It:
  - launches the worker;
  - sends `executeCode` requests;
  - frames the worker's stdout into lines;
  - matches each reply to the call awaiting it;
  - answers the worker's `callHandler` requests;
  - times calls out;
  - rejects every outstanding call when the worker goes away.
- **The worker** (`runtime.ts`) reads requests from stdin and runs the code with a capturing console and one proxy per handler name. It answers with `{logs, result}` or `{logs, error}`. A proxy call writes its own request and then reads stdin until a line with its id arrives.

The project has one module per concern:

| Module | What it holds |
|---|---|
| `Wrappers` | `Option`, `Result` |
| `JsValue` | JavaScript runtime values, with objects kept in insertion order |
| `Json` | `JSON.stringify` (compact and two-space indented) and `JSON.parse` on integers, written out concretely |
| `JsonLemmas` | the round trip `JSON.parse(JSON.stringify(v))`, which gives back `v` with `undefined` members dropped and `undefined` array items turned into `null` |
| `Text` | `split("\n")`, `join`, `trim` |
| `Types` | the interfaces and constants, as predicates on values |
| `JsonRpc` | the envelope builders, the parser and the serializer |
| `Host` | the host: a pure `Link` state with pure transition functions, and class `Sandbox`, whose methods are proved to move the state exactly as those functions say while keeping `Valid()` |
| `Worker` | the worker: pure specification functions and class `Runtime`, whose methods are proved against them |
| `Protocol` | end-to-end lemmas that follow each kind of message from one side's writer through the other side's parser and dispatch |

Two behaviours of the code worth knowing:

- `start()` is refused only while a process exists. After `stop()` or an exit, `cleanup` sets the process back to null, so the handle can be started again (`Host.StopThenStart`).
- The worker keeps one module-level `logs` array. It clears the array at the start of each `executeCode` and returns a copy. `Runtime.logs` is that shared array, and `Worker.ExecutionReportsOwnLogs` shows that each run still reports exactly its own lines.

## Model

| member | source | states |
|---|---|---|
| Types.Code | src/types.ts:43-49 | each protocol error code has its fixed number, inside the range JSON-RPC reserves for predefined errors (-32768..-32000) |
| Types.CodeOf | src/types.ts:43-49 | a recognised number maps to the code that has that number |
| Types.CodesDistinct | src/types.ts:43-49 | every code is recovered from its number, so no two codes share one |
| Types.MethodOf | src/types.ts:51-54 | a recognised method name maps to the method with that name |
| Types.MethodNamesDistinct | src/types.ts:51-54 | `callHandler` and `executeCode` differ, and each name is recovered as its method |
| JsonRpc.Request | src/json-rpc.ts:10-12 | the request envelope has an id, a method name and params; with a string or number id it is a `JsonRpcRequest`; it has no result or error member |
| JsonRpc.Response | src/json-rpc.ts:14-16 | `createResponse` echoes the id and the result; it is a `JsonRpcResponse` with no error and no method member |
| JsonRpc.ErrorResponse | src/json-rpc.ts:18-24 | `createErrorResponse` echoes the id and carries an error object `{code, message}`; it has no result and no method member |
| JsonRpc.ParseMessage | src/json-rpc.ts:26-34 | the result is the parsed object, unchanged, exactly when the text is valid JSON whose `jsonrpc` member is "2.0", and null otherwise |
| JsonRpc.SerializeMessage | src/json-rpc.ts:36-38 | the text is one line (no line feed), and parsing it gives the message back as JSON keeps it |
| JsonRpc.MessageRoundTrip | src/json-rpc.ts:26-38 | every version-2.0 object survives `serializeMessage` followed by `parseMessage` |
| JsonRpc.ResponseRoundTrip | src/json-rpc.ts:14-16 | a response whose result has no `undefined` in it comes back exactly |
| JsonRpc.UndefinedResultDropped | src/json-rpc.ts:14-16 | a response with an `undefined` result comes back with no result member |
| JsonRpc.ErrorResponseRoundTrip | src/json-rpc.ts:18-24 | an error response comes back exactly |
| JsonRpc.RequestRoundTrip | src/json-rpc.ts:10-12 | a request whose params have no `undefined` in them comes back exactly |
| JsonRpc.JsonRpcHandler.constructor | src/json-rpc.ts:8 | the counter starts at 0 |
| JsonRpc.JsonRpcHandler.CreateRequest | src/json-rpc.ts:10-12 | the counter goes up by one and the request carries the new value as its id, so the ids are 1, 2, 3, … |
| JsonLemmas.ParseStringify | src/json-rpc.ts:26-38 | `JSON.parse` of `JSON.stringify(v, null, gap)` gives `v` back as JSON keeps it, for any white-space gap |
| Text.Split | src/sandbox.ts:127-128 | the pieces have no line feed in them, there is at least one piece, and joining them with line feeds gives the text back |
| Text.SplitLines | src/sandbox.ts:127-129 | the text is the complete lines, each with its line feed, followed by the held-back last piece |
| Text.TrimEmptyIffBlank | runtime/runtime.ts:128 | `trim()` is empty exactly when the line is all white space |
| Host.IssueKeepsAccounted | src/sandbox.ts:217-239 | the next id is neither pending nor settled, and registering it keeps every issued id either pending or settled |
| Host.Answer | src/sandbox.ts:179-197 | a returned value becomes a result reply; a thrown error becomes an error reply with -32603 and the thrown message; the reply keeps the request's id |
| Host.ReplyTo | src/sandbox.ts:169-199 | every request from the worker gets exactly one reply, with the request's id |
| Host.RequestAnswered | src/sandbox.ts:169-207 | handling a request writes exactly that reply as one line to the worker's stdin, and leaves the pending and settled calls alone |
| Host.RegisteredHandlerAnswers | src/sandbox.ts:171-180 | a `callHandler` naming a registered handler is answered with what that handler does with the given arguments |
| Host.UnregisteredHandlerFails | src/sandbox.ts:173-177 | a `callHandler` naming no registered handler is answered with -32603 and "Handler not found: <name>" |
| Host.OtherMethodNotFound | src/sandbox.ts:181-189 | any other method is answered with -32601 and "Method not found: <method>" |
| Host.ReplyWinsOverMethod | src/sandbox.ts:140-146 | a message with `result` or `error` is treated as a reply even when it also has a `method` |
| Host.UnknownReplyIgnored | src/sandbox.ts:153-158 | a reply for an id that is not pending changes nothing |
| Host.KnownReplySettles | src/sandbox.ts:153-164 | a reply for a pending id removes exactly that entry and settles exactly that call: rejected when `error` is truthy, otherwise resolved with `result` |
| Host.ResponseKeepsAccounted | src/sandbox.ts:153-164 | after a reply, every issued id is still either pending or settled, and earlier settlements are unchanged |
| Host.MessageKeepsAccounted | src/sandbox.ts:140-146 | the same holds for every message |
| Host.LinesKeepAccounted | src/sandbox.ts:131-147 | the same holds for every sequence of lines |
| Host.AfterLinesAppend | src/sandbox.ts:126-148 | handling lines in two batches is the same as handling them all at once |
| Host.SkippedLine | src/sandbox.ts:131-138 | a blank line, or one that is not version-2.0 JSON, is skipped without stopping the loop |
| Host.TimeoutThenReplyDropped | src/sandbox.ts:220-226 | when the timer fires, the pending call is rejected with "Request timeout after <ms>ms", and a reply that arrives later is dropped |
| Host.TimeoutKeepsAccounted | src/sandbox.ts:223-226 | a timeout keeps every issued id accounted for and leaves earlier settlements alone |
| Host.TerminateSettlesAll | src/sandbox.ts:289-305 | teardown leaves no process and nothing pending, rejects every pending call with "Sandbox terminated", keeps earlier outcomes, and a second teardown changes nothing |
| Host.RuntimeCandidates | src/sandbox.ts:62-69 | the runtime script is looked for in six places |
| Host.FindRuntime | src/sandbox.ts:71-81 | the result is the first candidate that exists; it is an error exactly when none exists, and the error lists every candidate |
| Host.DenoBinaryPath | src/sandbox.ts:45-54 | the path is an error exactly when module resolution is unavailable, with "Cannot resolve deno package" |
| Host.LaunchArgs | src/sandbox.ts:92-102 | the arguments start with `run --no-prompt`, then the memory flag when the limit is truthy, then the permission flags in order; the runtime path is last |
| Host.TimeoutMs | src/sandbox.ts:220 | the deadline is the explicit timeout if truthy, else the configured one if truthy, else 30000; it is never 0 |
| Host.ExecuteParams | src/sandbox.ts:251-255 | the params carry the code as given and every handler name in order |
| Host.FailedExecution | src/sandbox.ts:258-263 | a failed call becomes an `ExecutionResult` with no logs, the error message and no result |
| Host.ExecuteNeverThrows | src/sandbox.ts:246-264 | `execute` resolves with the worker's package, or, when the call is rejected (error reply, timeout, teardown), with `{logs: [], error}`; it never rejects |
| Host.Sandbox.constructor | src/sandbox.ts:23-33 | the sandbox starts with no process, no pending calls, no handlers and an empty buffer |
| Host.Sandbox.RegisterHandler | src/sandbox.ts:38-40 | the name is mapped to the handler; a new name goes last in key order, and a known name keeps its place |
| Host.Sandbox.Start | src/sandbox.ts:87-121 | start is refused with "Sandbox already started" when a process exists; otherwise, when no candidate exists it fails with the not-found message listing all six, and when one exists it succeeds exactly when the deno package resolves (else "Cannot resolve deno package"); on success the process is `bin.cjs` of the deno package, run with `LaunchArgs` ending in the first present candidate, with nothing yet written to its stdin |
| Host.StopThenStart | src/sandbox.ts:269-305 | after `stop`, `start` succeeds again whenever a runtime script exists and the deno package resolves, with every call that was pending rejected as "Sandbox terminated" |
| Host.Sandbox.SendMessage | src/sandbox.ts:204-207 | the message is one line on the worker's stdin; the call fails with "Sandbox not started" exactly when there is no process |
| Host.Sandbox.HandleResponse | src/sandbox.ts:153-164 | the new state is the pure reply transition of the old state, and every issued id stays accounted for |
| Host.Sandbox.HandleRequest | src/sandbox.ts:169-199 | the one reply is written; nothing else changes |
| Host.Sandbox.HandleLine | src/sandbox.ts:131-147 | one complete line acts as `AfterLine` says |
| Host.Sandbox.HandleStdout | src/sandbox.ts:126-148 | the old buffer plus the chunk equals the complete lines, each with its line feed, followed by the new buffer; the lines are handled in order |
| Host.Sandbox.SendRequest | src/sandbox.ts:212-241 | without a process it fails with "Sandbox not started" and changes nothing; otherwise it takes the next id, which is fresh, registers it with its deadline and writes the request |
| Host.Sandbox.Execute | src/sandbox.ts:246-264 | the call is an `executeCode` request listing every registered handler in order, or it finishes at once as a failed execution when there is no process |
| Host.Sandbox.TimeoutFired | src/sandbox.ts:223-226 | the new state is the pure timeout transition of the old state |
| Host.Sandbox.Cleanup | src/sandbox.ts:289-305 | the new state is the teardown of the old state |
| Host.Sandbox.Stop | src/sandbox.ts:269-284 | without a process nothing changes; otherwise it ends in the teardown state; afterwards there is no process |
| Worker.FormatValueMeaning | runtime/runtime.ts:59-63 | an object or array is logged as two-space-indented JSON that parses back to it as JSON keeps it (undefined members dropped, undefined items null); null, undefined, booleans, strings and numbers are logged as `String(...)` writes them |
| Worker.ConsoleLineShape | runtime/runtime.ts:75-83 | a `log` line has no prefix; `error`, `warn` and `info` lines start with their prefix; the arguments follow, separated by spaces |
| Worker.PackageShape | runtime/runtime.ts:99-112 | both outcomes are `ExecutionResult`s holding a copy of the logs; success carries `result`, and failure carries the thrown message as `error` and no result |
| Worker.ProxyParams | runtime/runtime.ts:91-96 | a proxy sends its own name and the arguments it was called with |
| Worker.FirstOccurrences | runtime/runtime.ts:86-97 | the proxy record keys are the handler names, each once, in first-occurrence order; with distinct names they are the names themselves |
| Worker.BuildProxies | runtime/runtime.ts:90-97 | the loop produces exactly those keys |
| Worker.LastIndex | runtime/runtime.ts:99-105 | a repeated parameter name takes the last position that has it |
| Worker.DistinctNamesBindOwnProxy | runtime/runtime.ts:99-105 | with distinct handler names, each parameter is bound to the proxy of its own name |
| Worker.RepeatedNameShiftsBindings | runtime/runtime.ts:99-105 | with a repeated name the values shift: for `a, a, b` the parameter `a` gets `b`'s proxy, and `b` gets nothing |
| Worker.ExecutionReportsOwnLogs | runtime/runtime.ts:68-113 | whatever earlier runs logged, a run reports exactly its own console lines, and a failed guest is returned as data |
| Worker.NonBlankKeeps | runtime/runtime.ts:128 | the filter keeps exactly the non-blank lines |
| Worker.ActionOf | runtime/runtime.ts:130-144 | a line is run only when it is JSON whose method is `executeCode`, and it is run with the request's id |
| Worker.ExecuteCodeRuns | runtime/runtime.ts:132-141 | an `executeCode` request with object params is run with its id, its code and its handler list |
| Worker.LineEffect | runtime/runtime.ts:130-157 | any line that is not run leaves the logs alone and writes nothing |
| Worker.OnlyExecuteCodeAnswered | runtime/runtime.ts:135-152 | only `executeCode` lines are answered, with one result response carrying the request's id |
| Worker.OutputAppend | runtime/runtime.ts:130-158 | lines are independent: the output for two batches of lines is the output of each, one after the other |
| Worker.LineVerdict | runtime/runtime.ts:40-52 | a line settles the wait only if it is JSON; a reply with another id is passed over |
| Worker.PassedOver | runtime/runtime.ts:41-50 | a line that is not JSON, and a reply for another id, are skipped as if absent |
| Worker.MatchingReply | runtime/runtime.ts:43-48 | the matching reply gives its result, or "JSON-RPC Error: <message>" when its error is truthy |
| Worker.AwaitReply | runtime/runtime.ts:33-53 | the wait reads at most the chunks there are; with no input it fails with "Stdin closed" |
| Worker.ScanChunk | runtime/runtime.ts:40-52 | the loop over a chunk's lines stops at the first line that settles the call |
| Worker.Runtime.constructor | runtime/runtime.ts:14 | the shared log buffer starts empty |
| Worker.Runtime.Console | runtime/runtime.ts:75-83 | each console call appends exactly one line to the shared buffer |
| Worker.Runtime.Record | runtime/runtime.ts:75-83 | a run's console calls are appended in call order |
| Worker.Runtime.ExecuteCode | runtime/runtime.ts:68-113 | the logs are reset, then filled with the run's lines; the result is the run's package |
| Worker.Runtime.HandleLine | runtime/runtime.ts:130-157 | the text written and the logs left after one line are those that `LineEffect` gives |
| Worker.Runtime.HandleChunk | runtime/runtime.ts:127-158 | a chunk writes the output of its non-blank lines in order, with lines split within the chunk only |
| Worker.Runtime.Serve | runtime/runtime.ts:118-160 | the main loop consumes all input, writes the output of every chunk in order, and leaves the shared log buffer as the runs of those chunks, one after another, left it |
| Worker.LogsAfterLastRun | runtime/runtime.ts:71-82 | the log buffer is cleared at the start of every run, so after a batch of lines it holds the logs of the last line that ran, and is untouched when none ran |
| Worker.Runtime.SendRequest | runtime/runtime.ts:19-54 | the request line is written first; the outcome, and the chunks consumed, are those that `AwaitReply` gives; the logs are untouched |
| Worker.Runtime.Await | runtime/runtime.ts:33-53 | the read loop ends exactly as `AwaitReply` says, and leaves the unread chunks |
| Worker.Runtime.Invoke | runtime/runtime.ts:91-96 | a proxy call is a `callHandler` request with the proxy's name and its arguments |
| Protocol.MessageNotBlank | src/sandbox.ts:132 | a serialized message is never a blank line |
| Protocol.ExecuteRequestRuns | runtime/runtime.ts:130-141 | the host's `executeCode` request, read by the worker, is run with the host's id, the code and the handler list as sent, whatever the context holds (`undefined` included) |
| Protocol.ExecuteRequestReachesGuest | runtime/runtime.ts:86-106 | the guest gets the code and exactly the host's handler names, each bound to its own proxy |
| Protocol.ReplySettlesCall | src/sandbox.ts:153-164 | the worker's reply, read by the host, settles the pending call with that id, resolving it with the result as JSON carries it |
| Protocol.LateReplyDropped | src/sandbox.ts:154-158 | a reply for a call the host no longer awaits changes nothing |
| Protocol.PackageSurvives | runtime/runtime.ts:106-111 | an execution package crosses the pipe with its logs and its error message intact, and unchanged when nothing in it is undefined |
| Protocol.ExecuteRoundTrip | src/sandbox.ts:246-257 | one full round: the worker answers the host's request with the run's package under the same id, and reading that reply settles exactly that call with the package, whatever the context holds |
| Protocol.ProxyRequestStrip | runtime/runtime.ts:91-95 | a proxy's `callHandler` request reads back on the host with the arguments as JSON carries them (an `undefined` argument becomes `null`) |
| Protocol.ProxyCallReachesHandler | src/sandbox.ts:169-199 | a guest's proxy call, read by the host, is dispatched to the handler of that name with the arguments as JSON carries them, and answered with one reply carrying the worker's id; this holds for every argument list, `undefined` included |
| Protocol.ErrorReplyFailsCall | runtime/runtime.ts:45-47 | the host's error reply makes the worker's waiting call fail with "JSON-RPC Error: " and the message |
| Protocol.HandlerOutcomeReachesGuest | runtime/runtime.ts:43-48 | a handler's return value reaches the guest as JSON carries it (a void handler's `undefined` stays `undefined`); a thrown error reaches it as "JSON-RPC Error: <message>" |

## Left out

- Numbers are integers only, and every integer is kept exactly and printed in full. JavaScript matches that only within ±2^53, where a double is exact, and below 1e21, where `String` and `JSON.stringify` switch to exponent form. Floating point, `NaN`, `Infinity` and `-0` are not modelled. `JSON.parse` of a `\uD800`-`\uDFFF` escape is not modelled either: the parser rejects every such escape, lone halves and escaped surrogate pairs (`"\ud83d\ude00"`) alike, where `JSON.parse` accepts them.
- `path.join` and `existsSync` are parameters of `Host.Sandbox.Start`. So is the result of resolving the deno package through `import.meta.resolve`. `fileURLToPath` and the module's own URL are not part of this model.
- `spawn` is modelled as the `Process(binary, args, stdin)` value; the child process itself is not modelled. Several things are events instead:
  - the stdout `data` listener is `HandleStdout`;
  - process `exit` and `error` are `Cleanup`;
  - the stderr listener and every `console.error` / `console.log` diagnostic are left out, being output only.
- Timers and promises are events. A timer firing is `TimeoutFired`, and the outcome an awaiting caller sees is the ghost `settled` map. Waiting itself, and the order in which callbacks interleave, are not modelled.
- A handler's outcome, value or throw, is delivered synchronously. Two handler calls that are in flight at once, and their order of completion, are not modelled.
- `Runtime.ExecuteCode` does not perform the guest's proxy calls. So in `Runtime.Serve` no `callHandler` line is written to stdout, and no chunk of `input` is read by a proxy. `Served` holds only the `executeCode` replies. `Runtime.Invoke` models one proxy call on its own, reading the same `input` field. The requests that interleave with the main loop while a proxy waits (the deadlock scenario) are not modelled.
- Guest code is abstract: a `Guest` maps the code, the parameter names and the proxies to the console calls it makes and how it ends. `new Function`, and console calls made after the guest settles, are not modelled.
- `Object.values` is taken to follow insertion order. Integer-like keys, which JavaScript lists first, and prototype members are not modelled.
- `TextEncoder`/`TextDecoder` and the 65536-byte reads are not modelled: each read is one given string chunk. The chunk boundaries are parameters.
- Worker.ProxyParams: a handler name is taken as its `String(...)` form. The source's proxy sends the raw list element, so a non-string name such as `5` is sent as `5` and would never match a registered handler, where the model sends `"5"`. The host only ever sends strings (`Array.from(this.handlers.keys())`).
- The worker's `crypto.randomUUID()` is a parameter, `uuid`.
- `cleanup` rejects the pending calls in an unspecified order, where the source rejects them in map iteration order. The outcome does not depend on the order.
- JsonRpc.JsonRpcHandler.CreateRequest: the sequence 1, 2, 3 is stated one call at a time, as "the counter goes up by one and is the id". It is not stated as a single lemma over several calls.
- `createResponse`, `createErrorResponse`, `parseMessage` and `serializeMessage` use no handler state. They are module functions (`JsonRpc.Response` and the others) rather than methods of `JsonRpcHandler`.
- In `stop`, ending stdin and sending `SIGTERM` are not modelled; only the cleanup that follows is.
- The worker's fatal-error exit (`main().catch`) is not modelled, since it only prints and exits.
