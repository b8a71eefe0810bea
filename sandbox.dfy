/**
 * The host endpoint (`Sandbox`): it launches the worker, frames the worker's
 * output into lines, correlates replies with the calls awaiting them,
 * answers the worker's handler calls, and tears everything down when the
 * worker goes away.
 *
 * Promises and timers are events here.  A call that `sendRequest` registers
 * stays in `pending` until exactly one of three things happens first: its
 * reply arrives (`HandleResponse`), its timer fires (`TimeoutFired`), or the
 * worker is torn down (`Cleanup`).  How it ended is recorded in `settled`,
 * the outcome the awaiting caller sees.
 */
module Host {
  import opened Wrappers
  import opened JsValue
  import opened Text
  import opened Json
  import opened Types
  import opened JsonRpc

  // ------------------------------------------------------------ the link

  /** What a registered handler does with its arguments: returns a value or throws. */
  datatype HandlerOutcome = Returned(value: Value) | Threw(error: Exception)

  type Handler = seq<Value> -> HandlerOutcome

  /** The worker process as the host sees it: program, arguments and the text written to its stdin so far. */
  datatype Process = Process(binary: string, args: seq<string>, stdin: string)

  /** How an awaited call ended: resolved with a value, or rejected with an Error's message. */
  datatype Settlement = Resolved(value: Value) | Rejected(message: string)

  /** A registered call: the deadline its timer was armed with. */
  datatype PendingCall = PendingCall(timeoutMs: int)

  /** The state the message handlers act on: the process (if any), the registered calls and the settled ones. */
  datatype Link = Link(process: Option<Process>, pending: map<Value, PendingCall>, settled: map<Value, Settlement>)

  /** The ids `createRequest` has handed out after `n` calls: the numbers 1 to n. */
  predicate Issued(id: Value, n: nat) {
    id.Num? && 1 <= id.n <= n
  }

  /**
   * Every id handed out is either still pending or settled, never both, and
   * nothing else is in either map; without a process nothing is pending.
   */
  ghost predicate Accounted(l: Link, n: nat) {
    (forall id :: id in l.pending ==> id !in l.settled) &&
    (forall id :: id in l.pending ==> Issued(id, n)) &&
    (forall id :: id in l.settled ==> Issued(id, n)) &&
    (forall k :: 1 <= k <= n ==> Num(k) in l.pending || Num(k) in l.settled) &&
    (l.process.None? ==> l.pending == map[])
  }

  /** Issuing the next id to a running process keeps every id accounted for. */
  lemma IssueKeepsAccounted(l: Link, n: nat, call: PendingCall)
    requires Accounted(l, n) && l.process.Some?
    ensures Num(n + 1) !in l.pending && Num(n + 1) !in l.settled
    ensures Accounted(l.(pending := l.pending[Num(n + 1) := call]), n + 1)
  {
    var l' := l.(pending := l.pending[Num(n + 1) := call]);
    assert !Issued(Num(n + 1), n);
    forall k | 1 <= k <= n + 1 ensures Num(k) in l'.pending || Num(k) in l'.settled {
      if k <= n {
        assert Num(k) in l.pending || Num(k) in l.settled;
      }
    }
  }

  /** A settled call stays settled the same way: an id leaves `pending` at most once. */
  predicate Extends(before: map<Value, Settlement>, after: map<Value, Settlement>) {
    forall id :: id in before ==> id in after && after[id] == before[id]
  }

  /** `sendMessage`: one line of compact JSON appended to the worker's stdin; nothing when there is no process. */
  function Write(p: Option<Process>, m: Value): Option<Process>
    requires m.Obj?
  {
    if p.None? then None else Some(p.value.(stdin := p.value.stdin + SerializeMessage(m) + "\n"))
  }

  /** The message of `new Error(x)`: empty for `undefined`, otherwise `String(x)`. */
  function ErrorMessage(x: Value): string {
    if x == Undefined then "" else ToString(x)
  }

  /** How a reply settles its call: rejected with the error's message when `error` is truthy, else resolved with `result`. */
  function SettlementOf(response: Value): Settlement {
    var err := Get(response, "error");
    if Truthy(err) then Rejected(ErrorMessage(Get(err, "message"))) else Resolved(Get(response, "result"))
  }

  /** `handleResponse`: a reply for a pending id settles that call; any other reply changes nothing. */
  function AfterResponse(l: Link, response: Value): Link {
    var id := Get(response, "id");
    if id !in l.pending then l
    else l.(pending := l.pending - {id}, settled := l.settled[id := SettlementOf(response)])
  }

  /** The TypeError message of spreading a value that is not iterable. */
  const NotIterable := "Spread syntax requires ...iterable[Symbol.iterator] to be a function"

  /** What calling the handler named in `params` gives: its outcome, or the error thrown before it runs. */
  function CallOutcome(params: Value, handlers: map<string, Handler>): HandlerOutcome {
    match Read(params, "name")
    case Err(typeError) => Threw(ErrorObject(typeError))
    case Ok(name) =>
      if !(name.Str? && name.s in handlers) then Threw(ErrorObject("Handler not found: " + ToString(name)))
      else
        match Iterate(Get(params, "args"))
        case None => Threw(ErrorObject(NotIterable))
        case Some(args) => handlers[name.s](args)
  }

  /** The reply carrying a handler's outcome: its return value, or -32603 with the message of what it threw. */
  function Answer(id: Value, o: HandlerOutcome): (r: Value)
    ensures r.Obj? && Get(r, "id") == id
    ensures o.Returned? ==> Has(r, "result") && Get(r, "result") == o.value && !Has(r, "error")
    ensures o.Threw? ==> !Has(r, "result") && IsErrorObject(Get(r, "error")) &&
                         Get(Get(r, "error"), "code") == Num(-32603) &&
                         Get(Get(r, "error"), "message") == Str(ExceptionMessage(o.error))
  {
    match o
    case Returned(v) => Response(id, v)
    case Threw(e) =>
      Lookup2(Prop("code", Num(Code(InternalError))), Prop("message", Str(ExceptionMessage(e))), "code");
      Lookup2(Prop("code", Num(Code(InternalError))), Prop("message", Str(ExceptionMessage(e))), "message");
      ErrorResponse(id, Code(InternalError), ExceptionMessage(e))
  }

  /** `handleRequest`: the one reply sent for a request from the worker. */
  function ReplyTo(request: Value, handlers: map<string, Handler>): (r: Value)
    ensures r.Obj? && Get(r, "id") == Get(request, "id")
  {
    var id := Get(request, "id");
    var m := Get(request, "method");
    if m == Str(MethodName(CallHandler)) then Answer(id, CallOutcome(Get(request, "params"), handlers))
    else ErrorResponse(id, Code(MethodNotFound), "Method not found: " + ToString(m))
  }

  datatype Kind = ResponseKind | RequestKind | Ignored

  /** A message with `result` or `error` is a reply, else one with `method` is a request, else it is ignored. */
  function Classify(m: Value): Kind {
    if Has(m, "result") || Has(m, "error") then ResponseKind
    else if Has(m, "method") then RequestKind
    else Ignored
  }

  function AfterMessage(l: Link, m: Value, handlers: map<string, Handler>): Link {
    match Classify(m)
    case ResponseKind => AfterResponse(l, m)
    case RequestKind => l.(process := Write(l.process, ReplyTo(m, handlers)))
    case Ignored => l
  }

  /** One complete line: blank lines and lines that are not version-2.0 JSON are skipped. */
  function AfterLine(l: Link, line: string, handlers: map<string, Handler>): Link {
    if Trim(line) == "" then l
    else
      match ParseMessage(line)
      case None => l
      case Some(m) => AfterMessage(l, m, handlers)
  }

  /** The complete lines, handled one after the other in order. */
  function AfterLines(l: Link, lines: seq<string>, handlers: map<string, Handler>): Link {
    if lines == [] then l
    else AfterLine(AfterLines(l, lines[..|lines| - 1], handlers), lines[|lines| - 1], handlers)
  }

  /** A timer fires: a still-pending call is dropped and rejected; a settled one is unaffected (its timer was cleared). */
  function AfterTimeout(l: Link, id: Value): Link {
    if id !in l.pending then l
    else
      l.(pending := l.pending - {id},
         settled := l.settled[id := Rejected("Request timeout after " + IntToString(l.pending[id].timeoutMs) + "ms")])
  }

  /** The given calls, each rejected with "Sandbox terminated". */
  function Rejections(ids: set<Value>): map<Value, Settlement> {
    map id | id in ids :: Rejected("Sandbox terminated")
  }

  /** `cleanup`: no process, every pending call rejected with "Sandbox terminated", nothing pending. */
  function Terminate(l: Link): Link {
    Link(None, map[], l.settled + Rejections(l.pending.Keys))
  }

  /** Rejecting one more call, one at a time. */
  lemma AddRejection(base: map<Value, Settlement>, done: set<Value>, id: Value)
    ensures (base + Rejections(done))[id := Rejected("Sandbox terminated")] == base + Rejections(done + {id})
  {
  }

  // ------------------------------------------------------ link properties

  /** A reply with an id that is not pending (unknown, timed out, already answered) changes nothing. */
  lemma UnknownReplyIgnored(l: Link, response: Value)
    requires Get(response, "id") !in l.pending
    ensures AfterResponse(l, response) == l
  {
  }

  /** A reply for a pending id removes exactly that entry and settles exactly that call. */
  lemma KnownReplySettles(l: Link, response: Value)
    requires Get(response, "id") in l.pending
    ensures var r := AfterResponse(l, response);
            var id := Get(response, "id");
            r.process == l.process && r.pending.Keys == l.pending.Keys - {id} &&
            (forall k :: k in r.pending ==> r.pending[k] == l.pending[k]) &&
            r.settled.Keys == l.settled.Keys + {id} && r.settled[id] == SettlementOf(response) &&
            (Truthy(Get(response, "error")) ==> r.settled[id].Rejected?) &&
            (!Truthy(Get(response, "error")) ==> r.settled[id] == Resolved(Get(response, "result")))
  {
  }

  /** Handling a reply keeps every id accounted for and never changes how a call was settled. */
  lemma ResponseKeepsAccounted(l: Link, response: Value, n: nat)
    requires Accounted(l, n)
    ensures Accounted(AfterResponse(l, response), n)
    ensures Extends(l.settled, AfterResponse(l, response).settled)
  {
  }

  /** Every message and line keeps the ids accounted for and leaves settled calls alone. */
  lemma MessageKeepsAccounted(l: Link, m: Value, handlers: map<string, Handler>, n: nat)
    requires Accounted(l, n)
    ensures Accounted(AfterMessage(l, m, handlers), n)
    ensures Extends(l.settled, AfterMessage(l, m, handlers).settled)
  {
    if Classify(m) == ResponseKind {
      ResponseKeepsAccounted(l, m, n);
    }
  }

  lemma {:induction false} LinesKeepAccounted(l: Link, lines: seq<string>, handlers: map<string, Handler>, n: nat)
    requires Accounted(l, n)
    ensures Accounted(AfterLines(l, lines, handlers), n)
    ensures Extends(l.settled, AfterLines(l, lines, handlers).settled)
  {
    if lines != [] {
      var prefix := lines[..|lines| - 1];
      var mid := AfterLines(l, prefix, handlers);
      LinesKeepAccounted(l, prefix, handlers, n);
      var line := lines[|lines| - 1];
      if Trim(line) != "" && ParseMessage(line).Some? {
        MessageKeepsAccounted(mid, ParseMessage(line).value, handlers, n);
      }
    }
  }

  /** Handling lines one batch after another is handling them all at once. */
  lemma {:induction false} AfterLinesAppend(l: Link, a: seq<string>, b: seq<string>, handlers: map<string, Handler>)
    ensures AfterLines(l, a + b, handlers) == AfterLines(AfterLines(l, a, handlers), b, handlers)
  {
    if b == [] {
      assert a + b == a;
    } else {
      AfterLinesAppend(l, a, b[..|b| - 1], handlers);
      assert (a + b)[..|a + b| - 1] == a + b[..|b| - 1];
      assert (a + b)[|a + b| - 1] == b[|b| - 1];
    }
  }

  /**
   * A blank line, or one that is not a version-2.0 message, is skipped
   * without stopping the loop: the lines after it are handled as if it were
   * not there.
   */
  lemma SkippedLine(l: Link, before: seq<string>, line: string, after: seq<string>, handlers: map<string, Handler>)
    requires Trim(line) == "" || ParseMessage(line).None?
    ensures AfterLines(l, before + [line] + after, handlers) == AfterLines(l, before + after, handlers)
  {
    AfterLinesAppend(l, before + [line], after, handlers);
    AfterLinesAppend(l, before, after, handlers);
    assert (before + [line])[..|before + [line]| - 1] == before;
  }

  /** A request from the worker gets exactly one reply line, carrying the request's id, when a process is running. */
  lemma RequestAnswered(l: Link, request: Value, handlers: map<string, Handler>)
    requires Classify(request) == RequestKind && l.process.Some?
    ensures var r := AfterMessage(l, request, handlers);
            r.pending == l.pending && r.settled == l.settled && r.process.Some? &&
            r.process.value.stdin == l.process.value.stdin + SerializeMessage(ReplyTo(request, handlers)) + "\n" &&
            Get(ReplyTo(request, handlers), "id") == Get(request, "id")
  {
  }

  /** The reply to a `callHandler` for a registered name with iterable args is the handler's outcome. */
  lemma RegisteredHandlerAnswers(request: Value, handlers: map<string, Handler>, name: string, args: seq<Value>)
    requires Get(request, "method") == Str("callHandler")
    requires Get(Get(request, "params"), "name") == Str(name) && name in handlers
    requires Iterate(Get(Get(request, "params"), "args")) == Some(args)
    ensures ReplyTo(request, handlers) == Answer(Get(request, "id"), handlers[name](args))
  {
    var params := Get(request, "params");
    assert Read(params, "name") == Ok(Str(name));
    assert CallOutcome(params, handlers) == handlers[name](args);
    assert Get(request, "method") == Str(MethodName(CallHandler));
  }

  /** A `callHandler` naming no registered handler is answered with -32603 and "Handler not found: <name>". */
  lemma UnregisteredHandlerFails(request: Value, handlers: map<string, Handler>, name: string)
    requires Get(request, "method") == Str("callHandler")
    requires Get(request, "params").Obj? && Get(Get(request, "params"), "name") == Str(name) && name !in handlers
    ensures ReplyTo(request, handlers) == ErrorResponse(Get(request, "id"), -32603, "Handler not found: " + name)
  {
    var params := Get(request, "params");
    assert Read(params, "name") == Ok(Str(name));
    assert CallOutcome(params, handlers) == Threw(ErrorObject("Handler not found: " + name));
    assert Get(request, "method") == Str(MethodName(CallHandler));
  }

  /** Any other method is answered with -32601 "Method not found: <method>". */
  lemma OtherMethodNotFound(request: Value, handlers: map<string, Handler>, name: string)
    requires Get(request, "method") == Str(name) && name != "callHandler"
    ensures ReplyTo(request, handlers) == ErrorResponse(Get(request, "id"), -32601, "Method not found: " + name)
  {
    assert MethodName(CallHandler) == "callHandler" && Code(MethodNotFound) == -32601;
    assert Get(request, "method") != Str(MethodName(CallHandler));
  }

  /** A message carrying `result` or `error` is a reply even when it also names a method. */
  lemma ReplyWinsOverMethod(m: Value)
    requires Has(m, "method") && (Has(m, "result") || Has(m, "error"))
    ensures Classify(m) == ResponseKind
  {
  }

  /** A timer that fires for a pending call rejects it with the deadline in the message; a later reply is then dropped. */
  lemma TimeoutThenReplyDropped(l: Link, id: Value, response: Value)
    requires id in l.pending && Get(response, "id") == id
    ensures var t := AfterTimeout(l, id);
            id !in t.pending &&
            t.settled[id] == Rejected("Request timeout after " + IntToString(l.pending[id].timeoutMs) + "ms") &&
            AfterResponse(t, response) == t
  {
  }

  lemma TimeoutKeepsAccounted(l: Link, id: Value, n: nat)
    requires Accounted(l, n)
    ensures Accounted(AfterTimeout(l, id), n)
    ensures Extends(l.settled, AfterTimeout(l, id).settled)
  {
  }

  /** Teardown rejects every pending call with "Sandbox terminated", keeps earlier outcomes, and is idempotent. */
  lemma TerminateSettlesAll(l: Link, n: nat)
    requires Accounted(l, n)
    ensures var t := Terminate(l);
            t.process.None? && t.pending == map[] && Accounted(t, n) && Extends(l.settled, t.settled) &&
            (forall id :: id in l.pending ==> t.settled[id] == Rejected("Sandbox terminated")) &&
            Terminate(t) == t
  {
    var t := Terminate(l);
    assert forall id :: id in l.settled ==> id !in l.pending;
    assert forall id :: id in t.settled <==> id in l.settled || id in l.pending;
    assert Rejections(t.pending.Keys) == map[];
    assert t.settled + map[] == t.settled;
  }

  // ------------------------------------------------------------ launching

  /** The places the runtime script is looked for, in order, relative to the host module's directory. */
  function RuntimeCandidates(baseDir: string, join: (string, string) -> string): (r: seq<string>)
    ensures |r| == 6
  {
    [join(baseDir, "../runtime/runtime.ts"), join(baseDir, "../runtime/runtime.mjs"),
     join(baseDir, "runtime/runtime.ts"), join(baseDir, "runtime/runtime.mjs"),
     join(baseDir, "runtime.ts"), join(baseDir, "runtime.mjs")]
  }

  /** The error message listing every candidate tried, one per line. */
  function NotFoundMessage(candidates: seq<string>): string {
    "Runtime file not found. Tried:\n" + Join(seq(|candidates|, i requires 0 <= i < |candidates| => "  - " + candidates[i]), "\n")
  }

  /** `getRuntimePath`: the first candidate that exists, or the not-found error. */
  method FindRuntime(candidates: seq<string>, present: string -> bool) returns (r: Result<string>)
    ensures r.Ok? ==> exists i :: 0 <= i < |candidates| && candidates[i] == r.value && present(r.value) &&
                                  forall j :: 0 <= j < i ==> !present(candidates[j])
    ensures r.Err? <==> forall i :: 0 <= i < |candidates| ==> !present(candidates[i])
    ensures r.Err? ==> r.message == NotFoundMessage(candidates)
  {
    for k := 0 to |candidates|
      invariant forall j :: 0 <= j < k ==> !present(candidates[j])
    {
      if present(candidates[k]) {
        return Ok(candidates[k]);
      }
    }
    return Err(NotFoundMessage(candidates));
  }

  /** `getDenoBinaryPath`: `bin.cjs` in the directory of the deno package, when module resolution is available. */
  function DenoBinaryPath(denoDir: Option<string>, join: (string, string) -> string): (r: Result<string>)
    ensures r.Err? <==> denoDir.None?
    ensures r.Err? ==> r.message == "Cannot resolve deno package"
  {
    if denoDir.None? then Err("Cannot resolve deno package") else Ok(join(denoDir.value, "bin.cjs"))
  }

  /** The memory flag, present when the configured limit is truthy (set and non-zero). */
  function MemoryFlag(config: SandboxConfig): seq<string> {
    if config.memoryLimit.Some? && config.memoryLimit.value != 0
    then ["--v8-flags=--max-old-space-size=" + IntToString(config.memoryLimit.value)]
    else []
  }

  function PermissionFlags(config: SandboxConfig): seq<string> {
    if config.permissions.Some? then config.permissions.value else []
  }

  /** The argument list of `start`: `run --no-prompt`, the memory flag, the permission flags in order, the runtime path last. */
  method LaunchArgs(config: SandboxConfig, runtimePath: string) returns (args: seq<string>)
    ensures args == ["run", "--no-prompt"] + MemoryFlag(config) + PermissionFlags(config) + [runtimePath]
    ensures |args| >= 3 && args[..2] == ["run", "--no-prompt"] && args[|args| - 1] == runtimePath
  {
    args := ["run", "--no-prompt"];
    if config.memoryLimit.Some? && config.memoryLimit.value != 0 {
      args := args + ["--v8-flags=--max-old-space-size=" + IntToString(config.memoryLimit.value)];
    }
    if config.permissions.Some? {
      args := args + config.permissions.value;
    }
    args := args + [runtimePath];
  }

  /** The deadline of a call: the explicit timeout, else the configured one, else 30000 (zero counts as unset, as with `||`). */
  function TimeoutMs(timeout: Option<int>, configured: Option<int>): (ms: int)
    ensures ms != 0
    ensures timeout.Some? && timeout.value != 0 ==> ms == timeout.value
    ensures (timeout.None? || timeout.value == 0) && configured.Some? && configured.value != 0 ==> ms == configured.value
    ensures (timeout.None? || timeout.value == 0) && (configured.None? || configured.value == 0) ==> ms == 30000
  {
    if timeout.Some? && timeout.value != 0 then timeout.value
    else if configured.Some? && configured.value != 0 then configured.value
    else 30000
  }

  // ------------------------------------------------------------ execute

  /** The params of an `executeCode` call: the code, the context (an empty object when absent or falsy), the handler names. */
  function ExecuteParams(code: string, context: Option<Value>, names: seq<string>): (r: Value)
    ensures Get(r, "code") == Str(code)
    ensures Get(r, "handlers").Arr? && |Get(r, "handlers").items| == |names| &&
            forall i :: 0 <= i < |names| ==> Get(r, "handlers").items[i] == Str(names[i])
  {
    var ctx := if context.Some? && Truthy(context.value) then context.value else Obj([]);
    var hs := Arr(seq(|names|, i requires 0 <= i < |names| => Str(names[i])));
    var a, b, c := Prop("code", Str(code)), Prop("context", ctx), Prop("handlers", hs);
    Lookup3(a, b, c, "code");
    Lookup3(a, b, c, "handlers");
    Obj([a, b, c])
  }

  /** The result failed calls become: no logs and the error's message. */
  function FailedExecution(message: string): (r: Value)
    ensures IsExecutionResult(r)
    ensures Get(r, "logs") == Arr([]) && Get(r, "error") == Str(message) && Get(r, "result") == Undefined
  {
    Lookup2(Prop("logs", Arr([])), Prop("error", Str(message)), "logs");
    Lookup2(Prop("logs", Arr([])), Prop("error", Str(message)), "error");
    Lookup2(Prop("logs", Arr([])), Prop("error", Str(message)), "result");
    Obj([Prop("logs", Arr([])), Prop("error", Str(message))])
  }

  /** What `execute` resolves with once its call is settled: the worker's result, or a failed execution; it never throws. */
  function ExecutionResultOf(s: Settlement): Value {
    match s
    case Resolved(v) => v
    case Rejected(message) => FailedExecution(message)
  }

  /** A rejected call (error reply, timeout, teardown) surfaces as data: `{logs: [], error: message}`. */
  lemma ExecuteNeverThrows(s: Settlement)
    ensures s.Rejected? ==> IsExecutionResult(ExecutionResultOf(s)) &&
                            Get(ExecutionResultOf(s), "error") == Str(s.message) &&
                            Get(ExecutionResultOf(s), "logs") == Arr([])
    ensures s.Resolved? ==> ExecutionResultOf(s) == s.value
  {
  }

  /** An `execute` call: either still awaiting the reply to the given id, or already finished with a result. */
  datatype Call = Awaiting(id: Value) | Done(result: Value)

  // ------------------------------------------------------------ the class

  class Sandbox {
    const config: SandboxConfig
    const jsonRpc: JsonRpcHandler
    var process: Option<Process>
    var pending: map<Value, PendingCall>
    var settled: map<Value, Settlement>
    var handlers: map<string, Handler>
    var handlerNames: seq<string>   // the keys of `handlers` in insertion order
    var buffer: string

    function Snapshot(): Link
      reads this
    {
      Link(process, pending, settled)
    }

    ghost predicate Valid()
      reads this, jsonRpc
    {
      Accounted(Snapshot(), jsonRpc.requestId) &&
      (forall i, j :: 0 <= i < j < |handlerNames| ==> handlerNames[i] != handlerNames[j]) &&
      (forall name :: name in handlers <==> name in handlerNames) &&
      '\n' !in buffer
    }

    constructor(config: SandboxConfig)
      ensures Valid() && fresh(jsonRpc)
      ensures this.config == config && jsonRpc.requestId == 0
      ensures process.None? && pending == map[] && settled == map[]
      ensures handlers == map[] && handlerNames == [] && buffer == ""
    {
      this.config := config;
      jsonRpc := new JsonRpcHandler();
      process := None;
      pending := map[];
      settled := map[];
      handlers := map[];
      handlerNames := [];
      buffer := "";
    }

    /** `registerHandler`: a new name is added at the end; a known one keeps its place and takes the new handler. */
    method RegisterHandler(name: string, handler: Handler)
      requires Valid()
      modifies this
      ensures Valid()
      ensures handlers == old(handlers)[name := handler]
      ensures handlerNames == if name in old(handlers) then old(handlerNames) else old(handlerNames) + [name]
      ensures Snapshot() == old(Snapshot()) && buffer == old(buffer)
    {
      if name !in handlers {
        handlerNames := handlerNames + [name];
      }
      handlers := handlers[name := handler];
    }

    /**
     * `start`: refuses when a process exists; otherwise finds the runtime
     * script and the Deno binary and launches it.  `present` stands for the
     * file system check, `join` for path joining and `denoDir` for module
     * resolution of the deno package.
     */
    method Start(baseDir: string, present: string -> bool, join: (string, string) -> string, denoDir: Option<string>)
      returns (err: Option<string>)
      requires Valid()
      modifies this
      ensures Valid()
      ensures old(process).Some? ==> err == Some("Sandbox already started") && process == old(process)
      ensures err.Some? ==> process == old(process)
      ensures err.None? ==> old(process).None? && process.Some? && process.value.stdin == "" && |process.value.args| >= 3 &&
                            process.value.args[|process.value.args| - 1] in RuntimeCandidates(baseDir, join)
      ensures old(process).None? && (forall i :: 0 <= i < 6 ==> !present(RuntimeCandidates(baseDir, join)[i])) ==>
                err == Some(NotFoundMessage(RuntimeCandidates(baseDir, join)))
      ensures old(process).None? && (exists i :: 0 <= i < 6 && present(RuntimeCandidates(baseDir, join)[i])) ==>
                (err.None? <==> denoDir.Some?) && (denoDir.None? ==> err == Some("Cannot resolve deno package"))
      ensures err.None? ==>
                denoDir.Some? &&
                exists i :: 0 <= i < 6 && present(RuntimeCandidates(baseDir, join)[i]) &&
                            (forall j :: 0 <= j < i ==> !present(RuntimeCandidates(baseDir, join)[j])) &&
                            process == Some(Process(join(denoDir.value, "bin.cjs"),
                                                    ["run", "--no-prompt"] + MemoryFlag(config) + PermissionFlags(config) +
                                                    [RuntimeCandidates(baseDir, join)[i]], ""))
      ensures pending == old(pending) && settled == old(settled) && handlers == old(handlers)
      ensures handlerNames == old(handlerNames) && buffer == old(buffer)
    {
      if process.Some? {
        return Some("Sandbox already started");
      }
      var runtime := FindRuntime(RuntimeCandidates(baseDir, join), present);
      if runtime.Err? {
        return Some(runtime.message);
      }
      var args := LaunchArgs(config, runtime.value);
      var binary := DenoBinaryPath(denoDir, join);
      if binary.Err? {
        return Some(binary.message);
      }
      process := Some(Process(binary.value, args, ""));
      return None;
    }

    /** `sendMessage`: one line to the worker, or "Sandbox not started" when there is no process. */
    method SendMessage(m: Value) returns (err: Option<string>)
      requires m.Obj? && Valid()
      modifies this
      ensures Valid()
      ensures err.Some? <==> old(process).None?
      ensures err.Some? ==> err.value == "Sandbox not started"
      ensures process == Write(old(process), m)
      ensures pending == old(pending) && settled == old(settled)
      ensures handlers == old(handlers) && handlerNames == old(handlerNames) && buffer == old(buffer)
    {
      if process.None? {
        return Some("Sandbox not started");
      }
      process := Some(process.value.(stdin := process.value.stdin + SerializeMessage(m) + "\n"));
      return None;
    }

    /** `handleResponse`. */
    method HandleResponse(response: Value)
      requires Valid()
      modifies this
      ensures Valid()
      ensures Snapshot() == AfterResponse(old(Snapshot()), response)
      ensures handlers == old(handlers) && handlerNames == old(handlerNames) && buffer == old(buffer)
    {
      ResponseKeepsAccounted(Snapshot(), response, jsonRpc.requestId);
      var id := Get(response, "id");
      if id !in pending {
        return;
      }
      pending := pending - {id};
      var err := Get(response, "error");
      if Truthy(err) {
        settled := settled[id := Rejected(ErrorMessage(Get(err, "message")))];
      } else {
        settled := settled[id := Resolved(Get(response, "result"))];
      }
    }

    /** `handleRequest`: a reply is written; when there is no process both attempts to write fail and nothing is sent. */
    method HandleRequest(request: Value)
      requires Valid()
      modifies this
      ensures Valid()
      ensures Snapshot() == old(Snapshot()).(process := Write(old(process), ReplyTo(request, handlers)))
      ensures handlers == old(handlers) && handlerNames == old(handlerNames) && buffer == old(buffer)
    {
      var reply := ReplyTo(request, handlers);
      var err := SendMessage(reply);
    }

    /**
     * `handleStdout`: the chunk is appended to the held-back text, every
     * complete line is handled in order, and the trailing partial line is
     * held back again.
     */
    method HandleStdout(chunk: string) returns (ghost lines: seq<string>)
      requires Valid()
      modifies this
      ensures Valid()
      ensures old(buffer) + chunk == Terminated(lines) + buffer
      ensures forall i :: 0 <= i < |lines| ==> '\n' !in lines[i]
      ensures Snapshot() == AfterLines(old(Snapshot()), lines, handlers)
      ensures handlers == old(handlers) && handlerNames == old(handlerNames)
    {
      var pieces := Split(buffer + chunk);
      SplitLines(buffer + chunk);
      var complete := pieces[..|pieces| - 1];
      lines := complete;
      buffer := pieces[|pieces| - 1];
      ghost var start := Snapshot();
      for i := 0 to |complete|
        invariant Valid() && buffer == pieces[|pieces| - 1]
        invariant Snapshot() == AfterLines(start, complete[..i], handlers)
        invariant handlers == old(handlers) && handlerNames == old(handlerNames)
      {
        assert complete[..i + 1][..i] == complete[..i] && complete[..i + 1][i] == complete[i];
        HandleLine(complete[i]);
      }
      assert complete[..|complete|] == complete;
    }

    /** One complete line of the worker's output. */
    method HandleLine(line: string)
      requires Valid()
      modifies this
      ensures Valid()
      ensures Snapshot() == AfterLine(old(Snapshot()), line, handlers)
      ensures handlers == old(handlers) && handlerNames == old(handlerNames) && buffer == old(buffer)
    {
      if Trim(line) == "" {
        return;
      }
      var message := ParseMessage(line);
      if message.None? {
        return;
      }
      var m := message.value;
      if Has(m, "result") || Has(m, "error") {
        HandleResponse(m);
      } else if Has(m, "method") {
        HandleRequest(m);
      }
    }

    /**
     * `sendRequest`: fails with "Sandbox not started" without a process;
     * otherwise takes the next id, registers it with its deadline and then
     * writes the request.
     */
    method SendRequest(name: string, params: Value, timeout: Option<int>) returns (err: Option<string>, id: Value)
      requires Valid()
      modifies this, jsonRpc
      ensures Valid()
      ensures old(process).None? ==> err == Some("Sandbox not started") && Snapshot() == old(Snapshot()) &&
                                     jsonRpc.requestId == old(jsonRpc.requestId)
      ensures old(process).Some? ==>
        err.None? && jsonRpc.requestId == old(jsonRpc.requestId) + 1 && id == Num(jsonRpc.requestId) &&
        id !in old(pending) && id !in old(settled) &&
        pending == old(pending)[id := PendingCall(TimeoutMs(timeout, config.timeout))] && settled == old(settled) &&
        process == Write(old(process), Request(id, name, params))
      ensures handlers == old(handlers) && handlerNames == old(handlerNames) && buffer == old(buffer)
    {
      id := Undefined;
      if process.None? {
        return Some("Sandbox not started"), id;
      }
      IssueKeepsAccounted(Snapshot(), jsonRpc.requestId, PendingCall(TimeoutMs(timeout, config.timeout)));
      var request := jsonRpc.CreateRequest(name, params);
      id := Num(jsonRpc.requestId);
      pending := pending[id := PendingCall(TimeoutMs(timeout, config.timeout))];
      var e := SendMessage(request);
      err := None;
    }

    /** `execute`: an `executeCode` call listing every registered handler name; a call that cannot be sent finishes at once as a failed execution. */
    method Execute(code: string, context: Option<Value>) returns (call: Call)
      requires Valid()
      modifies this, jsonRpc
      ensures Valid()
      ensures old(process).None? ==> call == Done(FailedExecution("Sandbox not started")) && Snapshot() == old(Snapshot())
      ensures old(process).Some? ==>
        call.Awaiting? && call.id == Num(jsonRpc.requestId) && call.id !in old(pending) &&
        pending == old(pending)[call.id := PendingCall(TimeoutMs(None, config.timeout))] && settled == old(settled) &&
        process == Write(old(process), Request(call.id, "executeCode", ExecuteParams(code, context, handlerNames)))
      ensures handlers == old(handlers) && handlerNames == old(handlerNames) && buffer == old(buffer)
    {
      var params := ExecuteParams(code, context, handlerNames);
      var err, id := SendRequest(MethodName(ExecuteCode), params, None);
      if err.Some? {
        return Done(FailedExecution(err.value));
      }
      return Awaiting(id);
    }

    /** The timer of a call fires. */
    method TimeoutFired(id: Value)
      requires Valid()
      modifies this
      ensures Valid()
      ensures Snapshot() == AfterTimeout(old(Snapshot()), id)
      ensures handlers == old(handlers) && handlerNames == old(handlerNames) && buffer == old(buffer)
    {
      TimeoutKeepsAccounted(Snapshot(), id, jsonRpc.requestId);
      if id in pending {
        var ms := pending[id].timeoutMs;
        pending := pending - {id};
        settled := settled[id := Rejected("Request timeout after " + IntToString(ms) + "ms")];
      }
    }

    /** `cleanup`, also run when the process exits or fails: every pending call is rejected with "Sandbox terminated". */
    method Cleanup()
      requires Valid()
      modifies this
      ensures Valid()
      ensures Snapshot() == Terminate(old(Snapshot()))
      ensures handlers == old(handlers) && handlerNames == old(handlerNames) && buffer == old(buffer)
    {
      TerminateSettlesAll(Snapshot(), jsonRpc.requestId);
      ghost var target := Terminate(Snapshot());
      process := None;
      var rest := pending.Keys;
      ghost var done: set<Value> := {};
      while rest != {}
        invariant process.None? && pending == old(pending)
        invariant rest + done == pending.Keys && rest !! done
        invariant settled == old(settled) + Rejections(done)
        invariant handlers == old(handlers) && handlerNames == old(handlerNames) && buffer == old(buffer)
        decreases rest
      {
        var id :| id in rest;
        AddRejection(old(settled), done, id);
        settled := settled[id := Rejected("Sandbox terminated")];
        rest := rest - {id};
        done := done + {id};
      }
      pending := map[];
      assert done == old(pending).Keys;
      assert Snapshot() == target;
    }

    /** `stop`: nothing without a process, otherwise the process is ended and cleaned up; stopping twice is harmless. */
    method Stop()
      requires Valid()
      modifies this
      ensures Valid()
      ensures old(process).None? ==> Snapshot() == old(Snapshot())
      ensures old(process).Some? ==> Snapshot() == Terminate(old(Snapshot()))
      ensures process.None?
      ensures handlers == old(handlers) && handlerNames == old(handlerNames) && buffer == old(buffer)
    {
      if process.None? {
        return;
      }
      Cleanup();
    }
  }

  /**
   * A stopped sandbox can be started again: after `stop`, `start` succeeds
   * whenever a runtime script exists and the deno package can be resolved,
   * and the calls that were pending are rejected with "Sandbox terminated".
   */
  method StopThenStart(sandbox: Sandbox, baseDir: string, present: string -> bool, join: (string, string) -> string,
                       denoDir: Option<string>) returns (err: Option<string>)
    requires sandbox.Valid()
    requires exists i :: 0 <= i < 6 && present(RuntimeCandidates(baseDir, join)[i])
    requires denoDir.Some?
    modifies sandbox
    ensures sandbox.Valid()
    ensures err.None? && sandbox.process.Some?
    ensures sandbox.pending == map[]
    ensures forall id :: id in old(sandbox.pending) ==> sandbox.settled[id] == Rejected("Sandbox terminated")
  {
    ghost var before := sandbox.Snapshot();
    TerminateSettlesAll(before, sandbox.jsonRpc.requestId);
    sandbox.Stop();
    err := sandbox.Start(baseDir, present, join, denoDir);
  }
}
