/**
 * The worker side of the link: the log sink and its level prefixes, how a
 * guest run is packaged into an execution result, the handler proxies, the
 * per-line dispatch of the main loop, and the id matching of the worker's
 * own `sendRequest`.
 *
 * Guest evaluation is abstract: a `Guest` maps the code, the parameter
 * names and the values passed for them to a run, that is the console calls
 * it makes and how it ends.  Standard input is a sequence of chunks, one
 * per read; running out of chunks is end of input.
 */
module Worker {
  import opened Wrappers
  import opened JsValue
  import opened Text
  import opened Json
  import opened JsonLemmas
  import opened Types
  import opened JsonRpc

  // ------------------------------------------------------------ console

  datatype Level = Log | Error | Warn | Info

  function Prefix(level: Level): string {
    match level
    case Log => ""
    case Error => "ERROR: "
    case Warn => "WARN: "
    case Info => "INFO: "
  }

  /** `formatValue`: objects and arrays as JSON indented by two spaces, everything else (null included) through `String(...)`. */
  function FormatValue(v: Value): string {
    if v.Obj? || v.Arr? then Serialize(v, "  ", "") else ToString(v)
  }

  /**
   * An object or array is logged as JSON text that parses back to it as JSON
   * keeps it (undefined members dropped, undefined items null); null,
   * undefined, booleans, strings and numbers as `String(...)` writes them.
   */
  lemma FormatValueMeaning(v: Value)
    ensures (v.Obj? || v.Arr?) && WellFormed(v) ==> Parse(FormatValue(v)) == Some(Strip(v))
    ensures v == Null ==> FormatValue(v) == "null"
    ensures v.Bool? ==> FormatValue(v) == (if v.b then "true" else "false")
    ensures v == Undefined ==> FormatValue(v) == "undefined"
    ensures v.Str? ==> FormatValue(v) == v.s
    ensures v.Num? ==> FormatValue(v) == IntToString(v.n)
  {
    if (v.Obj? || v.Arr?) && WellFormed(v) {
      assert AllWs("  ");
      ParseStringify(v, "  ");
    }
  }

  function FormatArgs(args: seq<Value>): seq<string> {
    seq(|args|, i requires 0 <= i < |args| => FormatValue(args[i]))
  }

  /** The line one console call records: the level's prefix, then the formatted arguments separated by single spaces. */
  function ConsoleLine(level: Level, args: seq<Value>): string {
    Prefix(level) + Join(FormatArgs(args), " ")
  }

  /** A `log` line carries no prefix; `error`, `warn` and `info` lines start with theirs; one argument is just its formatted text. */
  lemma ConsoleLineShape(level: Level, args: seq<Value>)
    ensures var r := ConsoleLine(level, args);
            |r| >= |Prefix(level)| && r[..|Prefix(level)|] == Prefix(level) &&
            r[|Prefix(level)|..] == Join(FormatArgs(args), " ") &&
            (level == Log ==> r == Join(FormatArgs(args), " ")) &&
            (level == Error ==> r[..7] == "ERROR: ") &&
            (level == Warn ==> r[..6] == "WARN: ") &&
            (level == Info ==> r[..6] == "INFO: ") &&
            (|args| == 1 ==> r == Prefix(level) + FormatValue(args[0]))
  {
    var r := ConsoleLine(level, args);
    assert r[..|Prefix(level)|] == Prefix(level);
    assert "" + Join(FormatArgs(args), " ") == Join(FormatArgs(args), " ");
    if |args| == 1 {
      assert FormatArgs(args) == [FormatValue(args[0])];
    }
  }

  /** A `console.log`/`error`/`warn`/`info` call made by guest code. */
  datatype ConsoleCall = ConsoleCall(level: Level, args: seq<Value>)

  /** How a guest run ends: its async body resolves with a value or throws (a syntax error in the code included). */
  datatype Termination = Completed(value: Value) | Failed(error: Exception)

  datatype GuestRun = GuestRun(calls: seq<ConsoleCall>, termination: Termination)

  /** The guest: from its code, parameter names and the values passed for them, to its run. */
  type Guest = (string, seq<string>, seq<Proxy>) -> GuestRun

  /** The lines a run's console calls record, in call order. */
  function RunLogs(run: GuestRun): seq<string> {
    seq(|run.calls|, i requires 0 <= i < |run.calls| => ConsoleLine(run.calls[i].level, run.calls[i].args))
  }

  // ------------------------------------------------------------ packaging

  function LogsValue(logs: seq<string>): Value {
    Arr(seq(|logs|, i requires 0 <= i < |logs| => Str(logs[i])))
  }

  /** The result of `executeCode`: the logs and the value on success; the logs and the message of what was thrown on failure. */
  function Package(logs: seq<string>, t: Termination): Value {
    match t
    case Completed(v) => Obj([Prop("logs", LogsValue(logs)), Prop("result", v)])
    case Failed(e) => Obj([Prop("logs", LogsValue(logs)), Prop("error", Str(ExceptionMessage(e)))])
  }

  /**
   * Both shapes are execution results carrying a copy of the logs; a
   * failure is data (an `error` string, no `result`), never an exception.
   */
  lemma PackageShape(logs: seq<string>, t: Termination)
    ensures var r := Package(logs, t);
            IsExecutionResult(r) && Get(r, "logs").Arr? && |Get(r, "logs").items| == |logs| &&
            (forall i :: 0 <= i < |logs| ==> Get(r, "logs").items[i] == Str(logs[i])) &&
            (t.Completed? ==> Has(r, "result") && Get(r, "result") == t.value && !Has(r, "error")) &&
            (t.Failed? ==> !Has(r, "result") && Get(r, "error") == Str(ExceptionMessage(t.error)))
  {
    var a := Prop("logs", LogsValue(logs));
    match t
    case Completed(v) =>
      Lookup2(a, Prop("result", v), "logs"); Lookup2(a, Prop("result", v), "result"); Lookup2(a, Prop("result", v), "error");
    case Failed(e) =>
      var b := Prop("error", Str(ExceptionMessage(e)));
      Lookup2(a, b, "logs"); Lookup2(a, b, "result"); Lookup2(a, b, "error");
  }

  // ------------------------------------------------------------ proxies

  /** The async function standing in for a host handler inside the guest. */
  datatype Proxy = Proxy(name: string)

  /** The params a proxy sends with `callHandler`: its own name and the arguments it was called with. */
  function ProxyParams(p: Proxy, args: seq<Value>): (r: Value)
    ensures Get(r, "name") == Str(p.name) && Get(r, "args") == Arr(args)
  {
    Lookup2(Prop("name", Str(p.name)), Prop("args", Arr(args)), "name");
    Lookup2(Prop("name", Str(p.name)), Prop("args", Arr(args)), "args");
    Obj([Prop("name", Str(p.name)), Prop("args", Arr(args))])
  }

  predicate Distinct(names: seq<string>) {
    forall i, j :: 0 <= i < j < |names| ==> names[i] != names[j]
  }

  /** The keys of the proxy record after assigning every name in turn: each name once, where it first occurred. */
  function FirstOccurrences(names: seq<string>): (r: seq<string>)
    ensures Distinct(r)
    ensures forall n :: n in r <==> n in names
    ensures Distinct(names) ==> r == names
  {
    if names == [] then []
    else
      var init := names[..|names| - 1];
      var last := names[|names| - 1];
      var f := FirstOccurrences(init);
      assert names == init + [last];
      assert Distinct(names) ==> Distinct(init) && last !in init by {
        if Distinct(names) {
          forall k | 0 <= k < |init| ensures init[k] != last {
            assert init[k] == names[k];
          }
        }
      }
      if last in f then f else f + [last]
  }

  /** `Object.values` of the proxy record: one proxy per key, in key order. */
  function ProxyValues(keys: seq<string>): (r: seq<Proxy>)
    ensures |r| == |keys| && forall i :: 0 <= i < |keys| ==> r[i] == Proxy(keys[i])
  {
    seq(|keys|, i requires 0 <= i < |keys| => Proxy(keys[i]))
  }

  /** The loop that fills the proxy record: assigning a name already present keeps its place. */
  method BuildProxies(names: seq<string>) returns (keys: seq<string>)
    ensures keys == FirstOccurrences(names)
  {
    keys := [];
    for i := 0 to |names|
      invariant keys == FirstOccurrences(names[..i])
    {
      assert names[..i + 1][..i] == names[..i] && names[..i + 1][i] == names[i];
      if names[i] !in keys {
        keys := keys + [names[i]];
      }
    }
    assert names[..|names|] == names;
  }

  /** The last position of a parameter name: with repeated names the last one wins. */
  function LastIndex(params: seq<string>, name: string): (r: Option<nat>)
    ensures r.None? <==> name !in params
    ensures r.Some? ==> r.value < |params| && params[r.value] == name &&
                        forall k :: r.value < k < |params| ==> params[k] != name
  {
    if params == [] then None
    else if params[|params| - 1] == name then Some(|params| - 1)
    else
      var r := LastIndex(params[..|params| - 1], name);
      assert params == params[..|params| - 1] + [params[|params| - 1]];
      r
  }

  /** What a parameter of the guest function is bound to: the value in its position, if one was passed. */
  function Bound(params: seq<string>, values: seq<Proxy>, name: string): Option<Proxy> {
    match LastIndex(params, name)
    case None => None
    case Some(j) => if j < |values| then Some(values[j]) else None
  }

  /** With distinct names, every handler parameter is bound to the proxy carrying its own name. */
  lemma DistinctNamesBindOwnProxy(names: seq<string>, i: int)
    requires Distinct(names) && 0 <= i < |names|
    ensures Bound(names, ProxyValues(FirstOccurrences(names)), names[i]) == Some(Proxy(names[i]))
  {
    var j := LastIndex(names, names[i]).value;
    assert j == i;
  }

  /**
   * With a repeated name the record has fewer values than there are
   * parameters, so the values shift: for `["a", "a", "b"]` the parameter
   * `a` gets the proxy of `b`, and `b` gets nothing.
   */
  lemma RepeatedNameShiftsBindings()
    ensures Bound(["a", "a", "b"], ProxyValues(FirstOccurrences(["a", "a", "b"])), "a") == Some(Proxy("b"))
    ensures Bound(["a", "a", "b"], ProxyValues(FirstOccurrences(["a", "a", "b"])), "b") == None
  {
    var names := ["a", "a", "b"];
    assert names[..2] == ["a", "a"] && names[..2][..1] == ["a"] && ["a"][..0] == [];
    assert FirstOccurrences(["a"]) == ["a"];
    assert FirstOccurrences(["a", "a"]) == ["a"];
    assert FirstOccurrences(names) == ["a", "b"];
    assert LastIndex(names, "a") == Some(1);
    assert LastIndex(names, "b") == Some(2);
  }

  // ------------------------------------------------------------ execution

  datatype Execution = Execution(logs: seq<string>, result: Option<Value>)

  /**
   * `executeCode` as a function of its inputs: the logs are reset first; a
   * handler list that cannot be iterated throws before the guest runs
   * (no result); otherwise the run's console lines and its package.
   */
  function Execute(code: Value, handlers: Value, guest: Guest): Execution {
    match Iterate(handlers)
    case None => Execution([], None)
    case Some(items) =>
      var names := seq(|items|, i requires 0 <= i < |items| => ToString(items[i]));
      var run := guest(ToString(code), names, ProxyValues(FirstOccurrences(names)));
      Execution(RunLogs(run), Some(Package(RunLogs(run), run.termination)))
  }

  /** Whatever the earlier runs logged, a run reports exactly its own console lines, and a failed guest is packaged as data. */
  lemma ExecutionReportsOwnLogs(code: Value, names: seq<string>, guest: Guest)
    ensures var hs := Arr(seq(|names|, i requires 0 <= i < |names| => Str(names[i])));
            var run := guest(ToString(code), names, ProxyValues(FirstOccurrences(names)));
            var e := Execute(code, hs, guest);
            e.logs == RunLogs(run) && e.result == Some(Package(RunLogs(run), run.termination)) &&
            IsExecutionResult(e.result.value) && Get(e.result.value, "logs") == LogsValue(RunLogs(run)) &&
            (run.termination.Failed? ==> Get(e.result.value, "error") == Str(ExceptionMessage(run.termination.error)))
  {
    var hs := Arr(seq(|names|, i requires 0 <= i < |names| => Str(names[i])));
    var items := Iterate(hs).value;
    assert seq(|items|, i requires 0 <= i < |items| => ToString(items[i])) == names;
    var run := guest(ToString(code), names, ProxyValues(FirstOccurrences(names)));
    PackageShape(RunLogs(run), run.termination);
    assert Get(Package(RunLogs(run), run.termination), "logs") == LogsValue(RunLogs(run));
  }

  // ------------------------------------------------------------ main loop

  /** The lines of one chunk, split on line feeds, white-space-only lines dropped. */
  function NonBlank(lines: seq<string>): seq<string> {
    if lines == [] then []
    else if Trim(lines[0]) != "" then [lines[0]] + NonBlank(lines[1..])
    else NonBlank(lines[1..])
  }

  /** The filter keeps exactly the lines that are not blank. */
  lemma {:induction false} NonBlankKeeps(lines: seq<string>)
    ensures forall l :: l in NonBlank(lines) <==> l in lines && Trim(l) != ""
  {
    if lines != [] {
      NonBlankKeeps(lines[1..]);
      assert forall l :: l in lines <==> l == lines[0] || l in lines[1..];
    }
  }

  function ChunkLines(chunk: string): seq<string> {
    NonBlank(Split(chunk))
  }

  /** What the main loop does with one line. */
  datatype Action = Skip | Run(id: Value, code: Value, handlers: Value)

  /**
   * A line is run only when it is JSON whose `method` is `executeCode` and
   * whose params can be read; invalid JSON, a null message, other methods and
   * missing params all pass without a reply.
   */
  function ActionOf(line: string): (r: Action)
    ensures r.Run? ==> Parse(line).Some? && Get(Parse(line).value, "method") == Str("executeCode") &&
                       r.id == Get(Parse(line).value, "id")
  {
    match Parse(line)
    case None => Skip
    case Some(request) =>
      match Read(request, "method")
      case Err(_) => Skip
      case Ok(m) =>
        if m != Str(MethodName(ExecuteCode)) then Skip
        else
          var params := Get(request, "params");
          match Read(params, "code")
          case Err(_) => Skip
          case Ok(code) => Run(Get(request, "id"), code, Get(params, "handlers"))
  }

  /** A request for `executeCode` whose params are an object is run with its id, its code and its handler list. */
  lemma ExecuteCodeRuns(line: string, request: Value)
    requires Parse(line) == Some(request) && Get(request, "method") == Str("executeCode")
    requires Get(request, "params").Obj?
    ensures ActionOf(line) ==
            Run(Get(request, "id"), Get(Get(request, "params"), "code"), Get(Get(request, "params"), "handlers"))
  {
    assert request.Obj?;
  }

  /** The effect of one line: the logs after it (`None`: untouched) and the text written for it. */
  datatype Effect = Effect(logs: Option<seq<string>>, out: string)

  function LineEffect(line: string, guest: Guest): (r: Effect)
    ensures ActionOf(line).Skip? ==> r == Effect(None, "")
  {
    match ActionOf(line)
    case Skip => Effect(None, "")
    case Run(id, code, handlers) =>
      var e := Execute(code, handlers, guest);
      Effect(Some(e.logs), if e.result.Some? then SerializeMessage(Response(id, e.result.value)) + "\n" else "")
  }

  /** The text each line produces, laid end to end. */
  function Emit(lines: seq<string>, f: string -> string): string {
    if lines == [] then "" else Emit(lines[..|lines| - 1], f) + f(lines[|lines| - 1])
  }

  lemma {:induction false} EmitAppend(a: seq<string>, b: seq<string>, f: string -> string)
    ensures Emit(a + b, f) == Emit(a, f) + Emit(b, f)
  {
    if b == [] {
      assert a + b == a;
    } else {
      var c := a + b;
      EmitAppend(a, b[..|b| - 1], f);
      assert c[..|c| - 1] == a + b[..|b| - 1];
      assert c[|c| - 1] == b[|b| - 1];
      Assoc(Emit(a, f), Emit(b[..|b| - 1], f), f(b[|b| - 1]));
    }
  }

  /** What the main loop writes for a line. */
  function LineOut(guest: Guest): string -> string {
    line => LineEffect(line, guest).out
  }

  /** Everything written for the lines, in order. */
  function Output(lines: seq<string>, guest: Guest): string {
    if lines == [] then "" else Output(lines[..|lines| - 1], guest) + LineEffect(lines[|lines| - 1], guest).out
  }

  lemma {:induction false} OutputIsEmit(lines: seq<string>, guest: Guest)
    ensures Output(lines, guest) == Emit(lines, LineOut(guest))
  {
    if lines != [] {
      OutputIsEmit(lines[..|lines| - 1], guest);
    }
  }

  /** The shared log buffer after the lines: as left by the last run, or untouched when none ran. */
  function LogsAfter(logs: seq<string>, lines: seq<string>, guest: Guest): seq<string> {
    if lines == [] then logs
    else
      var before := LogsAfter(logs, lines[..|lines| - 1], guest);
      match LineEffect(lines[|lines| - 1], guest).logs
      case None => before
      case Some(l) => l
  }

  /** The logs each line's run leaves, `None` when it does not run. */
  function LineLogs(guest: Guest): string -> Option<seq<string>> {
    line => LineEffect(line, guest).logs
  }

  /** The buffer after the lines, each line's run (by `f`) replacing it. */
  function Replaced(logs: seq<string>, lines: seq<string>, f: string -> Option<seq<string>>): seq<string> {
    if lines == [] then logs
    else if f(lines[|lines| - 1]).Some? then f(lines[|lines| - 1]).value
    else Replaced(logs, lines[..|lines| - 1], f)
  }

  lemma {:induction false} LogsAfterIsReplaced(logs: seq<string>, lines: seq<string>, guest: Guest)
    ensures LogsAfter(logs, lines, guest) == Replaced(logs, lines, LineLogs(guest))
  {
    if lines != [] {
      LogsAfterIsReplaced(logs, lines[..|lines| - 1], guest);
    }
  }

  lemma {:induction false} ReplacedUntouched(logs: seq<string>, lines: seq<string>, f: string -> Option<seq<string>>)
    requires forall j :: 0 <= j < |lines| ==> f(lines[j]).None?
    ensures Replaced(logs, lines, f) == logs
  {
    if lines != [] {
      var init := lines[..|lines| - 1];
      forall j | 0 <= j < |init| ensures f(init[j]).None? {
        assert init[j] == lines[j];
      }
      ReplacedUntouched(logs, init, f);
    }
  }

  lemma {:induction false} ReplacedByLast(logs: seq<string>, lines: seq<string>, f: string -> Option<seq<string>>, j: nat)
    requires j < |lines| && f(lines[j]).Some?
    requires forall m :: j < m < |lines| ==> f(lines[m]).None?
    ensures Replaced(logs, lines, f) == f(lines[j]).value
  {
    var n := |lines| - 1;
    if j < n {
      var init := lines[..n];
      assert f(lines[n]).None?;
      assert init[j] == lines[j];
      forall m | j < m < n ensures f(init[m]).None? {
        assert init[m] == lines[m];
      }
      ReplacedByLast(logs, init, f, j);
    }
  }

  /** The buffer is cleared by every run, so after the lines it holds the logs of the last line that ran, or is untouched when none did. */
  lemma LogsAfterLastRun(logs: seq<string>, lines: seq<string>, guest: Guest)
    ensures (forall j :: 0 <= j < |lines| ==> LineEffect(lines[j], guest).logs.None?) ==> LogsAfter(logs, lines, guest) == logs
    ensures forall j :: 0 <= j < |lines| && LineEffect(lines[j], guest).logs.Some? &&
                        (forall m :: j < m < |lines| ==> LineEffect(lines[m], guest).logs.None?) ==>
                        LogsAfter(logs, lines, guest) == LineEffect(lines[j], guest).logs.value
  {
    LogsAfterIsReplaced(logs, lines, guest);
    if forall j :: 0 <= j < |lines| ==> LineEffect(lines[j], guest).logs.None? {
      ReplacedUntouched(logs, lines, LineLogs(guest));
    }
    forall j | 0 <= j < |lines| && LineEffect(lines[j], guest).logs.Some? &&
               (forall m :: j < m < |lines| ==> LineEffect(lines[m], guest).logs.None?)
      ensures LogsAfter(logs, lines, guest) == LineEffect(lines[j], guest).logs.value
    {
      ReplacedByLast(logs, lines, LineLogs(guest), j);
    }
  }

  /** Only `executeCode` is answered, and its reply is a version-2.0 result response echoing the request's id. */
  lemma OnlyExecuteCodeAnswered(line: string, guest: Guest)
    requires LineEffect(line, guest).out != ""
    ensures Parse(line).Some? && Get(Parse(line).value, "method") == Str("executeCode")
    ensures var e := Execute(ActionOf(line).code, ActionOf(line).handlers, guest);
            e.result.Some? &&
            LineEffect(line, guest).out == SerializeMessage(Response(Get(Parse(line).value, "id"), e.result.value)) + "\n"
  {
  }

  /** Lines are independent of each other: the output for two runs of lines is the output for each, one after the other. */
  lemma OutputAppend(a: seq<string>, b: seq<string>, guest: Guest)
    ensures Output(a + b, guest) == Output(a, guest) + Output(b, guest)
  {
    OutputIsEmit(a + b, guest);
    OutputIsEmit(a, guest);
    OutputIsEmit(b, guest);
    EmitAppend(a, b, LineOut(guest));
  }

  /** One more line: its text after that of the lines before it, and its logs if it ran. */
  lemma OutputStep(lines: seq<string>, i: nat, logs0: seq<string>, guest: Guest)
    requires i < |lines|
    ensures Output(lines[..i + 1], guest) == Output(lines[..i], guest) + LineEffect(lines[i], guest).out
    ensures LogsAfter(logs0, lines[..i + 1], guest) ==
            if LineEffect(lines[i], guest).logs.Some? then LineEffect(lines[i], guest).logs.value else LogsAfter(logs0, lines[..i], guest)
  {
    assert lines[..i + 1][..i] == lines[..i] && lines[..i + 1][i] == lines[i];
  }

  // ------------------------------------------------------------ sendRequest

  /**
   * One line read while waiting for the reply with id `uuid`: invalid JSON
   * and other ids pass (`None`); a null message throws its TypeError; the
   * matching reply settles the call with its result or, when `error` is
   * truthy, with "JSON-RPC Error: " and the error's message.
   */
  function LineVerdict(uuid: string, line: string): (r: Option<Result<Value>>)
    ensures r.Some? ==> Parse(line).Some?
    ensures Parse(line).Some? && Parse(line).value.Obj? && Get(Parse(line).value, "id") != Str(uuid) ==> r.None?
  {
    match Parse(line)
    case None => None
    case Some(response) =>
      match Read(response, "id")
      case Err(typeError) => Some(Err(typeError))
      case Ok(id) =>
        if id != Str(uuid) then None
        else
          var err := Get(response, "error");
          if Truthy(err) then Some(Err("JSON-RPC Error: " + ToString(Get(err, "message"))))
          else Some(Ok(Get(response, "result")))
  }

  /** The first line of a chunk that settles the call, if any; the lines after it are never looked at. */
  function ScanLines(uuid: string, lines: seq<string>): Option<Result<Value>> {
    if lines == [] then None
    else if LineVerdict(uuid, lines[0]).Some? then LineVerdict(uuid, lines[0])
    else ScanLines(uuid, lines[1..])
  }

  /** How the wait ends, and how many chunks it read. */
  datatype Reply = Reply(outcome: Result<Value>, consumed: nat)

  /** Reading chunk after chunk until one settles the call; running out of input fails with "Stdin closed". */
  function AwaitReply(uuid: string, chunks: seq<string>): (r: Reply)
    ensures r.consumed <= |chunks|
    ensures r.consumed == 0 <==> chunks == []
    ensures chunks == [] ==> r.outcome == Err("Stdin closed")
  {
    if chunks == [] then Reply(Err("Stdin closed"), 0)
    else
      match ScanLines(uuid, ChunkLines(chunks[0]))
      case Some(outcome) => Reply(outcome, 1)
      case None =>
        var r := AwaitReply(uuid, chunks[1..]);
        Reply(r.outcome, r.consumed + 1)
  }

  /** One read: the first chunk settles the call, or the wait goes on with the rest. */
  lemma AwaitStep(uuid: string, chunks: seq<string>)
    requires chunks != []
    ensures var v := ScanLines(uuid, ChunkLines(chunks[0]));
            AwaitReply(uuid, chunks) ==
              if v.Some? then Reply(v.value, 1)
              else Reply(AwaitReply(uuid, chunks[1..]).outcome, AwaitReply(uuid, chunks[1..]).consumed + 1)
  {
  }

  /** A reply for another id, or a line that is not JSON, is passed over: the wait goes on as if the line were not there. */
  lemma PassedOver(uuid: string, line: string, rest: seq<string>)
    requires Parse(line).None? || (Parse(line).value.Obj? && Get(Parse(line).value, "id") != Str(uuid))
    ensures ScanLines(uuid, [line] + rest) == ScanLines(uuid, rest)
  {
    assert ([line] + rest)[0] == line && ([line] + rest)[1..] == rest;
  }

  /** The matching success reply gives its result; the matching error reply gives "JSON-RPC Error: <message>". */
  lemma MatchingReply(uuid: string, line: string)
    requires Parse(line).Some? && Parse(line).value.Obj? && Get(Parse(line).value, "id") == Str(uuid)
    ensures var response := Parse(line).value;
            var err := Get(response, "error");
            (Truthy(err) ==> LineVerdict(uuid, line) == Some(Err("JSON-RPC Error: " + ToString(Get(err, "message"))))) &&
            (!Truthy(err) ==> LineVerdict(uuid, line) == Some(Ok(Get(response, "result"))))
  {
  }

  /** The loop over the lines of one chunk in `sendRequest`. */
  method ScanChunk(uuid: string, lines: seq<string>) returns (verdict: Option<Result<Value>>)
    ensures verdict == ScanLines(uuid, lines)
  {
    for j := 0 to |lines|
      invariant ScanLines(uuid, lines) == ScanLines(uuid, lines[j..])
    {
      verdict := LineVerdict(uuid, lines[j]);
      if verdict.Some? {
        return;
      }
      assert lines[j..][1..] == lines[j + 1..];
    }
    assert lines[|lines|..] == [];
    verdict := None;
  }

  // ------------------------------------------------------------ the worker

  /** The worker process: the shared log buffer, its remaining input chunks and what it has written. */
  class Runtime {
    var logs: seq<string>
    var input: seq<string>
    var stdout: string

    constructor(input: seq<string>)
      ensures logs == [] && this.input == input && stdout == ""
    {
      logs := [];
      this.input := input;
      stdout := "";
    }

    /** A console call of the guest: one line appended to the shared buffer. */
    method Console(level: Level, args: seq<Value>)
      modifies this
      ensures logs == old(logs) + [ConsoleLine(level, args)]
      ensures input == old(input) && stdout == old(stdout)
    {
      logs := logs + [ConsoleLine(level, args)];
    }

    /** The console calls of a run, recorded in call order. */
    method Record(run: GuestRun)
      modifies this
      ensures logs == old(logs) + RunLogs(run)
      ensures input == old(input) && stdout == old(stdout)
    {
      for i := 0 to |run.calls|
        invariant logs == old(logs) + RunLogs(run)[..i]
        invariant input == old(input) && stdout == old(stdout)
      {
        Console(run.calls[i].level, run.calls[i].args);
        assert RunLogs(run)[..i + 1] == RunLogs(run)[..i] + [RunLogs(run)[i]];
        AppendAssoc(old(logs), RunLogs(run)[..i], [RunLogs(run)[i]]);
      }
      assert RunLogs(run)[..|run.calls|] == RunLogs(run);
    }

    /** `executeCode`: reset the logs, build the proxies, run the guest with the console calls recorded, package the outcome. */
    method ExecuteCode(code: Value, handlers: Value, guest: Guest) returns (result: Option<Value>)
      modifies this
      ensures logs == Execute(code, handlers, guest).logs && result == Execute(code, handlers, guest).result
      ensures input == old(input) && stdout == old(stdout)
    {
      logs := [];
      var items := Iterate(handlers);
      if items.None? {
        return None;
      }
      var names := seq(|items.value|, i requires 0 <= i < |items.value| => ToString(items.value[i]));
      var keys := BuildProxies(names);
      var run := guest(ToString(code), names, ProxyValues(keys));
      Record(run);
      assert [] + RunLogs(run) == RunLogs(run);
      result := Some(Package(logs, run.termination));
    }

    /** One line of the main loop: an `executeCode` request is run and answered; any other line is passed over. */
    method HandleLine(line: string, guest: Guest)
      modifies this
      ensures stdout == old(stdout) + LineEffect(line, guest).out
      ensures logs == if LineEffect(line, guest).logs.Some? then LineEffect(line, guest).logs.value else old(logs)
      ensures input == old(input)
    {
      var action := ActionOf(line);
      if action.Skip? {
        return;
      }
      var result := ExecuteCode(action.code, action.handlers, guest);
      if result.Some? {
        stdout := stdout + (SerializeMessage(Response(action.id, result.value)) + "\n");
      }
    }

    /** The body of the main loop for one chunk: lines split within the chunk only, each dispatched in order. */
    method HandleChunk(chunk: string, guest: Guest)
      modifies this
      ensures stdout == old(stdout) + Output(ChunkLines(chunk), guest)
      ensures logs == LogsAfter(old(logs), ChunkLines(chunk), guest)
      ensures input == old(input)
    {
      var lines := ChunkLines(chunk);
      for i := 0 to |lines|
        invariant stdout == old(stdout) + Output(lines[..i], guest)
        invariant logs == LogsAfter(old(logs), lines[..i], guest)
        invariant input == old(input)
      {
        OutputStep(lines, i, old(logs), guest);
        Assoc(old(stdout), Output(lines[..i], guest), LineEffect(lines[i], guest).out);
        HandleLine(lines[i], guest);
      }
      assert lines[..|lines|] == lines;
    }

    /** `main`: chunk after chunk until end of input. */
    method Serve(guest: Guest)
      modifies this
      ensures input == []
      ensures stdout == old(stdout) + Served(old(input), guest)
      ensures logs == LogsServed(old(logs), old(input), guest)
    {
      ghost var k := 0;
      while input != []
        invariant k <= |old(input)| && input == old(input)[k..]
        invariant stdout == old(stdout) + Served(old(input)[..k], guest)
        invariant logs == LogsServed(old(logs), old(input)[..k], guest)
        decreases |input|
      {
        var chunk := input[0];
        input := input[1..];
        ServedStep(old(input), k, old(logs), guest);
        Assoc(old(stdout), Served(old(input)[..k], guest), Output(ChunkLines(chunk), guest));
        HandleChunk(chunk, guest);
        k := k + 1;
      }
      assert old(input)[..k] == old(input);
    }

    /**
     * The worker's `sendRequest`: the request line with id `uuid` is
     * written first, then chunks are read until one settles the call.
     */
    method SendRequest(name: string, params: Value, uuid: string) returns (r: Result<Value>)
      modifies this
      ensures stdout == old(stdout) + (SerializeMessage(Request(Str(uuid), name, params)) + "\n")
      ensures r == AwaitReply(uuid, old(input)).outcome
      ensures input == old(input)[AwaitReply(uuid, old(input)).consumed..]
      ensures logs == old(logs)
    {
      stdout := stdout + (SerializeMessage(Request(Str(uuid), name, params)) + "\n");
      r := Await(uuid);
    }

    /** The read loop of `sendRequest`: chunk after chunk until one holds the reply with id `uuid`. */
    method Await(uuid: string) returns (r: Result<Value>)
      modifies this
      ensures r == AwaitReply(uuid, old(input)).outcome
      ensures input == old(input)[AwaitReply(uuid, old(input)).consumed..]
      ensures logs == old(logs) && stdout == old(stdout)
    {
      ghost var k := 0;
      while input != []
        invariant k <= |old(input)| && input == old(input)[k..]
        invariant logs == old(logs) && stdout == old(stdout)
        invariant AwaitReply(uuid, old(input)) ==
                  Reply(AwaitReply(uuid, input).outcome, AwaitReply(uuid, input).consumed + k)
        decreases |input|
      {
        var verdict := ScanChunk(uuid, ChunkLines(input[0]));
        AwaitStep(uuid, input);
        input := input[1..];
        k := k + 1;
        if verdict.Some? {
          return verdict.value;
        }
      }
      r := Err("Stdin closed");
    }

    /** A proxy call from the guest: `callHandler` with the proxy's name and the arguments. */
    method Invoke(p: Proxy, args: seq<Value>, uuid: string) returns (r: Result<Value>)
      modifies this
      ensures stdout == old(stdout) + (SerializeMessage(Request(Str(uuid), "callHandler", ProxyParams(p, args))) + "\n")
      ensures r == AwaitReply(uuid, old(input)).outcome
      ensures input == old(input)[AwaitReply(uuid, old(input)).consumed..]
      ensures logs == old(logs)
    {
      r := SendRequest(MethodName(CallHandler), ProxyParams(p, args), uuid);
    }
  }

  /** Everything written while serving the chunks. */
  function Served(chunks: seq<string>, guest: Guest): string {
    if chunks == [] then "" else Served(chunks[..|chunks| - 1], guest) + Output(ChunkLines(chunks[|chunks| - 1]), guest)
  }

  /** The shared log buffer after serving the chunks: as the last run left it, or untouched when none ran. */
  function LogsServed(logs: seq<string>, chunks: seq<string>, guest: Guest): seq<string> {
    if chunks == [] then logs
    else LogsAfter(LogsServed(logs, chunks[..|chunks| - 1], guest), ChunkLines(chunks[|chunks| - 1]), guest)
  }

  lemma ServedStep(chunks: seq<string>, k: nat, logs0: seq<string>, guest: Guest)
    requires k < |chunks|
    ensures Served(chunks[..k + 1], guest) == Served(chunks[..k], guest) + Output(ChunkLines(chunks[k]), guest)
    ensures LogsServed(logs0, chunks[..k + 1], guest) == LogsAfter(LogsServed(logs0, chunks[..k], guest), ChunkLines(chunks[k]), guest)
  {
    assert chunks[..k + 1][..k] == chunks[..k] && chunks[..k + 1][k] == chunks[k];
  }
}
