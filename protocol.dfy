/**
 * The two ends of the link together: what one side writes, read by the
 * other through its own parser and dispatch rules.  Each lemma follows one
 * message across the pipe: the host's `executeCode` request into the
 * worker's main loop, the worker's reply back into the host's correlator,
 * a guest's proxy call into the host's dispatcher, and the host's answer
 * into the worker's `sendRequest`.
 */
module Protocol {
  import opened Wrappers
  import opened JsValue
  import opened Text
  import opened Json
  import opened JsonLemmas
  import opened Types
  import opened JsonRpc
  import Host
  import Worker

  /** A serialized object is never a blank line, so neither loop skips it for that reason. */
  lemma MessageNotBlank(m: Value)
    requires m.Obj?
    ensures Trim(SerializeMessage(m)) != ""
  {
    var s := SerializeMessage(m);
    assert s == Serialize(m, "", "") && s[0] == '{';
    TrimEmptyIffBlank(s);
    assert !IsJsSpace(s[0]);
  }

  /** A reply carrying any value other than `undefined` reads back with that value as JSON keeps it. */
  lemma StripResponse(id: Value, result: Value)
    requires IsId(id) && result != Undefined
    ensures Strip(Response(id, result)) == Response(id, Strip(result))
  {
    var a, b, c := Prop("jsonrpc", Str("2.0")), Prop("id", id), Prop("result", result);
    StripThree(a, b, c);
    assert Response(id, result) == Obj([a, b, c]);
    assert Response(id, Strip(result)) == Obj([a, b, Prop("result", Strip(result))]);
  }

  lemma StripThree(a: Prop, b: Prop, c: Prop)
    requires a.val != Undefined && b.val != Undefined && c.val != Undefined
    ensures Strip(Obj([a, b, c])) == Obj([Prop(a.key, Strip(a.val)), Prop(b.key, Strip(b.val)), Prop(c.key, Strip(c.val))])
  {
    StripKept(a, [b, c]);
    StripKept(b, [c]);
    StripKept(c, []);
    assert [a, b, c] == [a] + [b, c] && [b, c] == [b] + [c] && [c] == [c] + [];
  }

  lemma StripKept(p: Prop, rest: seq<Prop>)
    requires p.val != Undefined
    ensures StripProps([p] + rest) == [Prop(p.key, Strip(p.val))] + StripProps(rest)
  {
    assert ([p] + rest)[0] == p && ([p] + rest)[1..] == rest;
  }

  /**
   * The params of `execute` read back with the code and the handler list as
   * sent; only the context loses what JSON drops (the worker never reads it).
   */
  lemma ExecuteParamsStrip(code: string, context: Option<Value>, names: seq<string>)
    requires context.Some? ==> WellFormed(context.value)
    ensures var params := Host.ExecuteParams(code, context, names);
            WellFormed(params) && Strip(params).Obj? &&
            Get(Strip(params), "code") == Str(code) && Get(Strip(params), "handlers") == Get(params, "handlers")
  {
    var ctx := if context.Some? && Truthy(context.value) then context.value else Obj([]);
    var hs := Arr(seq(|names|, i requires 0 <= i < |names| => Str(names[i])));
    assert WellFormed(hs) && Defined(hs);
    StripDefined(hs);
    var a, b, c := Prop("code", Str(code)), Prop("context", ctx), Prop("handlers", hs);
    Object3(a, b, c);
    assert Host.ExecuteParams(code, context, names) == Obj([a, b, c]);
    StripThree(a, b, c);
    var b' := Prop("context", Strip(ctx));
    Lookup3(a, b', c, "code");
    Lookup3(a, b', c, "handlers");
    Lookup3(a, b, c, "handlers");
  }

  /**
   * The host's `executeCode` request, read by the worker's main loop, is
   * run with the host's id, the code as sent and the handler list as sent,
   * whatever the context holds.
   */
  lemma ExecuteRequestRuns(k: nat, code: string, context: Option<Value>, names: seq<string>)
    requires context.Some? ==> WellFormed(context.value)
    ensures var params := Host.ExecuteParams(code, context, names);
            var action := Worker.ActionOf(SerializeMessage(Request(Num(k), "executeCode", params)));
            action == Worker.Run(Num(k), Str(code), Get(params, "handlers"))
  {
    var params := Host.ExecuteParams(code, context, names);
    ExecuteParamsStrip(code, context, names);
    var a, b, c, d := Prop("jsonrpc", Str("2.0")), Prop("id", Num(k)), Prop("method", Str("executeCode")), Prop("params", params);
    Object4(a, b, c, d);
    var m := Obj([a, b, c, d]);
    assert Request(Num(k), "executeCode", params) == m;
    MessageRoundTrip(m);
    StripFour(a, b, c, d);
    var received := Request(Num(k), "executeCode", Strip(params));
    assert Parse(SerializeMessage(m)) == Some(received);
    Worker.ExecuteCodeRuns(SerializeMessage(m), received);
  }

  /**
   * The guest run for that request gets the code and exactly the host's
   * handler names, each bound to a proxy of its own name.
   */
  lemma ExecuteRequestReachesGuest(code: string, context: Option<Value>, names: seq<string>, guest: Worker.Guest)
    requires Worker.Distinct(names)
    ensures var run := guest(code, names, Worker.ProxyValues(names));
            Worker.Execute(Str(code), Get(Host.ExecuteParams(code, context, names), "handlers"), guest) ==
              Worker.Execution(Worker.RunLogs(run), Some(Worker.Package(Worker.RunLogs(run), run.termination)))
    ensures forall i :: 0 <= i < |names| ==>
              Worker.Bound(names, Worker.ProxyValues(names), names[i]) == Some(Worker.Proxy(names[i]))
  {
    var hs := Get(Host.ExecuteParams(code, context, names), "handlers");
    var items := Iterate(hs).value;
    assert items == hs.items;
    assert seq(|items|, i requires 0 <= i < |items| => ToString(items[i])) == names;
    forall i | 0 <= i < |names|
      ensures Worker.Bound(names, Worker.ProxyValues(names), names[i]) == Some(Worker.Proxy(names[i]))
    {
      Worker.DistinctNamesBindOwnProxy(names, i);
    }
  }

  /**
   * The worker's reply, read by the host, settles the pending call with
   * that id: it leaves `pending` and resolves with the result as JSON
   * carries it.
   */
  lemma ReplySettlesCall(l: Host.Link, id: Value, result: Value, handlers: map<string, Host.Handler>)
    requires IsId(id) && result != Undefined && WellFormed(result)
    requires id in l.pending
    ensures var after := Host.AfterLine(l, SerializeMessage(Response(id, result)), handlers);
            after == l.(pending := l.pending - {id}, settled := l.settled[id := Host.Resolved(Strip(result))])
  {
    var m := Response(id, result);
    Object3(Prop("jsonrpc", Str("2.0")), Prop("id", id), Prop("result", result));
    MessageNotBlank(m);
    MessageRoundTrip(m);
    StripResponse(id, result);
    var r := Response(id, Strip(result));
    assert ParseMessage(SerializeMessage(m)) == Some(r);
    assert Host.Classify(r) == Host.ResponseKind;
    assert Host.SettlementOf(r) == Host.Resolved(Strip(result));
  }

  /** A reply for an id the host no longer waits for (timed out or settled) changes nothing. */
  lemma LateReplyDropped(l: Host.Link, id: Value, result: Value, handlers: map<string, Host.Handler>)
    requires IsId(id) && result != Undefined && WellFormed(result)
    requires id !in l.pending
    ensures Host.AfterLine(l, SerializeMessage(Response(id, result)), handlers) == l
  {
    var m := Response(id, result);
    Object3(Prop("jsonrpc", Str("2.0")), Prop("id", id), Prop("result", result));
    MessageNotBlank(m);
    MessageRoundTrip(m);
    StripResponse(id, result);
    var r := Response(id, Strip(result));
    assert ParseMessage(SerializeMessage(m)) == Some(r);
    assert Host.Classify(r) == Host.ResponseKind;
  }

  /** An execution package survives the trip: the logs and the error message unchanged, an exact copy when nothing is undefined. */
  lemma PackageSurvives(logs: seq<string>, t: Worker.Termination)
    requires t.Completed? ==> WellFormed(t.value)
    ensures var p := Worker.Package(logs, t);
            WellFormed(p) && IsExecutionResult(Strip(p)) &&
            Get(Strip(p), "logs") == Worker.LogsValue(logs) &&
            (t.Failed? ==> Strip(p) == p) &&
            (t.Completed? && Defined(t.value) ==> Strip(p) == p)
  {
    var lv := Worker.LogsValue(logs);
    assert WellFormed(lv) && Defined(lv);
    var p := Worker.Package(logs, t);
    match t
    case Completed(v) =>
      Object2(Prop("logs", lv), Prop("result", v));
      var ps := p.props;
      assert ps[1..] == [ps[1]] && ps[1..][1..] == [];
      StripDefined(lv);
      var tail := if v == Undefined then [] else [Prop("result", Strip(v))];
      assert StripProps(ps[1..][1..]) == [];
      assert StripProps(ps[1..]) == tail + [];
      assert StripProps(ps) == [Prop("logs", Strip(lv))] + tail;
      var sp := if v == Undefined then [Prop("logs", lv)] else [Prop("logs", lv), Prop("result", Strip(v))];
      assert [Prop("logs", lv)] + tail == sp;
      if v == Undefined {
        Lookup1(Prop("logs", lv), "logs"); Lookup1(Prop("logs", lv), "error");
      } else {
        Lookup2(Prop("logs", lv), Prop("result", Strip(v)), "logs");
        Lookup2(Prop("logs", lv), Prop("result", Strip(v)), "error");
      }
      if Defined(v) {
        StripDefined(p);
      }
    case Failed(e) =>
      Object2(Prop("logs", lv), Prop("error", Str(ExceptionMessage(e))));
      StripDefined(p);
      Worker.PackageShape(logs, t);
  }

  /**
   * One full round: the host's `executeCode` request for a pending id,
   * answered by the worker's main loop, settles that call with the
   * package of the guest's run; the host's `execute` resolves with it.
   */
  lemma ExecuteRoundTrip(l: Host.Link, k: nat, code: string, context: Option<Value>, names: seq<string>,
                         guest: Worker.Guest, handlers: map<string, Host.Handler>)
    requires context.Some? ==> WellFormed(context.value)
    requires Worker.Distinct(names) && Num(k) in l.pending
    requires var run := guest(code, names, Worker.ProxyValues(names));
             run.termination.Completed? ==> WellFormed(run.termination.value)
    ensures var line := SerializeMessage(Request(Num(k), "executeCode", Host.ExecuteParams(code, context, names)));
            var run := guest(code, names, Worker.ProxyValues(names));
            var pkg := Worker.Package(Worker.RunLogs(run), run.termination);
            var reply := SerializeMessage(Response(Num(k), pkg));
            Worker.LineEffect(line, guest) == Worker.Effect(Some(Worker.RunLogs(run)), reply + "\n") &&
            Host.AfterLine(l, reply, handlers) ==
              l.(pending := l.pending - {Num(k)}, settled := l.settled[Num(k) := Host.Resolved(Strip(pkg))]) &&
            Get(Strip(pkg), "logs") == Worker.LogsValue(Worker.RunLogs(run))
  {
    var line := SerializeMessage(Request(Num(k), "executeCode", Host.ExecuteParams(code, context, names)));
    var run := guest(code, names, Worker.ProxyValues(names));
    var pkg := Worker.Package(Worker.RunLogs(run), run.termination);
    ExecuteRequestRuns(k, code, context, names);
    ExecuteRequestReachesGuest(code, context, names, guest);
    var hs := Get(Host.ExecuteParams(code, context, names), "handlers");
    assert Worker.ActionOf(line) == Worker.Run(Num(k), Str(code), hs);
    assert Worker.Execute(Str(code), hs, guest) == Worker.Execution(Worker.RunLogs(run), Some(pkg));
    PackageSurvives(Worker.RunLogs(run), run.termination);
    ReplySettlesCall(l, Num(k), pkg, handlers);
  }

  lemma StripFour(a: Prop, b: Prop, c: Prop, d: Prop)
    requires a.val != Undefined && b.val != Undefined && c.val != Undefined && d.val != Undefined
    ensures Strip(Obj([a, b, c, d])) ==
            Obj([Prop(a.key, Strip(a.val)), Prop(b.key, Strip(b.val)), Prop(c.key, Strip(c.val)), Prop(d.key, Strip(d.val))])
  {
    StripKept(a, [b, c, d]);
    StripKept(b, [c, d]);
    StripKept(c, [d]);
    StripKept(d, []);
    assert [a, b, c, d] == [a] + [b, c, d] && [b, c, d] == [b] + [c, d] && [c, d] == [c] + [d] && [d] == [d] + [];
  }

  /** The params of a proxy call read back with the arguments as JSON carries them: `undefined` arguments become `null`. */
  lemma ProxyParamsStrip(p: Worker.Proxy, args: seq<Value>)
    requires WellFormed(Arr(args))
    ensures WellFormed(Worker.ProxyParams(p, args))
    ensures Strip(Worker.ProxyParams(p, args)) == Worker.ProxyParams(p, StripItems(args))
  {
    var a, b := Prop("name", Str(p.name)), Prop("args", Arr(args));
    Object2(a, b);
    StripKept(a, [b]);
    StripKept(b, []);
    assert [a, b] == [a] + [b] && [b] == [b] + [];
  }

  /** A proxy call's request reads back as the same request, with its arguments as JSON carries them. */
  lemma ProxyRequestStrip(uuid: string, p: Worker.Proxy, args: seq<Value>)
    requires WellFormed(Arr(args))
    ensures var params := Worker.ProxyParams(p, args);
            ParseMessage(SerializeMessage(Request(Str(uuid), "callHandler", params)))
              == Some(Request(Str(uuid), "callHandler", Worker.ProxyParams(p, StripItems(args))))
  {
    var params := Worker.ProxyParams(p, args);
    ProxyParamsStrip(p, args);
    var a, b, c, d := Prop("jsonrpc", Str("2.0")), Prop("id", Str(uuid)), Prop("method", Str("callHandler")), Prop("params", params);
    Object4(a, b, c, d);
    assert Request(Str(uuid), "callHandler", params) == Obj([a, b, c, d]);
    MessageRoundTrip(Obj([a, b, c, d]));
    StripFour(a, b, c, d);
  }

  /**
   * A guest's proxy call, read by the host, is dispatched to the handler of
   * the proxy's name with the arguments as JSON carries them (an `undefined`
   * argument arrives as `null`), and the host writes one reply with the
   * worker's request id.
   */
  lemma ProxyCallReachesHandler(l: Host.Link, uuid: string, p: Worker.Proxy, args: seq<Value>,
                                handlers: map<string, Host.Handler>)
    requires WellFormed(Arr(args))
    ensures var request := Request(Str(uuid), "callHandler", Worker.ProxyParams(p, args));
            var outcome := if p.name in handlers then handlers[p.name](StripItems(args))
                           else Host.Threw(ErrorObject("Handler not found: " + p.name));
            Host.AfterLine(l, SerializeMessage(request), handlers) ==
              l.(process := Host.Write(l.process, Host.Answer(Str(uuid), outcome)))
  {
    var m := Request(Str(uuid), "callHandler", Worker.ProxyParams(p, args));
    var received := Request(Str(uuid), "callHandler", Worker.ProxyParams(p, StripItems(args)));
    ProxyRequestStrip(uuid, p, args);
    MessageNotBlank(m);
    assert Host.AfterLine(l, SerializeMessage(m), handlers) == Host.AfterMessage(l, received, handlers);
    assert Host.Classify(received) == Host.RequestKind by {
      assert Has(received, "method");
    }
    if p.name in handlers {
      Host.RegisteredHandlerAnswers(received, handlers, p.name, StripItems(args));
    } else {
      Host.UnregisteredHandlerFails(received, handlers, p.name);
      assert Code(InternalError) == -32603;
    }
  }

  /** The host's error reply, read by the waiting `sendRequest`, fails the call with "JSON-RPC Error: " and the message. */
  lemma ErrorReplyFailsCall(uuid: string, code: int, message: string)
    ensures Worker.LineVerdict(uuid, SerializeMessage(ErrorResponse(Str(uuid), code, message)))
            == Some(Err("JSON-RPC Error: " + message))
  {
    var m := ErrorResponse(Str(uuid), code, message);
    ErrorResponseRoundTrip(Str(uuid), code, message);
    assert Parse(SerializeMessage(m)) == Some(m);
    assert Read(m, "id") == Ok(Str(uuid));
    assert Truthy(Get(m, "error"));
  }

  /**
   * A handler's outcome reaches the guest: its value as JSON carries it when
   * it returned (`undefined` included), the thrown message behind the prefix
   * when it threw.
   */
  lemma HandlerOutcomeReachesGuest(uuid: string, o: Host.HandlerOutcome)
    requires o.Returned? ==> WellFormed(o.value)
    ensures var verdict := Worker.LineVerdict(uuid, SerializeMessage(Host.Answer(Str(uuid), o)));
            (o.Returned? ==> verdict == Some(Ok(Strip(o.value)))) &&
            (o.Threw? ==> verdict == Some(Err("JSON-RPC Error: " + ExceptionMessage(o.error))))
  {
    match o
    case Returned(v) =>
      if v == Undefined {
        UndefinedReplyReachesGuest(uuid);
      } else {
        DefinedReplyReachesGuest(uuid, v);
      }
    case Threw(e) =>
      assert Host.Answer(Str(uuid), o) == ErrorResponse(Str(uuid), Code(InternalError), ExceptionMessage(e));
      ErrorReplyFailsCall(uuid, Code(InternalError), ExceptionMessage(e));
  }

  /** A reply with an `undefined` result resolves the waiting call with `undefined`. */
  lemma UndefinedReplyReachesGuest(uuid: string)
    ensures Worker.LineVerdict(uuid, SerializeMessage(Response(Str(uuid), Undefined))) == Some(Ok(Undefined))
  {
    var a, b := Prop("jsonrpc", Str("2.0")), Prop("id", Str(uuid));
    UndefinedResultDropped(Str(uuid));
    Lookup2(a, b, "id"); Lookup2(a, b, "error"); Lookup2(a, b, "result");
    assert Read(Obj([a, b]), "id") == Ok(Str(uuid));
  }

  /** A reply with any other result resolves the waiting call with that result as JSON carries it. */
  lemma DefinedReplyReachesGuest(uuid: string, v: Value)
    requires v != Undefined && WellFormed(v)
    ensures Worker.LineVerdict(uuid, SerializeMessage(Response(Str(uuid), v))) == Some(Ok(Strip(v)))
  {
    var m := Response(Str(uuid), v);
    Object3(Prop("jsonrpc", Str("2.0")), Prop("id", Str(uuid)), Prop("result", v));
    MessageRoundTrip(m);
    StripResponse(Str(uuid), v);
    var r := Response(Str(uuid), Strip(v));
    assert Parse(SerializeMessage(m)) == Some(r);
    assert Read(r, "id") == Ok(Str(uuid));
    assert !Truthy(Get(r, "error"));
  }
}
