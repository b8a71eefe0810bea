/**
 * The host's message builders (`JsonRpcHandler`): a request id counter,
 * response and error-response envelopes as in sections 4, 5 and 5.1 of the
 * JSON-RPC 2.0 Specification, a parser that keeps only version-2.0 messages,
 * and the serializer that writes them.
 */
module JsonRpc {
  import opened Wrappers
  import opened JsValue
  import opened Json
  import opened JsonLemmas
  import opened Types

  /** The request envelope `{jsonrpc, id, method, params}`; `params` may be `undefined`. */
  function Request(id: Value, name: string, params: Value): (r: Value)
    ensures IsId(id) ==> IsRequest(r)
    ensures Get(r, "id") == id && Get(r, "method") == Str(name) && Get(r, "params") == params
    ensures !Has(r, "result") && !Has(r, "error")
  {
    var a, b, c, d := Prop("jsonrpc", Str("2.0")), Prop("id", id), Prop("method", Str(name)), Prop("params", params);
    Lookup4(a, b, c, d, "jsonrpc"); Lookup4(a, b, c, d, "id"); Lookup4(a, b, c, d, "method");
    Lookup4(a, b, c, d, "params"); Lookup4(a, b, c, d, "result"); Lookup4(a, b, c, d, "error");
    Obj([a, b, c, d])
  }

  /** `createResponse`: the id and result echoed, no error member. */
  function Response(id: Value, result: Value): (r: Value)
    ensures IsId(id) ==> IsResponse(r)
    ensures Get(r, "id") == id && Get(r, "result") == result
    ensures Has(r, "result") && !Has(r, "error") && !Has(r, "method")
  {
    var a, b, c := Prop("jsonrpc", Str("2.0")), Prop("id", id), Prop("result", result);
    Lookup3(a, b, c, "jsonrpc"); Lookup3(a, b, c, "id"); Lookup3(a, b, c, "result");
    Lookup3(a, b, c, "error"); Lookup3(a, b, c, "method");
    Obj([a, b, c])
  }

  /** `createErrorResponse`: the id echoed, `error = {code, message}`, no result member. */
  function ErrorResponse(id: Value, code: int, message: string): (r: Value)
    ensures IsId(id) ==> IsResponse(r)
    ensures Get(r, "id") == id && Get(r, "error") == Obj([Prop("code", Num(code)), Prop("message", Str(message))])
    ensures IsErrorObject(Get(r, "error"))
    ensures Has(r, "error") && !Has(r, "result") && !Has(r, "method")
  {
    var e1, e2 := Prop("code", Num(code)), Prop("message", Str(message));
    Lookup2(e1, e2, "code"); Lookup2(e1, e2, "message");
    var a, b, c := Prop("jsonrpc", Str("2.0")), Prop("id", id), Prop("error", Obj([e1, e2]));
    Lookup3(a, b, c, "jsonrpc"); Lookup3(a, b, c, "id"); Lookup3(a, b, c, "result");
    Lookup3(a, b, c, "error"); Lookup3(a, b, c, "method");
    Obj([a, b, c])
  }

  /** `parseMessage`: the parsed value when the text is JSON carrying `jsonrpc: "2.0"`, otherwise `None` (null). */
  function ParseMessage(data: string): (r: Option<Value>)
    ensures r.Some? <==> Parse(data).Some? && Get(Parse(data).value, "jsonrpc") == Str("2.0")
    ensures r.Some? ==> r == Parse(data) && r.value.Obj?
  {
    match Parse(data)
    case None => None
    case Some(msg) => if Get(msg, "jsonrpc") == Str("2.0") then Some(msg) else None
  }

  /** `serializeMessage`: the compact JSON text, always a single line. */
  function SerializeMessage(m: Value): (r: string)
    requires m.Obj?
    ensures '\n' !in r
    ensures WellFormed(m) ==> Parse(r) == Some(Strip(m))
  {
    CompactOneLine(m, "");
    ParseCompact(m);
    Serialize(m, "", "")
  }

  lemma ParseCompact(m: Value)
    requires m != Undefined
    ensures WellFormed(m) ==> Parse(Serialize(m, "", "")) == Some(Strip(m))
  {
    if WellFormed(m) {
      ParseStringify(m, "");
    }
  }

  /** Round trip of any version-2.0 object: parsing its text gives it back as JSON keeps it. */
  lemma MessageRoundTrip(m: Value)
    requires m.Obj? && WellFormed(m) && Get(m, "jsonrpc") == Str("2.0")
    ensures ParseMessage(SerializeMessage(m)) == Some(Strip(m))
  {
    assert Strip(m) == Obj(StripProps(m.props));
    StripKeepsString(m.props, "jsonrpc");
  }

  /** A property holding a string keeps its first place among the surviving ones. */
  lemma {:induction false} StripKeepsString(props: seq<Prop>, key: string)
    requires Lookup(props, key).Str?
    ensures Lookup(StripProps(props), key) == Lookup(props, key)
  {
    if props != [] && props[0].key != key {
      assert Lookup(props, key) == Lookup(props[1..], key);
      StripKeepsString(props[1..], key);
      if props[0].val != Undefined {
        assert StripProps(props)[1..] == StripProps(props[1..]);
      }
    }
  }

  /** A response with a result JSON can carry in full parses back exactly. */
  lemma ResponseRoundTrip(id: Value, result: Value)
    requires IsId(id) && Defined(result) && WellFormed(result)
    ensures ParseMessage(SerializeMessage(Response(id, result))) == Some(Response(id, result))
  {
    var m := Response(id, result);
    Object3(Prop("jsonrpc", Str("2.0")), Prop("id", id), Prop("result", result));
    MessageRoundTrip(m);
    StripDefined(m);
  }

  /** A response whose result is `undefined` parses back without a result member. */
  lemma UndefinedResultDropped(id: Value)
    requires IsId(id)
    ensures ParseMessage(SerializeMessage(Response(id, Undefined)))
            == Some(Obj([Prop("jsonrpc", Str("2.0")), Prop("id", id)]))
  {
    var m := Response(id, Undefined);
    var ps := m.props;
    Object3(Prop("jsonrpc", Str("2.0")), Prop("id", id), Prop("result", Undefined));
    MessageRoundTrip(m);
    assert ps[1..] == [ps[1], ps[2]] && ps[1..][1..] == [ps[2]] && ps[1..][1..][1..] == [];
    assert StripProps([ps[2]]) == [];
    assert StripProps(ps[1..]) == [Prop("id", Strip(id))] + StripProps([ps[2]]);
    assert Strip(id) == id;
    assert StripProps(ps) == [Prop("jsonrpc", Str("2.0"))] + [Prop("id", id)];
    assert [Prop("jsonrpc", Str("2.0"))] + [Prop("id", id)] == [Prop("jsonrpc", Str("2.0")), Prop("id", id)];
    assert Strip(m) == Obj(StripProps(ps));
  }

  /** An error response parses back exactly. */
  lemma ErrorResponseRoundTrip(id: Value, code: int, message: string)
    requires IsId(id)
    ensures ParseMessage(SerializeMessage(ErrorResponse(id, code, message))) == Some(ErrorResponse(id, code, message))
  {
    var m := ErrorResponse(id, code, message);
    Object2(Prop("code", Num(code)), Prop("message", Str(message)));
    Object3(Prop("jsonrpc", Str("2.0")), Prop("id", id), Prop("error", Obj([Prop("code", Num(code)), Prop("message", Str(message))])));
    MessageRoundTrip(m);
    StripDefined(m);
  }

  /** A request whose params JSON can carry in full parses back exactly. */
  lemma RequestRoundTrip(id: Value, name: string, params: Value)
    requires IsId(id) && Defined(params) && WellFormed(params)
    ensures ParseMessage(SerializeMessage(Request(id, name, params))) == Some(Request(id, name, params))
  {
    var m := Request(id, name, params);
    RequestWellFormed(id, name, params);
    MessageRoundTrip(m);
    StripDefined(m);
  }

  lemma RequestWellFormed(id: Value, name: string, params: Value)
    requires IsId(id) && Defined(params) && WellFormed(params)
    ensures WellFormed(Request(id, name, params)) && Defined(Request(id, name, params))
  {
    Object4(Prop("jsonrpc", Str("2.0")), Prop("id", id), Prop("method", Str(name)), Prop("params", params));
  }

  /** The builder object; its only state is the last request id handed out. */
  class JsonRpcHandler {
    var requestId: nat

    constructor()
      ensures requestId == 0
    {
      requestId := 0;
    }

    /** `createRequest`: the next id (1, 2, 3, …), with method and params carried unchanged. */
    method CreateRequest(name: string, params: Value) returns (r: Value)
      modifies this
      ensures requestId == old(requestId) + 1
      ensures r == Request(Num(requestId), name, params)
      ensures Get(r, "id") == Num(requestId)
    {
      requestId := requestId + 1;
      r := Request(Num(requestId), name, params);
    }
  }
}
