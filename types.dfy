/**
 * The shapes exchanged between host and worker, and the protocol constants.
 * TypeScript interfaces are structural, so each becomes a predicate on the
 * dynamic value that carries it; an optional member may be absent, which
 * reads as `undefined`.
 */
module Types {
  import opened Wrappers
  import opened JsValue

  /** `SandboxConfig`: optional timeout in milliseconds, memory limit in MB and Deno permission flags. */
  datatype SandboxConfig = SandboxConfig(timeout: Option<int>, memoryLimit: Option<int>, permissions: Option<seq<string>>)

  /** The error codes of the JSON-RPC 2.0 Specification, section 5.1. */
  datatype ErrorCode = ParseError | InvalidRequest | MethodNotFound | InvalidParams | InternalError

  /** The numeric value of a code; all lie in the range the specification reserves for predefined errors. */
  function Code(c: ErrorCode): (n: int)
    ensures -32768 <= n <= -32000
  {
    match c
    case ParseError => -32700
    case InvalidRequest => -32600
    case MethodNotFound => -32601
    case InvalidParams => -32602
    case InternalError => -32603
  }

  /** The code a number stands for, if any. */
  function CodeOf(n: int): (r: Option<ErrorCode>)
    ensures r.Some? ==> Code(r.value) == n
  {
    if n == -32700 then Some(ParseError)
    else if n == -32600 then Some(InvalidRequest)
    else if n == -32601 then Some(MethodNotFound)
    else if n == -32602 then Some(InvalidParams)
    else if n == -32603 then Some(InternalError)
    else None
  }

  /** Every code is recovered from its number, so no two codes share a number. */
  lemma CodesDistinct(c: ErrorCode, d: ErrorCode)
    ensures CodeOf(Code(c)) == Some(c)
    ensures Code(c) == Code(d) ==> c == d
  {
  }

  /** The two methods of the link. */
  datatype Method = CallHandler | ExecuteCode

  function MethodName(m: Method): string {
    match m
    case CallHandler => "callHandler"
    case ExecuteCode => "executeCode"
  }

  function MethodOf(name: string): (r: Option<Method>)
    ensures r.Some? ==> MethodName(r.value) == name
  {
    if name == "callHandler" then Some(CallHandler)
    else if name == "executeCode" then Some(ExecuteCode)
    else None
  }

  /** The two method names differ, and each names its method. */
  lemma MethodNamesDistinct(m: Method)
    ensures MethodOf(MethodName(m)) == Some(m)
    ensures MethodName(CallHandler) != MethodName(ExecuteCode)
  {
  }

  /** An id is a string or a number. */
  predicate IsId(v: Value) {
    v.Str? || v.Num?
  }

  /** `JsonRpcRequest`: version "2.0", an id, a method name and optional params. */
  predicate IsRequest(v: Value) {
    v.Obj? && Get(v, "jsonrpc") == Str("2.0") && IsId(Get(v, "id")) && Get(v, "method").Str?
  }

  /** `JsonRpcError`: a numeric code, a string message and optional data. */
  predicate IsErrorObject(v: Value) {
    v.Obj? && Get(v, "code").Num? && Get(v, "message").Str?
  }

  /** `JsonRpcResponse`: version "2.0", an id, an optional result and an optional error object. */
  predicate IsResponse(v: Value) {
    v.Obj? && Get(v, "jsonrpc") == Str("2.0") && IsId(Get(v, "id")) &&
    (Get(v, "error") == Undefined || IsErrorObject(Get(v, "error")))
  }

  /** `ExecutionResult`: the log lines, an optional result and an optional error message. */
  predicate IsExecutionResult(v: Value) {
    v.Obj? && Get(v, "logs").Arr? &&
    (forall i :: 0 <= i < |Get(v, "logs").items| ==> Get(v, "logs").items[i].Str?) &&
    (Get(v, "error") == Undefined || Get(v, "error").Str?)
  }
}
