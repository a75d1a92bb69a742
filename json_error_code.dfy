/** The JSON-RPC error value: a code, a message and the id of the request it answers,
    its factories for the standard error kinds, and the envelopes it builds.
    The standard codes are those of section 5.1 of the JSON-RPC 2.0 Specification. */
module JsonErrorCodes {
  import opened Wrappers
  import opened JsonValues

  /** A JsonErrorCode object. The datatype's constructor is the C++ constructor (whose
      defaults are 0, "" and null) and its destructors are getCode, getMessage and getRequestId. */
  datatype JsonErrorCode = JsonErrorCode(code: int, message: string, requestId: Json)

  /** The error kinds that section 5.1 of the JSON-RPC 2.0 Specification assigns to a code. */
  datatype ErrorKind =
    | ParseErrorKind
    | InvalidRequestKind
    | MethodNotFoundKind
    | InvalidParamsKind
    | InternalErrorKind
    | ServerErrorKind      // implementation-defined server errors, -32099 .. -32000
    | ReservedKind         // the rest of -32768 .. -32000, reserved for future use
    | ApplicationKind      // any code outside the reserved range

  /** The kind section 5.1 of the JSON-RPC 2.0 Specification gives a code, written
      from the standard's table and independent of the factories below. */
  function ErrorKindOf(code: int): ErrorKind
  {
    if code == -32700 then ParseErrorKind
    else if code == -32600 then InvalidRequestKind
    else if code == -32601 then MethodNotFoundKind
    else if code == -32602 then InvalidParamsKind
    else if code == -32603 then InternalErrorKind
    else if -32099 <= code <= -32000 then ServerErrorKind
    else if -32768 <= code <= -32000 then ReservedKind
    else ApplicationKind
  }

  function MakeParseError(requestId: Json := Null): (e: JsonErrorCode)
    ensures e.code == -32700 && e.message == "Parse error" && e.requestId == requestId
  {
    JsonErrorCode(-32700, "Parse error", requestId)
  }

  function MakeInvalidRequest(requestId: Json := Null): (e: JsonErrorCode)
    ensures e.code == -32600 && e.message == "Invalid Request" && e.requestId == requestId
  {
    JsonErrorCode(-32600, "Invalid Request", requestId)
  }

  function MakeMethodNotFound(requestId: Json := Null): (e: JsonErrorCode)
    ensures e.code == -32601 && e.message == "Method not found" && e.requestId == requestId
  {
    JsonErrorCode(-32601, "Method not found", requestId)
  }

  function MakeInvalidParams(requestId: Json := Null): (e: JsonErrorCode)
    ensures e.code == -32602 && e.message == "Invalid params" && e.requestId == requestId
  {
    JsonErrorCode(-32602, "Invalid params", requestId)
  }

  function MakeInternalError(requestId: Json := Null): (e: JsonErrorCode)
    ensures e.code == -32603 && e.message == "Internal error" && e.requestId == requestId
  {
    JsonErrorCode(-32603, "Internal error", requestId)
  }

  /** The source asserts that the code lies in the server-error range; that is the caller's obligation. */
  function MakeServerError(code: int, requestId: Json := Null): (e: JsonErrorCode)
    requires -32099 <= code <= -32000
    ensures ErrorKindOf(e.code) == ServerErrorKind
    ensures e.code == code && e.message == "Server error" && e.requestId == requestId
  {
    JsonErrorCode(code, "Server error", requestId)
  }

  /** Every factory yields the code that the standard assigns to its kind, so the five
      standard codes are distinct and none of them falls in the server-error range. */
  lemma FactoriesFollowTheStandard(id: Json)
    ensures ErrorKindOf(MakeParseError(id).code) == ParseErrorKind
    ensures ErrorKindOf(MakeInvalidRequest(id).code) == InvalidRequestKind
    ensures ErrorKindOf(MakeMethodNotFound(id).code) == MethodNotFoundKind
    ensures ErrorKindOf(MakeInvalidParams(id).code) == InvalidParamsKind
    ensures ErrorKindOf(MakeInternalError(id).code) == InternalErrorKind
  {
  }

  /** A factory called without an id gives an error whose id is null. */
  lemma FactoriesDefaultToNullId(code: int)
    requires -32099 <= code <= -32000
    ensures MakeParseError().requestId == Null && MakeInvalidRequest().requestId == Null
    ensures MakeMethodNotFound().requestId == Null && MakeInvalidParams().requestId == Null
    ensures MakeInternalError().requestId == Null && MakeServerError(code).requestId == Null
  {
  }

  /** setRequestId: only the id changes. */
  function SetRequestId(e: JsonErrorCode, val: Json): (r: JsonErrorCode)
    ensures r.code == e.code && r.message == e.message && r.requestId == val
  {
    e.(requestId := val)
  }

  /** toJsonValue: the `error` member of a response, {code, message}. */
  function ToJsonValue(e: JsonErrorCode): (j: Json)
    ensures j.Obj? && j.fields.Keys == {"code", "message"}
    ensures j.fields["code"] == Int(e.code) && j.fields["message"] == Str(e.message)
  {
    Obj(map["code" := Int(e.code), "message" := Str(e.message)])
  }

  /** toJsonRpcResponse: the error envelope {id, jsonrpc: "2.0", error: {code, message}}. */
  function ToJsonRpcResponse(e: JsonErrorCode): (j: Json)
    ensures j.Obj? && j.fields.Keys == {"id", "jsonrpc", "error"}
    ensures j.fields["id"] == e.requestId
    ensures j.fields["jsonrpc"] == Str("2.0")
    ensures j.fields["error"] == ToJsonValue(e)
  {
    Obj(map["id" := e.requestId, "jsonrpc" := Str("2.0"),
            "error" := Obj(map["code" := Int(e.code), "message" := Str(e.message)])])
  }

  /** Reads an error envelope back: the partner of ToJsonRpcResponse. */
  function ReadErrorResponse(j: Json): Option<JsonErrorCode>
  {
    if j.Obj? && j.fields.Keys == {"id", "jsonrpc", "error"} && j.fields["jsonrpc"] == Str("2.0")
       && j.fields["error"].Obj? && j.fields["error"].fields.Keys == {"code", "message"}
       && j.fields["error"].fields["code"].Int? && j.fields["error"].fields["message"].Str?
    then Some(JsonErrorCode(j.fields["error"].fields["code"].i,
                            j.fields["error"].fields["message"].s,
                            j.fields["id"]))
    else None
  }

  /** The error envelope carries the whole error: reading it back gives the error again. */
  lemma ErrorResponseRoundTrip(e: JsonErrorCode)
    ensures ReadErrorResponse(ToJsonRpcResponse(e)) == Some(e)
  {
  }

  /** Two different errors never produce the same envelope. */
  lemma {:induction false} ToJsonRpcResponseInjective(a: JsonErrorCode, b: JsonErrorCode)
    requires ToJsonRpcResponse(a) == ToJsonRpcResponse(b)
    ensures a == b
  {
    ErrorResponseRoundTrip(a);
    ErrorResponseRoundTrip(b);
  }

  /** Setting the id changes the envelope's `id` and nothing in its `error` member;
      a second setRequestId overrides the first. */
  lemma SetRequestIdKeepsError(e: JsonErrorCode, a: Json, b: Json)
    ensures ToJsonValue(SetRequestId(e, a)) == ToJsonValue(e)
    ensures ReadErrorResponse(ToJsonRpcResponse(SetRequestId(e, a))) == Some(JsonErrorCode(e.code, e.message, a))
    ensures SetRequestId(SetRequestId(e, a), b) == SetRequestId(e, b)
  {
    ErrorResponseRoundTrip(SetRequestId(e, a));
  }
}
