/** The dispatcher: the method registry, the per-request pipeline (basic validation, method
    lookup, parameter check, handler call, response envelope) and `post`, which classifies the
    parsed input as a single request, a batch or garbage and delivers one response (exactly one
    for a sink that does not throw). */
module RpcDispatch {
  import opened Wrappers
  import opened JsonValues
  import opened JsonErrorCodes
  import opened RpcMethod

  /** The registry: method name to descriptor. */
  type Registry<!C> = map<string, AsyncJsonRPCMethod<C>>

  /** PutResultInResponseContext: the success envelope {jsonrpc: "2.0", id, result}. */
  function PutResultInResponseContext(result: Json, requestId: Json): (j: Json)
    ensures j.Obj? && j.fields.Keys == {"jsonrpc", "id", "result"}
    ensures j.fields["jsonrpc"] == Str("2.0") && j.fields["id"] == requestId && j.fields["result"] == result
  {
    Obj(map["jsonrpc" := Str("2.0"), "id" := requestId, "result" := result])
  }

  /** A response as a client reads it. */
  datatype Reply = Success(id: Json, result: Json) | Failure(error: JsonErrorCode)

  /** Reads a response envelope back; None when the value is neither envelope. */
  function ReadResponse(j: Json): Option<Reply>
  {
    if j.Obj? && j.fields.Keys == {"jsonrpc", "id", "result"} && j.fields["jsonrpc"] == Str("2.0")
    then Some(Success(j.fields["id"], j.fields["result"]))
    else match ReadErrorResponse(j)
      case Some(e) => Some(Failure(e))
      case None => None
  }

  lemma SuccessRoundTrip(result: Json, requestId: Json)
    ensures ReadResponse(PutResultInResponseContext(result, requestId)) == Some(Success(requestId, result))
  {
  }

  /** An error envelope never reads as a success, and reads back as its error. */
  lemma {:induction false} FailureRoundTrip(e: JsonErrorCode)
    ensures ReadResponse(ToJsonRpcResponse(e)) == Some(Failure(e))
  {
    assert "error" in ToJsonRpcResponse(e).fields.Keys;
    assert ToJsonRpcResponse(e).fields.Keys != {"jsonrpc", "id", "result"};
    ErrorResponseRoundTrip(e);
  }

  /** The error envelope that the catch blocks of getResponseForSingleRpcCall build:
      the error with its id replaced by the request's `id` member (null when absent). */
  function ErrorForRequest(e: JsonErrorCode, root: map<string, Json>): Json
  {
    ToJsonRpcResponse(SetRequestId(e, Get(root, "id")))
  }

  predicate IsIntegerId(v: Json)
  {
    TypeOf(v) == IntValue || TypeOf(v) == UIntValue
  }

  /** The request passes every check of basicRpcCallValidation. */
  predicate WellFormedRequest(root: map<string, Json>)
  {
    "method" in root && "id" in root && IsIntegerId(root["id"]) && Get(root, "jsonrpc") == Str("2.0")
  }

  /** basicRpcCallValidation; Some(e) is the JsonErrorCode it throws. The `method` member is
      only checked for presence. A request without an id (a notification, in the standard's
      terms) is rejected. */
  function BasicRpcCallValidation(root: map<string, Json>): (failure: Option<JsonErrorCode>)
    ensures failure.None? <==> WellFormedRequest(root)
    ensures failure.Some? ==> failure.value.code == -32600 && failure.value.message == "Invalid Request"
    ensures failure.Some? && !("method" in root && "id" in root && IsIntegerId(root["id"])) ==>
              failure.value.requestId == Null
    ensures failure.Some? && "method" in root && "id" in root && IsIntegerId(root["id"]) ==>
              failure.value.requestId == root["id"]
  {
    if "method" !in root then Some(MakeInvalidRequest())
    else if "id" !in root then Some(MakeInvalidRequest())
    else if TypeOf(root["id"]) != IntValue && TypeOf(root["id"]) != UIntValue then Some(MakeInvalidRequest())
    else if "jsonrpc" !in root then Some(MakeInvalidRequest(root["id"]))
    else if root["jsonrpc"] != Str("2.0") then Some(MakeInvalidRequest(root["id"]))
    else None
  }

  /** How getResultForSingleRpcCall ends: a JsonErrorCode or other exception raised before the
      handler runs, or the handler called with a params value and what it did. */
  datatype CallTrace =
    | Rejected(error: JsonErrorCode)
    | Invoked(params: Json, outcome: HandlerOutcome)

  /** getResultForSingleRpcCall. The method name is the `method` member coerced by asString();
      asString() throws a std::exception on an array or object, which the caller turns into
      InternalError (so it is recorded here as that error). A method that takes no parameters
      gets null, whatever `params` holds. */
  function GetResultForSingleRpcCall<C>(methods: Registry<C>, root: map<string, Json>, context: C): (r: CallTrace)
    ensures r.Rejected? ==> || r.error == MakeInternalError()
                            || r.error == MakeMethodNotFound(Get(root, "id"))
                            || r.error == MakeInvalidParams(Get(root, "id"))
    ensures (r.Rejected? && r.error == MakeInternalError()) <==> AsString(Get(root, "method")).None?
    ensures (r.Rejected? && r.error.code == -32601) <==>
            AsString(Get(root, "method")).Some? && AsString(Get(root, "method")).value !in methods
  {
    match AsString(Get(root, "method"))
    case None => Rejected(MakeInternalError())
    case Some(methodName) =>
      if methodName !in methods then Rejected(MakeMethodNotFound(Get(root, "id")))
      else
        var methodObj := methods[methodName];
        if "params" !in root && ParameterCount(methodObj) > 0 then
          Rejected(MakeInvalidParams(Get(root, "id")))
        else if ParameterCount(methodObj) > 0 then
          var paramsObj := root["params"];
          if !ParamsConform(methodObj, paramsObj) then Rejected(MakeInvalidParams(Get(root, "id")))
          else Invoked(paramsObj, Invoke(methodObj, paramsObj, context))
        else
          Invoked(Null, Invoke(methodObj, Null, context))
  }

  /** getResponseForSingleRpcCall: validation and the call, with every JsonErrorCode given the
      request's `id` member and any other exception turned into InternalError with that id.
      `requestId` is used only in the success envelope. */
  function GetResponseForSingleRpcCall<C>(methods: Registry<C>, root: map<string, Json>,
                                          requestId: Json, context: C): (r: Json)
    ensures r.Obj? && "jsonrpc" in r.fields && r.fields["jsonrpc"] == Str("2.0") && "id" in r.fields
    ensures "result" in r.fields <==> "error" !in r.fields
    ensures "result" in r.fields ==> r.fields["id"] == requestId
    ensures "error" in r.fields ==> r.fields["id"] == Get(root, "id")
  {
    match BasicRpcCallValidation(root)
    case Some(e) => ErrorForRequest(e, root)
    case None =>
      match GetResultForSingleRpcCall(methods, root, context)
      case Rejected(e) => ErrorForRequest(e, root)
      case Invoked(_, Ok(result)) => PutResultInResponseContext(result, requestId)
      case Invoked(_, RpcErr(e)) => ErrorForRequest(e, root)
      case Invoked(_, Fault) => ErrorForRequest(MakeInternalError(), root)
  }

  /** The conditions under which a request reaches its handler, stated from the request and
      the registry alone: well formed, a `method` that names a registered method, and either
      no declared parameters or `params` present and conforming. */
  predicate ReachesHandler<C>(methods: Registry<C>, root: map<string, Json>)
  {
    && WellFormedRequest(root)
    && AsString(root["method"]).Some?
    && AsString(root["method"]).value in methods
    && var m := methods[AsString(root["method"]).value];
       ParameterCount(m) == 0 || ("params" in root && ParamsConform(m, root["params"]))
  }

  /** The handler runs exactly for the requests that ReachesHandler describes, and it receives
      `params` unchanged, or null when the method declares no parameters. */
  lemma HandlerReachedExactly<C>(methods: Registry<C>, root: map<string, Json>, context: C)
    ensures (BasicRpcCallValidation(root).None? && GetResultForSingleRpcCall(methods, root, context).Invoked?)
            <==> ReachesHandler(methods, root)
    ensures ReachesHandler(methods, root) ==>
      var m := methods[AsString(root["method"]).value];
      var p := if ParameterCount(m) == 0 then Null else root["params"];
      GetResultForSingleRpcCall(methods, root, context) == Invoked(p, m.handler(p, context))
  {
  }

  /** A request that fails basic validation is answered with InvalidRequest and the raw `id`
      member (null when absent), without reaching a handler. */
  lemma InvalidRequestResponse<C>(methods: Registry<C>, root: map<string, Json>, requestId: Json, context: C)
    requires !WellFormedRequest(root)
    ensures !ReachesHandler(methods, root)
    ensures GetResponseForSingleRpcCall(methods, root, requestId, context)
            == ToJsonRpcResponse(MakeInvalidRequest(Get(root, "id")))
  {
  }

  /** A well-formed request naming no registered method is answered with MethodNotFound and its id. */
  lemma MethodNotFoundResponse<C>(methods: Registry<C>, root: map<string, Json>, requestId: Json, context: C)
    requires WellFormedRequest(root)
    requires AsString(root["method"]).Some? && AsString(root["method"]).value !in methods
    ensures GetResponseForSingleRpcCall(methods, root, requestId, context)
            == ToJsonRpcResponse(MakeMethodNotFound(root["id"]))
  {
  }

  /** A well-formed request whose `method` is an array or an object makes asString() throw,
      which is answered with InternalError and the request's id. */
  lemma UncoercibleMethodResponse<C>(methods: Registry<C>, root: map<string, Json>, requestId: Json, context: C)
    requires WellFormedRequest(root)
    requires root["method"].Arr? || root["method"].Obj?
    ensures GetResponseForSingleRpcCall(methods, root, requestId, context)
            == ToJsonRpcResponse(MakeInternalError(root["id"]))
  {
  }

  /** A registered method that declares parameters rejects a request without `params`, or with
      `params` that do not conform, with InvalidParams and the request's id. */
  lemma InvalidParamsResponse<C>(methods: Registry<C>, root: map<string, Json>, requestId: Json, context: C)
    requires WellFormedRequest(root)
    requires AsString(root["method"]).Some? && AsString(root["method"]).value in methods
    requires ParameterCount(methods[AsString(root["method"]).value]) > 0
    requires "params" !in root || !ParamsConform(methods[AsString(root["method"]).value], root["params"])
    ensures GetResponseForSingleRpcCall(methods, root, requestId, context)
            == ToJsonRpcResponse(MakeInvalidParams(root["id"]))
  {
  }

  /** Once the handler runs: a result becomes the success envelope with `requestId`; a thrown
      JsonErrorCode keeps its code and message and gets the request's id; any other exception
      becomes InternalError with the request's id. */
  lemma HandlerOutcomeResponse<C>(methods: Registry<C>, root: map<string, Json>, requestId: Json, context: C)
    requires ReachesHandler(methods, root)
    ensures var m := methods[AsString(root["method"]).value];
      var p := if ParameterCount(m) == 0 then Null else root["params"];
      var r := GetResponseForSingleRpcCall(methods, root, requestId, context);
      match m.handler(p, context)
      case Ok(result) => ReadResponse(r) == Some(Success(requestId, result))
      case RpcErr(e) => ReadResponse(r) == Some(Failure(JsonErrorCode(e.code, e.message, root["id"])))
      case Fault => ReadResponse(r) == Some(Failure(MakeInternalError(root["id"])))
  {
    var m := methods[AsString(root["method"]).value];
    var p := if ParameterCount(m) == 0 then Null else root["params"];
    HandlerReachedExactly(methods, root, context);
    match m.handler(p, context)
    case Ok(result) => SuccessRoundTrip(result, requestId);
    case RpcErr(e) => FailureRoundTrip(SetRequestId(e, root["id"]));
    case Fault => FailureRoundTrip(MakeInternalError(root["id"]));
  }

  /** Every single-request response is a well-formed success or error envelope. */
  lemma {:induction false} SingleResponseIsEnvelope<C>(methods: Registry<C>, root: map<string, Json>,
                                                      requestId: Json, context: C)
    ensures ReadResponse(GetResponseForSingleRpcCall(methods, root, requestId, context)).Some?
  {
    match BasicRpcCallValidation(root)
    case Some(e) => FailureRoundTrip(SetRequestId(e, Get(root, "id")));
    case None =>
      match GetResultForSingleRpcCall(methods, root, context)
      case Rejected(e) => FailureRoundTrip(SetRequestId(e, Get(root, "id")));
      case Invoked(_, Ok(result)) => SuccessRoundTrip(result, requestId);
      case Invoked(_, RpcErr(e)) => FailureRoundTrip(SetRequestId(e, Get(root, "id")));
      case Invoked(_, Fault) => FailureRoundTrip(SetRequestId(MakeInternalError(), Get(root, "id")));
  }

  predicate AllObjects(batch: seq<Json>)
  {
    forall i :: 0 <= i < |batch| ==> batch[i].Obj?
  }

  /** The response to one batch element: its id is the element's `id` member, null when absent. */
  function ElementResponse<C>(methods: Registry<C>, element: map<string, Json>, context: C): Json
  {
    GetResponseForSingleRpcCall(methods, element, Get(element, "id"), context)
  }

  /** The batch responses, appended in input order. */
  function BatchResponses<C>(methods: Registry<C>, batch: seq<Json>, context: C): (r: seq<Json>)
    requires AllObjects(batch)
    ensures |r| == |batch|
    decreases |batch|
  {
    if batch == [] then []
    else BatchResponses(methods, batch[..|batch| - 1], context)
         + [ElementResponse(methods, batch[|batch| - 1].fields, context)]
  }

  /** Answering one more element appends its response. */
  lemma BatchResponsesSnoc<C>(methods: Registry<C>, batch: seq<Json>, context: C, n: nat)
    requires AllObjects(batch) && n < |batch|
    ensures AllObjects(batch[..n]) && AllObjects(batch[..n + 1])
    ensures BatchResponses(methods, batch[..n + 1], context)
            == BatchResponses(methods, batch[..n], context) + [ElementResponse(methods, batch[n].fields, context)]
  {
    assert batch[..n + 1][..n] == batch[..n];
  }

  /** Element k of the batch response is the response to element k of the batch alone. */
  lemma {:induction false} BatchResponsesAt<C>(methods: Registry<C>, batch: seq<Json>, context: C, k: nat)
    requires AllObjects(batch) && k < |batch|
    ensures BatchResponses(methods, batch, context)[k] == ElementResponse(methods, batch[k].fields, context)
    decreases |batch|
  {
    if k < |batch| - 1 {
      var prefix := batch[..|batch| - 1];
      assert prefix[k] == batch[k];
      BatchResponsesAt(methods, prefix, context, k);
    }
  }

  /** The context batch element k receives as written: the batch loop of `post` passes its own
      by-value context with `std::forward` to the by-value parameter of
      getResponseForSingleRpcCall, which moves from it, so element k gets a context that has been
      moved from k times. `moved` gives the moved-from state of a value (the identity for a type
      whose move is a copy). */
  function MovedContext<C>(moved: C -> C, context: C, k: nat): C
  {
    if k == 0 then context else moved(MovedContext(moved, context, k - 1))
  }

  /** The batch responses as the loop at AsyncJsonRPC.h:219-228 is written: element k is
      answered with the context moved from k times. */
  function BatchResponsesAsWritten<C>(methods: Registry<C>, batch: seq<Json>, context: C, moved: C -> C): (r: seq<Json>)
    requires AllObjects(batch)
    ensures |r| == |batch|
    decreases |batch|
  {
    if batch == [] then []
    else BatchResponsesAsWritten(methods, batch[..|batch| - 1], context, moved)
         + [ElementResponse(methods, batch[|batch| - 1].fields, MovedContext(moved, context, |batch| - 1))]
  }

  /** As written, element k of the batch response is the response to element k with the context
      moved from k times. */
  lemma {:induction false} BatchResponsesAsWrittenAt<C>(methods: Registry<C>, batch: seq<Json>, context: C,
                                                        moved: C -> C, k: nat)
    requires AllObjects(batch) && k < |batch|
    ensures BatchResponsesAsWritten(methods, batch, context, moved)[k]
            == ElementResponse(methods, batch[k].fields, MovedContext(moved, context, k))
    decreases |batch|
  {
    var prefix := batch[..|batch| - 1];
    var last := ElementResponse(methods, batch[|batch| - 1].fields, MovedContext(moved, context, |batch| - 1));
    assert BatchResponsesAsWritten(methods, batch, context, moved)
           == BatchResponsesAsWritten(methods, prefix, context, moved) + [last];
    if k < |batch| - 1 {
      assert prefix[k] == batch[k];
      BatchResponsesAsWrittenAt(methods, prefix, context, moved, k);
    }
  }

  /** A context whose move leaves it unchanged is seen by every element. */
  lemma {:induction false} CopiedContextUnchanged<C>(moved: C -> C, context: C, k: nat)
    requires forall c :: moved(c) == c
    ensures MovedContext(moved, context, k) == context
  {
    if k > 0 {
      CopiedContextUnchanged(moved, context, k - 1);
    }
  }

  /** For a context type whose move is a copy, the code as written and the intended batch
      responses coincide. */
  lemma {:induction false} AsWrittenAgreesForCopiedContext<C>(methods: Registry<C>, batch: seq<Json>,
                                                               context: C, moved: C -> C)
    requires AllObjects(batch)
    requires forall c :: moved(c) == c
    ensures BatchResponsesAsWritten(methods, batch, context, moved) == BatchResponses(methods, batch, context)
  {
    forall k | 0 <= k < |batch|
      ensures BatchResponsesAsWritten(methods, batch, context, moved)[k] == BatchResponses(methods, batch, context)[k]
    {
      CopiedContextUnchanged(moved, context, k);
      BatchResponsesAt(methods, batch, context, k);
      BatchResponsesAsWrittenAt(methods, batch, context, moved, k);
    }
  }

  /** A string context whose moved-from state is "" (as for std::string in common standard
      libraries), a handler that answers with its context, and a batch of the same call twice:
      as written, the second response carries "" while the intended one carries the context. */
  lemma MovedContextReachesLaterElements(context: string)
    requires context != ""
    ensures var methods := map["m" := NewByName((p: Json, c: string) => Ok(Str(c)), "m")];
      var req := map["jsonrpc" := Str("2.0"), "method" := Str("m"), "id" := Int(1)];
      var batch := [Obj(req), Obj(req)];
      && AllObjects(batch)
      && ReadResponse(BatchResponsesAsWritten(methods, batch, context, c => "")[0])
         == Some(Success(Int(1), Str(context)))
      && ReadResponse(BatchResponsesAsWritten(methods, batch, context, c => "")[1])
         == Some(Success(Int(1), Str("")))
      && ReadResponse(BatchResponses(methods, batch, context)[1]) == Some(Success(Int(1), Str(context)))
  {
    var methods := map["m" := NewByName((p: Json, c: string) => Ok(Str(c)), "m")];
    var req := map["jsonrpc" := Str("2.0"), "method" := Str("m"), "id" := Int(1)];
    var batch := [Obj(req), Obj(req)];
    assert AllObjects(batch);
    assert WellFormedRequest(req) && AsString(req["method"]) == Some("m");
    assert ReachesHandler(methods, req);
    assert MovedContext(c => "", context, 1) == "";
    HandlerOutcomeResponse(methods, req, Int(1), context);
    HandlerOutcomeResponse(methods, req, Int(1), "");
    BatchResponsesAt(methods, batch, context, 1);
    BatchResponsesAsWrittenAt(methods, batch, context, c => "", 0);
    BatchResponsesAsWrittenAt(methods, batch, context, c => "", 1);
  }

  /** The whole `post` decision: the single value that reaches the response sink. */
  function PostResponse<C>(methods: Registry<C>, input: Option<Json>, context: C): (r: Json)
    ensures r.Arr? <==> input.Some? && input.value.Arr? && AllObjects(input.value.elems)
    ensures r.Arr? ==> |r.elems| == |input.value.elems|
    ensures !r.Arr? ==> r.Obj? && "jsonrpc" in r.fields && r.fields["jsonrpc"] == Str("2.0")
  {
    match input
    case None => ToJsonRpcResponse(MakeParseError())
    case Some(root) =>
      if root.Arr? then
        if AllObjects(root.elems) then Arr(BatchResponses(methods, root.elems, context))
        else ToJsonRpcResponse(MakeParseError())
      else if root.Obj? then
        match BasicRpcCallValidation(root.fields)
        case Some(e) => ToJsonRpcResponse(e)
        case None => GetResponseForSingleRpcCall(methods, root.fields, root.fields["id"], context)
      else ToJsonRpcResponse(MakeParseError())
  }

  /** Unparsable text, a scalar at the top level, or a batch holding a non-object answers with
      one ParseError whose id is null, and no handler runs. */
  lemma PostParseError<C>(methods: Registry<C>, input: Option<Json>, context: C)
    requires || input.None?
             || (!input.value.Arr? && !input.value.Obj?)
             || (input.value.Arr? && exists i :: 0 <= i < |input.value.elems| && !input.value.elems[i].Obj?)
    ensures ReadResponse(PostResponse(methods, input, context))
            == Some(Failure(JsonErrorCode(-32700, "Parse error", Null)))
  {
    FailureRoundTrip(MakeParseError());
  }

  /** A batch of objects is answered by an array of the same length whose element k is the
      response to element k alone; `[]` is answered by `[]`. */
  lemma {:induction false} PostBatch<C>(methods: Registry<C>, batch: seq<Json>, context: C)
    requires AllObjects(batch)
    ensures var r := PostResponse(methods, Some(Arr(batch)), context);
      && r.Arr? && |r.elems| == |batch|
      && forall k :: 0 <= k < |batch| ==> r.elems[k] == ElementResponse(methods, batch[k].fields, context)
    ensures batch == [] ==> PostResponse(methods, Some(Arr(batch)), context) == Arr([])
  {
    forall k | 0 <= k < |batch|
      ensures BatchResponses(methods, batch, context)[k] == ElementResponse(methods, batch[k].fields, context)
    {
      BatchResponsesAt(methods, batch, context, k);
    }
  }

  /** Batch isolation: the response at position k depends on element k only, whatever the
      other elements are and however they fail. */
  lemma {:induction false} BatchIsolation<C>(methods: Registry<C>, a: seq<Json>, b: seq<Json>, context: C, k: nat)
    requires AllObjects(a) && AllObjects(b)
    requires k < |a| && k < |b| && a[k] == b[k]
    ensures PostResponse(methods, Some(Arr(a)), context).elems[k] == PostResponse(methods, Some(Arr(b)), context).elems[k]
  {
    PostBatch(methods, a, context);
    PostBatch(methods, b, context);
  }

  /** A single object: a validation failure is answered with the error basicRpcCallValidation
      built (its id is null unless only the `jsonrpc` tag was wrong), otherwise with the
      single-request response whose success id is the request's id. */
  lemma PostSingle<C>(methods: Registry<C>, root: map<string, Json>, context: C)
    ensures !WellFormedRequest(root) ==>
      PostResponse(methods, Some(Obj(root)), context) ==
        ToJsonRpcResponse(MakeInvalidRequest(
          if "method" in root && "id" in root && IsIntegerId(root["id"]) then root["id"] else Null))
    ensures WellFormedRequest(root) ==>
      PostResponse(methods, Some(Obj(root)), context) == ElementResponse(methods, root, context)
  {
  }

  /** A request without an id is never treated as a notification: on both paths it is
      answered with InvalidRequest and a null id. */
  lemma {:induction false} NotificationRejected<C>(methods: Registry<C>, root: map<string, Json>, context: C)
    requires "id" !in root
    ensures PostResponse(methods, Some(Obj(root)), context) == ToJsonRpcResponse(MakeInvalidRequest())
    ensures PostResponse(methods, Some(Arr([Obj(root)])), context) == Arr([ToJsonRpcResponse(MakeInvalidRequest())])
  {
    PostBatch(methods, [Obj(root)], context);
  }

  /** The two paths give different ids to the same invalid request: a string id is dropped on
      the single path and echoed on the batch path. */
  lemma SingleAndBatchIdsDiffer<C>(methods: Registry<C>, context: C)
    ensures var req := map["jsonrpc" := Str("2.0"), "method" := Str("m"), "id" := Str("abc")];
      && PostResponse(methods, Some(Obj(req)), context) == ToJsonRpcResponse(MakeInvalidRequest(Null))
      && PostResponse(methods, Some(Arr([Obj(req)])), context) == Arr([ToJsonRpcResponse(MakeInvalidRequest(Str("abc")))])
  {
    var req := map["jsonrpc" := Str("2.0"), "method" := Str("m"), "id" := Str("abc")];
    assert !WellFormedRequest(req);
    assert BasicRpcCallValidation(req) == Some(MakeInvalidRequest());
    assert ElementResponse(methods, req, context) == ToJsonRpcResponse(MakeInvalidRequest(Str("abc")));
    PostBatch(methods, [Obj(req)], context);
  }

  /** The parameter signature of the library's batch-test method: {p1: int, p2: string}. */
  const TestSignature: map<string, ValueType> := map["p1" := IntValue, "p2" := StringValue]

  /** The registry of the library's batch tests: one method, "testmethod1", declaring
      TestSignature, whose handler returns `result`. */
  function TestRegistry<C>(result: Json): Registry<C>
  {
    map["testmethod1" := NewByName((p: Json, c: C) => Ok(result), "testmethod1", TestSignature)]
  }

  /** A well-formed call of "testmethod1". */
  function TestCall(params: Json, id: int): Json
  {
    Obj(map["jsonrpc" := Str("2.0"), "method" := Str("testmethod1"), "params" := params, "id" := Int(id)])
  }

  /** The registered test method: named parameters, two of them, and a handler that returns `result`. */
  lemma TestMethodShape<C>(result: Json, params: Json, context: C)
    ensures "testmethod1" in TestRegistry<C>(result)
    ensures var m := TestRegistry<C>(result)["testmethod1"];
      && m.paramsDecl == ParamsByName && m.methodParameters_byName == TestSignature
      && ParameterCount(m) == 2 && m.handler(params, context) == Ok(result)
  {
    assert TestSignature.Keys == {"p1", "p2"};
  }

  /** Every test call passes the basic validation and carries its params and its integer id. */
  lemma TestCallShape(params: Json, id: int)
    ensures var req := TestCall(params, id).fields;
      && WellFormedRequest(req) && AsString(req["method"]) == Some("testmethod1")
      && "params" in req && req["params"] == params && req["id"] == Int(id) && Get(req, "id") == Int(id)
  {
  }

  /** Against TestSignature, an int p1 with a string p2 conforms, and a real p2 does not. */
  lemma TestParamsConform<C>(m: AsyncJsonRPCMethod<C>, a: int, text: string)
    requires m.paramsDecl == ParamsByName && m.methodParameters_byName == TestSignature
    ensures ParamsConform(m, Obj(map["p1" := Int(a), "p2" := Str(text)]))
    ensures !ParamsConform(m, Obj(map["p1" := Int(a), "p2" := Real(text)]))
  {
    var good := map["p1" := Int(a), "p2" := Str(text)];
    var bad := map["p1" := Int(a), "p2" := Real(text)];
    assert TestSignature.Keys == {"p1", "p2"} == good.Keys == bad.Keys;
    assert !NamedParamOk(TestSignature, "p2", bad["p2"]);
  }

  /** A call whose p1 is an integer and p2 a string reaches the handler and gets its result. */
  lemma WellTypedTestCall<C>(result: Json, a: int, text: string, id: int, context: C)
    ensures var req := TestCall(Obj(map["p1" := Int(a), "p2" := Str(text)]), id).fields;
      && ReachesHandler(TestRegistry<C>(result), req)
      && ReadResponse(ElementResponse(TestRegistry<C>(result), req, context)) == Some(Success(Int(id), result))
  {
    var methods := TestRegistry<C>(result);
    var params := Obj(map["p1" := Int(a), "p2" := Str(text)]);
    var req := TestCall(params, id).fields;
    TestCallShape(params, id);
    TestMethodShape<C>(result, params, context);
    TestParamsConform(methods["testmethod1"], a, text);
    assert ReachesHandler(methods, req);
    HandlerOutcomeResponse(methods, req, Int(id), context);
  }

  /** A call whose p2 is a real is answered with Invalid params and its id, without reaching the handler. */
  lemma MistypedTestCall<C>(result: Json, a: int, text: string, id: int, context: C)
    ensures var req := TestCall(Obj(map["p1" := Int(a), "p2" := Real(text)]), id).fields;
      && !ReachesHandler(TestRegistry<C>(result), req)
      && ReadResponse(ElementResponse(TestRegistry<C>(result), req, context)) == Some(Failure(MakeInvalidParams(Int(id))))
  {
    var methods := TestRegistry<C>(result);
    var params := Obj(map["p1" := Int(a), "p2" := Real(text)]);
    var req := TestCall(params, id).fields;
    TestCallShape(params, id);
    TestMethodShape<C>(result, params, context);
    TestParamsConform(methods["testmethod1"], a, text);
    InvalidParamsResponse(methods, req, Int(id), context);
    FailureRoundTrip(MakeInvalidParams(Int(id)));
  }

  /** A batch of three objects is answered element by element, in order. */
  lemma {:induction false} BatchOfThree<C>(methods: Registry<C>, c0: Json, c1: Json, c2: Json, context: C)
    requires c0.Obj? && c1.Obj? && c2.Obj?
    ensures AllObjects([c0, c1, c2])
    ensures var r := PostResponse(methods, Some(Arr([c0, c1, c2])), context);
      && r.Arr? && |r.elems| == 3
      && r.elems[0] == ElementResponse(methods, c0.fields, context)
      && r.elems[1] == ElementResponse(methods, c1.fields, context)
      && r.elems[2] == ElementResponse(methods, c2.fields, context)
  {
    var batch := [c0, c1, c2];
    assert AllObjects(batch);
    PostBatch(methods, batch, context);
  }

  /** Which of three objects reach their handler. */
  lemma ReachedFlagsOfThree<C>(methods: Registry<C>, c0: Json, c1: Json, c2: Json)
    requires c0.Obj? && c1.Obj? && c2.Obj?
    ensures AllObjects([c0, c1, c2])
    ensures ReachedFlags(methods, [c0, c1, c2])
            == [ReachesHandler(methods, c0.fields), ReachesHandler(methods, c1.fields),
                ReachesHandler(methods, c2.fields)]
  {
    assert AllObjects([c0, c1, c2]);
  }

  /** The library's batch test with one mistyped parameter, for any values (the test uses
      ids 4, 5, 6 and the parameters 5/"HiThere!!!", 7/"RpcIsCool!!!", 10/2.1): the first two
      calls get the handler's result with their ids, the third gets Invalid params with its
      id, and only the first two reach the handler. */
  lemma {:induction false} BatchWithOneInvalidParameterType<C>(result: Json, context: C,
      a0: int, t0: string, id0: int, a1: int, t1: string, id1: int, a2: int, t2: string, id2: int)
    ensures
      var batch := [TestCall(Obj(map["p1" := Int(a0), "p2" := Str(t0)]), id0),
                    TestCall(Obj(map["p1" := Int(a1), "p2" := Str(t1)]), id1),
                    TestCall(Obj(map["p1" := Int(a2), "p2" := Real(t2)]), id2)];
      var r := PostResponse(TestRegistry<C>(result), Some(Arr(batch)), context);
      && AllObjects(batch)
      && ReachedFlags(TestRegistry<C>(result), batch) == [true, true, false]
      && r.Arr? && |r.elems| == 3
      && ReadResponse(r.elems[0]) == Some(Success(Int(id0), result))
      && ReadResponse(r.elems[1]) == Some(Success(Int(id1), result))
      && ReadResponse(r.elems[2]) == Some(Failure(MakeInvalidParams(Int(id2))))
  {
    WellTypedTestCall<C>(result, a0, t0, id0, context);
    WellTypedTestCall<C>(result, a1, t1, id1, context);
    MistypedTestCall<C>(result, a2, t2, id2, context);
    BatchOfThree(TestRegistry<C>(result),
                 TestCall(Obj(map["p1" := Int(a0), "p2" := Str(t0)]), id0),
                 TestCall(Obj(map["p1" := Int(a1), "p2" := Str(t1)]), id1),
                 TestCall(Obj(map["p1" := Int(a2), "p2" := Real(t2)]), id2), context);
    ReachedFlagsOfThree(TestRegistry<C>(result),
                        TestCall(Obj(map["p1" := Int(a0), "p2" := Str(t0)]), id0),
                        TestCall(Obj(map["p1" := Int(a1), "p2" := Str(t1)]), id1),
                        TestCall(Obj(map["p1" := Int(a2), "p2" := Real(t2)]), id2));
  }

  /** A value the response sink can receive: one envelope, or an array of envelopes. */
  predicate IsResponse(j: Json)
  {
    ReadResponse(j).Some? || (j.Arr? && forall k :: 0 <= k < |j.elems| ==> ReadResponse(j.elems[k]).Some?)
  }

  /** Whatever the input, `post` produces a response the sink can receive. */
  lemma {:induction false} PostAlwaysResponds<C>(methods: Registry<C>, input: Option<Json>, context: C)
    ensures IsResponse(PostResponse(methods, input, context))
  {
    FailureRoundTrip(MakeParseError());
    if input.Some? && input.value.Arr? && AllObjects(input.value.elems) {
      var batch := input.value.elems;
      PostBatch(methods, batch, context);
      forall k | 0 <= k < |batch|
        ensures ReadResponse(PostResponse(methods, input, context).elems[k]).Some?
      {
        SingleResponseIsEnvelope(methods, batch[k].fields, Get(batch[k].fields, "id"), context);
      }
    } else if input.Some? && input.value.Obj? {
      var root := input.value.fields;
      match BasicRpcCallValidation(root)
      case Some(e) => FailureRoundTrip(e);
      case None => SingleResponseIsEnvelope(methods, root, root["id"], context);
    }
  }

  /** Which elements of an all-object batch reach their handler. */
  ghost function ReachedFlags<C>(methods: Registry<C>, batch: seq<Json>): (flags: seq<bool>)
    requires AllObjects(batch)
    ensures |flags| == |batch|
  {
    seq(|batch|, i requires 0 <= i < |batch| && batch[i].Obj? => ReachesHandler(methods, batch[i].fields))
  }

  /** An element's flag records exactly whether its handler runs. */
  lemma ReachedFlagAt<C>(methods: Registry<C>, batch: seq<Json>, i: nat, context: C)
    requires AllObjects(batch) && i < |batch|
    ensures ReachedFlags(methods, batch)[i] ==
      (BasicRpcCallValidation(batch[i].fields).None? &&
       GetResultForSingleRpcCall(methods, batch[i].fields, context).Invoked?)
  {
    HandlerReachedExactly(methods, batch[i].fields, context);
  }

  /** The log `post` keeps of the batch elements whose handler ran: in increasing order, only
      positions below n that reach their handler, and every such position. */
  ghost predicate LogsExactly(reached: seq<bool>, n: nat, log: seq<nat>)
    requires n <= |reached|
  {
    && (forall k :: 0 <= k < |log| ==> log[k] < n && reached[log[k]])
    && (forall i :: 0 <= i < n && reached[i] ==> i in log)
    && (forall a, b :: 0 <= a < b < |log| ==> log[a] < log[b])
  }

  /** Extending the log by one position keeps it exact. */
  lemma LogsExactlyStep(reached: seq<bool>, n: nat, log: seq<nat>)
    requires n < |reached|
    requires LogsExactly(reached, n, log)
    ensures LogsExactly(reached, n + 1, if reached[n] then log + [n] else log)
  {
  }

  /** One element of a batch keeps the invocation log exact: it is appended iff the element
      passed validation and its pipeline reached the handler. */
  lemma LogStep<C>(methods: Registry<C>, batch: seq<Json>, i: nat, context: C, log: seq<nat>)
    requires AllObjects(batch) && i < |batch|
    requires LogsExactly(ReachedFlags(methods, batch), i, log)
    ensures var reached := BasicRpcCallValidation(batch[i].fields).None?
                           && GetResultForSingleRpcCall(methods, batch[i].fields, context).Invoked?;
      LogsExactly(ReachedFlags(methods, batch), i + 1, if reached then log + [i] else log)
  {
    ReachedFlagAt(methods, batch, i, context);
    LogsExactlyStep(ReachedFlags(methods, batch), i, log);
  }

  /** The dispatcher object: its registry of methods and the response sink, modelled as the
      sequence of every value handed to it. The executor behind asyncPost is not modelled. */
  class AsyncJsonRPC<C> {
    var methods: Registry<C>
    var sinkLog: seq<Json>

    constructor ()
      ensures methods == map[] && sinkLog == []
    {
      methods := map[];
      sinkLog := [];
    }

    /** addHandler with parameters declared by name. A name already registered throws and
        changes nothing; otherwise the registry gains exactly that one entry. */
    method AddHandlerByName(handler: (Json, C) -> HandlerOutcome, methodName: string,
                            methodParamsTypes: map<string, ValueType>)
      returns (outcome: Outcome<string>)
      modifies this`methods
      ensures old(methodName in methods) ==>
        outcome == Fail("Method " + methodName + " already registered") && methods == old(methods)
      ensures old(methodName !in methods) ==>
        && outcome == Pass
        && methods == old(methods)[methodName := NewByName(handler, methodName, methodParamsTypes)]
        && |methods| == old(|methods|) + 1
    {
      if methodName in methods {
        return Fail("Method " + methodName + " already registered");
      }
      methods := methods[methodName := NewByName(handler, methodName, methodParamsTypes)];
      return Pass;
    }

    /** addHandler with parameters declared by position (none by default). */
    method AddHandlerByPosition(handler: (Json, C) -> HandlerOutcome, methodName: string,
                                methodParamsTypes: seq<ValueType> := [])
      returns (outcome: Outcome<string>)
      modifies this`methods
      ensures old(methodName in methods) ==>
        outcome == Fail("Method " + methodName + " already registered") && methods == old(methods)
      ensures old(methodName !in methods) ==>
        && outcome == Pass
        && methods == old(methods)[methodName := NewByPosition(handler, methodName, methodParamsTypes)]
        && |methods| == old(|methods|) + 1
    {
      if methodName in methods {
        return Fail("Method " + methodName + " already registered");
      }
      methods := methods[methodName := NewByPosition(handler, methodName, methodParamsTypes)];
      return Pass;
    }

    /** removeHandler: an absent name throws; otherwise exactly that entry goes. */
    method RemoveHandler(methodName: string) returns (outcome: Outcome<string>)
      modifies this`methods
      ensures old(methodName !in methods) ==>
        outcome == Fail("Method " + methodName + " does not exist") && methods == old(methods)
      ensures old(methodName in methods) ==>
        && outcome == Pass
        && methods == old(methods) - {methodName}
        && methodName !in methods
        && |methods| == old(|methods|) - 1
    {
      if methodName !in methods {
        return Fail("Method " + methodName + " does not exist");
      }
      methods := methods - {methodName};
      return Pass;
    }

    method HandlerExists(methodName: string) returns (registered: bool)
      ensures registered <==> methodName in methods
    {
      registered := methodName in methods;
    }

    method HandlerCount() returns (count: nat)
      ensures count == |methods|
    {
      count := |methods|;
    }

    /** The second loop of post: every element of an all-object batch answered in order, each as
        a single request whose success id is its `id` member. The ghost `invoked` records the
        positions whose handler ran. */
    method RespondToBatch(batch: seq<Json>, context: C) returns (arrayResponse: seq<Json>, ghost invoked: seq<nat>)
      requires AllObjects(batch)
      ensures arrayResponse == BatchResponses(methods, batch, context)
      ensures LogsExactly(ReachedFlags(methods, batch), |batch|, invoked)
    {
      arrayResponse, invoked := [], [];
      var i := 0;
      while i < |batch|
        invariant 0 <= i <= |batch|
        invariant arrayResponse == BatchResponses(methods, batch[..i], context)
        invariant LogsExactly(ReachedFlags(methods, batch), i, invoked)
      {
        var element := batch[i].fields;
        var idVal := if "id" in element then element["id"] else Null;
        var response := GetResponseForSingleRpcCall(methods, element, idVal, context);
        var reached := BasicRpcCallValidation(element).None? && GetResultForSingleRpcCall(methods, element, context).Invoked?;
        LogStep(methods, batch, i, context, invoked);
        if reached {
          invoked := invoked + [i];
        }
        BatchResponsesSnoc(methods, batch, context, i);
        arrayResponse := arrayResponse + [response];
        i := i + 1;
      }
      assert batch[..i] == batch;
    }

    /** post: classify the parsed input (None when the text does not parse), build the
        response and hand it to the sink exactly once, on every path. The ghost `invoked`
        records the positions (0 for a single request) whose handler ran. */
    method Post(input: Option<Json>, context: C) returns (ghost invoked: seq<nat>)
      modifies this`sinkLog
      ensures sinkLog == old(sinkLog) + [PostResponse(methods, input, context)]
      ensures input.Some? && input.value.Arr? && AllObjects(input.value.elems) ==>
        LogsExactly(ReachedFlags(methods, input.value.elems), |input.value.elems|, invoked)
      ensures input.Some? && input.value.Arr? && !AllObjects(input.value.elems) ==> invoked == []
      ensures input.Some? && input.value.Obj? ==>
        invoked == if ReachesHandler(methods, input.value.fields) then [0] else []
      ensures input.None? || (!input.value.Arr? && !input.value.Obj?) ==> invoked == []
    {
      invoked := [];
      if input.None? {
        assert PostResponse(methods, input, context) == ToJsonRpcResponse(MakeParseError());
        sinkLog := sinkLog + [ToJsonRpcResponse(MakeParseError())];
        return;
      }
      var root := input.value;
      if root.Arr? {
        var batch := root.elems;
        var i := 0;
        while i < |batch|
          invariant 0 <= i <= |batch|
          invariant forall j :: 0 <= j < i ==> batch[j].Obj?
          invariant sinkLog == old(sinkLog)
        {
          if !batch[i].Obj? {
            assert !AllObjects(batch);
            assert PostResponse(methods, input, context) == ToJsonRpcResponse(MakeParseError());
            sinkLog := sinkLog + [ToJsonRpcResponse(MakeParseError())];
            return;
          }
          i := i + 1;
        }
        assert AllObjects(batch);
        var arrayResponse;
        arrayResponse, invoked := RespondToBatch(batch, context);
        assert Arr(arrayResponse) == PostResponse(methods, input, context);
        sinkLog := sinkLog + [Arr(arrayResponse)];
      } else if root.Obj? {
        var validation := BasicRpcCallValidation(root.fields);
        if validation.Some? {
          assert PostResponse(methods, input, context) == ToJsonRpcResponse(validation.value);
          sinkLog := sinkLog + [ToJsonRpcResponse(validation.value)];
          return;
        }
        var response := GetResponseForSingleRpcCall(methods, root.fields, root.fields["id"], context);
        assert response == PostResponse(methods, input, context);
        HandlerReachedExactly(methods, root.fields, context);
        if GetResultForSingleRpcCall(methods, root.fields, context).Invoked? {
          invoked := [0];
        }
        sinkLog := sinkLog + [response];
      } else {
        assert PostResponse(methods, input, context) == ToJsonRpcResponse(MakeParseError());
        sinkLog := sinkLog + [ToJsonRpcResponse(MakeParseError())];
      }
    }
  }

  /** The registry sequence of the library's basic test: add, add again, query, remove. */
  method BasicRegistryScenario()
  {
    var rpc := new AsyncJsonRPC<()>();
    var h := (p: Json, c: ()) => Ok(Null);
    var found := rpc.HandlerExists("testmethod1");
    var count := rpc.HandlerCount();
    assert !found && count == 0;
    var added := rpc.AddHandlerByName(h, "testmethod1", map["p1" := IntValue, "p2" := StringValue]);
    assert added == Pass;
    added := rpc.AddHandlerByName(h, "testmethod1", map["p1" := IntValue, "p2" := StringValue]);
    assert added.Fail?;
    count := rpc.HandlerCount();
    assert count == 1;
    found := rpc.HandlerExists("test");
    assert !found;
    found := rpc.HandlerExists("testmethod1");
    assert found;
    var removed := rpc.RemoveHandler("testmethod1");
    assert removed == Pass;
    found := rpc.HandlerExists("testmethod1");
    count := rpc.HandlerCount();
    assert !found && count == 0;
  }
}
