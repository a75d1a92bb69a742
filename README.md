# AsyncJsonRPC dispatch core in Dafny

This project models the request-dispatch core of AsyncJsonRPC, a C++ server-side library for
JSON-RPC 2.0. Given a parsed request, the library looks up a registered method, checks the
request's shape and its parameters, calls the handler, and builds the response envelope. It
delivers one response to a caller-supplied sink (exactly one when the sink itself does not throw). The model has three parts, one per
header:

- `json_error_code.dfy`, module `JsonErrorCodes` (`JsonErrorCode.h`). This is the error value:
  a code, a message and a request id. It has one factory per standard error kind of section 5.1
  of the JSON-RPC 2.0 Specification, plus `setRequestId` and the two builders for the `error`
  member and the full error envelope. `ReadErrorResponse` reads an envelope back, and the
  round-trip lemmas connect the two directions. `ErrorKindOf` is the standard's table of codes,
  written out independently of the factories.
- `rpc_method.dfy`, module `RpcMethod` (`AsyncJsonRPCMethod.h`). This is a registered method:
  its name, its parameter declaration (by name or by position), its handler, `parameterCount`,
  `verifyParameterTypes` and `invoke`. The descriptor is a datatype because its fields are set
  once, by a constructor, and never change. `verifyParameterTypes` is a method with the source's
  two loops. It is proved against the predicate `ParamsConform`, and the pure pipeline uses that
  predicate.
- `rpc_dispatch.dfy`, module `RpcDispatch` (`AsyncJsonRPC.h`). This part has three pieces:
  - The class `AsyncJsonRPC` holds the `methods` registry, which `addHandler` and
    `removeHandler` update in place. It also holds the response sink, modelled as `sinkLog`, the
    sequence of every value handed to it.
  - The pure per-request pipeline is `BasicRpcCallValidation`, `GetResultForSingleRpcCall` and
    `GetResponseForSingleRpcCall`. A thrown `JsonErrorCode` becomes a returned value.
  - `Post` is specified by the function `PostResponse`. It classifies its input as a parse
    failure, a batch, a single object or anything else.

`json_values.dfy` (module `JsonValues`) is the slice of jsoncpp's `Json::Value` that the
dispatcher uses: the eight value types, `size()`, member lookup with a null default, `asString()`,
and the value built from a bare type tag. `wrappers.dfy` holds `Option` and `Outcome`.

The following are abstracted:
- **The parser.** `Post` receives `Option<Json>`, where `None` means the text did not parse.
- **The writer.** Responses are `Json` values, not text.
- **Handlers.** A handler is a function from the params value and the caller's context (type
  parameter `C`) to an outcome: `Ok(result)`, `RpcErr(e)` (it threw a `JsonErrorCode`) or `Fault`
  (it threw any other `std::exception`). `Invoke` passes the params and the context to it
  unchanged.
- **The error value.** `JsonErrorCode` is a datatype with the fields `code`, `message` and
  `requestId`. Its fields stand for the getters `getCode`, `getMessage` and `getRequestId`
  (JsonErrorCode.h:59-63), and its constructor for the one at JsonErrorCode.h:66-69.
- **The context in a batch.** The intended behaviour is modelled: every element's handler sees the
  caller's context. As written, each element moves from `post`'s own context, so element k sees
  it moved from k times. `BatchResponsesAsWritten` models that, and Findings records the gap.

The model reproduces several behaviours of the code that differ from the JSON-RPC 2.0 standard.
In each case the model follows the code:
- A request without an id is never a notification. It gets Invalid Request.
- A batch holding any non-object collapses to one Parse error. An empty batch gets `[]`.
- The `method` member is only checked for presence. It is then coerced by `asString()`: null
  gives "", booleans and integers give their text, and an array or object makes `asString()`
  throw, which ends as Internal error.
- A method that declares no parameters ignores `params` and hands the handler null.
- A `JsonErrorCode` thrown by a handler keeps its own code and message. Only other exceptions
  become Internal error.
- Error ids differ between the two paths:
  - On the single path, a failed basic validation escapes to the outer catch of `post`. The id is
    then null unless only the `jsonrpc` tag was missing or wrong.
  - On the batch path, the error id is the element's raw `id` member, even when that member is a
    string, and null when it is absent (`SingleAndBatchIdsDiffer`).

The positional-parameter constructor does not compile as written. It names an enumerator
`ParamsByPos` that does not exist and calls `vector::insert` without a position.
`NewByPosition` models the evident intent. The positional check is modelled as a per-position
type comparison. See Findings for what line 108 actually compares.

## Model

| member | source | states |
|---|---|---|
| `JsonValues.AsString` | include/asyncjsonrpc/AsyncJsonRPC.h:121 | the method name coercion fails exactly for an array or an object; a string is kept, null gives "" |
| `JsonValues.Get` | include/asyncjsonrpc/AsyncJsonRPC.h:163 | looking up a member gives it when present and null when absent |
| `JsonValues.TypeOf` | include/asyncjsonrpc/AsyncJsonRPC.h:210-213 | the type tag of a value: object exactly for objects, array exactly for arrays, null exactly for null |
| `JsonValues.Size` | include/asyncjsonrpc/AsyncJsonRPCMethod.h:86 | an array's size is its length, an object's is its number of members, and any other value has size 0 |
| `JsonValues.DefaultValue` | include/asyncjsonrpc/AsyncJsonRPCMethod.h:108 | the value built from a type tag has that type and is the zero of it: 0, 0.0, "", false, [], {} or null |
| `JsonValues.NatToDecimal` | include/asyncjsonrpc/AsyncJsonRPC.h:121 | the text asString() gives for a non-negative integer: decimal digits without leading zeros that denote the number |
| `JsonErrorCodes.MakeParseError` | include/asyncjsonrpc/JsonErrorCode.h:24-27 | code -32700, message "Parse error", the given id |
| `JsonErrorCodes.MakeInvalidRequest` | include/asyncjsonrpc/JsonErrorCode.h:28-31 | code -32600, message "Invalid Request", the given id |
| `JsonErrorCodes.MakeMethodNotFound` | include/asyncjsonrpc/JsonErrorCode.h:32-35 | code -32601, message "Method not found", the given id |
| `JsonErrorCodes.MakeInvalidParams` | include/asyncjsonrpc/JsonErrorCode.h:36-39 | code -32602, message "Invalid params", the given id |
| `JsonErrorCodes.MakeInternalError` | include/asyncjsonrpc/JsonErrorCode.h:40-43 | code -32603, message "Internal error", the given id |
| `JsonErrorCodes.MakeServerError` | include/asyncjsonrpc/JsonErrorCode.h:44-48 | callable only with a code in -32099..-32000, which the standard classifies as a server error; message "Server error" |
| `JsonErrorCodes.FactoriesFollowTheStandard` | include/asyncjsonrpc/JsonErrorCode.h:24-43 | each factory's code is the one the JSON-RPC 2.0 table assigns to its kind |
| `JsonErrorCodes.FactoriesDefaultToNullId` | include/asyncjsonrpc/JsonErrorCode.h:24-48 | every factory called without an id gives a null id |
| `JsonErrorCodes.SetRequestId` | include/asyncjsonrpc/JsonErrorCode.h:65 | the id is replaced; code and message are unchanged |
| `JsonErrorCodes.ToJsonValue` | include/asyncjsonrpc/JsonErrorCode.h:72-78 | an object with exactly the keys code and message, holding the error's code and message |
| `JsonErrorCodes.ToJsonRpcResponse` | include/asyncjsonrpc/JsonErrorCode.h:80-91 | an object with exactly the keys id (the stored id), jsonrpc = "2.0" and error, and error equals ToJsonValue |
| `JsonErrorCodes.ErrorResponseRoundTrip` | include/asyncjsonrpc/JsonErrorCode.h:80-91 | reading the error envelope back gives the error: code, message and id |
| `JsonErrorCodes.ToJsonRpcResponseInjective` | include/asyncjsonrpc/JsonErrorCode.h:80-91 | two errors with the same envelope are the same error |
| `JsonErrorCodes.SetRequestIdKeepsError` | include/asyncjsonrpc/JsonErrorCode.h:65-91 | after setRequestId the error member is unchanged, the envelope reads back with the new id, and the last setRequestId wins |
| `RpcMethod.NewByName` | include/asyncjsonrpc/AsyncJsonRPCMethod.h:44-53 | a by-name descriptor holding the given name-to-type map (keys unique) and no positional types |
| `RpcMethod.NewByPosition` | include/asyncjsonrpc/AsyncJsonRPCMethod.h:55-64 | a by-position descriptor holding the given types in order and no named ones |
| `RpcMethod.ParameterCount` | include/asyncjsonrpc/AsyncJsonRPCMethod.h:66-79 | the number of declared parameters of the descriptor's own kind (no contract; ParameterCountOfNew states it for built descriptors) |
| `RpcMethod.ParameterCountOfNew` | include/asyncjsonrpc/AsyncJsonRPCMethod.h:66-79 | the parameter count is the size of the map or of the sequence the descriptor was built from, 0 by default |
| `RpcMethod.VerifyParameterTypes` | include/asyncjsonrpc/AsyncJsonRPCMethod.h:81-115 | returns normally exactly when the params conform (size, then shape, then every key or position); otherwise the only error is InvalidParams carrying the given id |
| `RpcMethod.NamedConformExact` | include/asyncjsonrpc/AsyncJsonRPCMethod.h:85-102 | for a by-name method, the params pass exactly when they are an object whose key set equals the declared key set and every member has its declared type |
| `RpcMethod.PositionalConformExact` | include/asyncjsonrpc/AsyncJsonRPCMethod.h:103-111 | for a by-position method, the params pass exactly when they are an array of the declared length whose element i has declared type i |
| `RpcMethod.Invoke` | include/asyncjsonrpc/AsyncJsonRPCMethod.h:117-122 | the handler is called with the params and the context unchanged (no contract: its outcome is the handler's) |
| `RpcMethod.AsWrittenPositionalRejectsWellTypedArgument` | include/asyncjsonrpc/AsyncJsonRPCMethod.h:107-111 | with one declared integer parameter, the check as written accepts [x] exactly when x is 0 (so it rejects [5]), while the type check accepts every [x] |
| `RpcMethod.AsWrittenIsStricter` | include/asyncjsonrpc/AsyncJsonRPCMethod.h:107-111 | whatever the as-written check accepts, the type check accepts too |
| `RpcDispatch.PutResultInResponseContext` | include/asyncjsonrpc/AsyncJsonRPC.h:73-83 | an object with exactly the keys jsonrpc = "2.0", id and result |
| `RpcDispatch.SuccessRoundTrip` | include/asyncjsonrpc/AsyncJsonRPC.h:73-83 | the success envelope reads back as a success carrying the id and the result |
| `RpcDispatch.FailureRoundTrip` | include/asyncjsonrpc/JsonErrorCode.h:80-91 | an error envelope never reads as a success, and reads back as its error |
| `RpcDispatch.BasicRpcCallValidation` | include/asyncjsonrpc/AsyncJsonRPC.h:92-115 | passes exactly when method and id are present, id is a signed or unsigned integer, and jsonrpc is "2.0"; otherwise Invalid Request, with a null id when method or id is missing or id is not an integer, and with the id when only the jsonrpc tag is missing or wrong |
| `RpcDispatch.GetResultForSingleRpcCall` | include/asyncjsonrpc/AsyncJsonRPC.h:117-145 | before the handler, only three errors are possible: Internal error exactly when `method` cannot be coerced to a string, Method not found with the id exactly when the name is not registered, and otherwise Invalid params with the id |
| `RpcDispatch.GetResponseForSingleRpcCall` | include/asyncjsonrpc/AsyncJsonRPC.h:147-169 | every response is an object with jsonrpc = "2.0" and an id, holding either result or error; a success carries the given id and an error carries the request's raw id member |
| `RpcDispatch.HandlerReachedExactly` | include/asyncjsonrpc/AsyncJsonRPC.h:117-145 | the handler runs exactly when the request is valid, its method is registered, and the method declares no parameters or gets params that conform; it receives those params unchanged, or null for a method without parameters |
| `RpcDispatch.InvalidRequestResponse` | include/asyncjsonrpc/AsyncJsonRPC.h:147-164 | an invalid request reaches no handler and is answered with Invalid Request and its raw id member |
| `RpcDispatch.MethodNotFoundResponse` | include/asyncjsonrpc/AsyncJsonRPC.h:121-126 | a valid request naming no registered method gets Method not found with its id |
| `RpcDispatch.UncoercibleMethodResponse` | include/asyncjsonrpc/AsyncJsonRPC.h:121-167 | a method member that is an array or object gets Internal error with the request's id |
| `RpcDispatch.InvalidParamsResponse` | include/asyncjsonrpc/AsyncJsonRPC.h:130-139 | a method with parameters gets Invalid params with the id when params are missing or do not conform |
| `RpcDispatch.HandlerOutcomeResponse` | include/asyncjsonrpc/AsyncJsonRPC.h:147-168 | a handler result becomes the success envelope with the given id; a thrown JsonErrorCode keeps code and message and gets the request's id; any other exception becomes Internal error with that id |
| `RpcDispatch.SingleResponseIsEnvelope` | include/asyncjsonrpc/AsyncJsonRPC.h:147-168 | every single-request response reads back as a success or an error envelope |
| `RpcDispatch.BatchResponses` | include/asyncjsonrpc/AsyncJsonRPC.h:219-228 | one response per batch element |
| `RpcDispatch.BatchResponsesSnoc` | include/asyncjsonrpc/AsyncJsonRPC.h:219-228 | answering one more element appends its response at the end |
| `RpcDispatch.BatchResponsesAt` | include/asyncjsonrpc/AsyncJsonRPC.h:219-228 | response k is the response to element k alone, with the element's id member as its id |
| `RpcDispatch.BatchResponsesAsWritten` | include/asyncjsonrpc/AsyncJsonRPC.h:219-228 | one response per batch element, with the loop's context as written |
| `RpcDispatch.BatchResponsesAsWrittenAt` | include/asyncjsonrpc/AsyncJsonRPC.h:219-228 | as written, response k answers element k with the context moved from k times |
| `RpcDispatch.AsWrittenAgreesForCopiedContext` | include/asyncjsonrpc/AsyncJsonRPC.h:219-228 | for a context whose move is a copy, the batch responses as written equal the intended ones |
| `RpcDispatch.MovedContextReachesLaterElements` | include/asyncjsonrpc/AsyncJsonRPC.h:225-226 | for a string context that becomes "" when moved from and a handler that returns its context, the second element of a batch gets "" as written, and the context as intended |
| `RpcDispatch.PostResponse` | include/asyncjsonrpc/AsyncJsonRPC.h:193-255 | the value for the sink is an array exactly when the input is a batch of objects, with one entry per element; otherwise it is one object with jsonrpc = "2.0" |
| `RpcDispatch.PostParseError` | include/asyncjsonrpc/AsyncJsonRPC.h:199-245 | unparsable input, a top-level scalar, or a batch with a non-object element gets one Parse error with a null id |
| `RpcDispatch.PostBatch` | include/asyncjsonrpc/AsyncJsonRPC.h:209-230 | a batch of objects gets an array of the same length whose element k answers element k; [] gets [] |
| `RpcDispatch.BatchIsolation` | include/asyncjsonrpc/AsyncJsonRPC.h:219-228 | two batches that agree at position k get the same response at k, whatever their other elements |
| `RpcDispatch.PostSingle` | include/asyncjsonrpc/AsyncJsonRPC.h:232-249 | a single invalid object gets the validation error with its validation id; a valid one gets the single-request response with its id |
| `RpcDispatch.NotificationRejected` | include/asyncjsonrpc/AsyncJsonRPC.h:99-101 | a request without id gets Invalid Request with a null id, alone and inside a batch |
| `RpcDispatch.SingleAndBatchIdsDiffer` | include/asyncjsonrpc/AsyncJsonRPC.h:161-164 | a request with a string id gets a null id alone but its string id inside a batch |
| `RpcDispatch.PostAlwaysResponds` | include/asyncjsonrpc/AsyncJsonRPC.h:194-255 | whatever the input, the response is one envelope or an array of envelopes |
| `RpcDispatch.BatchOfThree` | include/asyncjsonrpc/AsyncJsonRPC.h:209-230 | a batch of three objects is answered by an array of three responses, each the response to its own element |
| `RpcDispatch.TestParamsConform` | tests/test_general.cpp:164-190 | against the declaration {p1: int, p2: string}, an integer p1 with a string p2 conforms and a real p2 does not |
| `RpcDispatch.WellTypedTestCall` | tests/test_general.cpp:50-76 | a call of testmethod1 with an integer p1 and a string p2 reaches the handler and reads back as a success with the handler's result and the call's id |
| `RpcDispatch.MistypedTestCall` | tests/test_general.cpp:164-190 | a call of testmethod1 whose p2 is a real reaches no handler and reads back as Invalid params (-32602) with the call's id |
| `RpcDispatch.BatchWithOneInvalidParameterType` | tests/test_general.cpp:416-463 | in a batch of two well-typed calls and one mistyped call, the handler runs for the first two only, they read back as successes with their own ids, and the third reads back as Invalid params with its id |
| `RpcDispatch.AsyncJsonRPC.constructor` | include/asyncjsonrpc/AsyncJsonRPC.h:28 | an empty registry and no response delivered yet |
| `RpcDispatch.AsyncJsonRPC.AddHandlerByName` | include/asyncjsonrpc/AsyncJsonRPC.h:30-42 | a registered name fails with "Method <name> already registered" and changes nothing; otherwise exactly that by-name entry is added and the count grows by 1 |
| `RpcDispatch.AsyncJsonRPC.AddHandlerByPosition` | include/asyncjsonrpc/AsyncJsonRPC.h:44-56 | the same for a by-position declaration, empty by default |
| `RpcDispatch.AsyncJsonRPC.RemoveHandler` | include/asyncjsonrpc/AsyncJsonRPC.h:171-178 | an absent name fails with "Method <name> does not exist" and changes nothing; otherwise exactly that entry goes and the count drops by 1 |
| `RpcDispatch.AsyncJsonRPC.HandlerExists` | include/asyncjsonrpc/AsyncJsonRPC.h:180-185 | true exactly when the name is registered |
| `RpcDispatch.AsyncJsonRPC.HandlerCount` | include/asyncjsonrpc/AsyncJsonRPC.h:187-191 | the number of registered names |
| `RpcDispatch.AsyncJsonRPC.RespondToBatch` | include/asyncjsonrpc/AsyncJsonRPC.h:219-228 | the loop builds exactly the batch responses in order, and its ghost log lists, in increasing order, exactly the positions whose handler ran |
| `RpcDispatch.AsyncJsonRPC.Post` | include/asyncjsonrpc/AsyncJsonRPC.h:193-255 | on every path a sink that does not throw receives exactly one value, PostResponse of the input; the handler ran exactly for the positions in the log: none for a parse error or a malformed batch, position 0 for a single request that reaches it |
| `RpcDispatch.BasicRegistryScenario` | tests/test_general.cpp:25-48 | the registry test replayed: no handler at first, a second addHandler of the same name fails, the count is 1, and after removeHandler the name is gone (asserted in the body; no contract) |

## Findings

| source | as written | input that shows it | evidently intended | confidence | as-written member | corrected member |
|---|---|---|---|---|---|---|
| include/asyncjsonrpc/AsyncJsonRPCMethod.h:108 | element i is compared for equality with the Json value built from the declared type tag, which is that type's default value (0, "", false, [], {}) | a method declaring one integer parameter, called with params [5], is rejected with Invalid params | compare the type of element i with declared type i, as the by-name branch does at line 99 | not executed | `RpcMethod.AsWrittenPositionalRejectsWellTypedArgument` | `RpcMethod.VerifyParameterTypes` |
| include/asyncjsonrpc/AsyncJsonRPC.h:225-226 | each batch element's call takes `post`'s by-value context through `std::forward`, which moves it into the by-value parameter of getResponseForSingleRpcCall, so element k gets a context already moved from k times | a batch of the same call twice to a handler that answers with its `std::string` context, posted with a non-empty string: the second response carries the moved-from string ("" in common standard libraries) | every element sees the caller's context, as tests/test_general.cpp:375-377 and 425-427 expect | not executed | `RpcDispatch.MovedContextReachesLaterElements` | `RpcDispatch.BatchResponsesAt` |

## Left out

- The worker pool (`detail/ThreadPool.h`), `asyncPost` and the executor. They only move the `post`
  call to another thread and do not change what it computes.
- The JSON parser and writer. `Post` takes the parse result as `Option<Json>`, and responses are
  values, not text. So `toJsonRpcResponseStr`, `JsonValueToString` and `what()` are not modelled.
- `setResponseCallback`. The sink is modelled only by the values it receives (`sinkLog`).
- Handler state and side effects. A handler is a pure function of its params and the context, so
  the tests' handlers that count their calls are not modelled. The ghost log of `Post` records
  which requests reached a handler.
- Exceptions that are not `std::exception`. They escape `post` and are out of scope.
- The outer catch of `post` for a `std::exception` (AsyncJsonRPC.h:251-253). The sink is called
  inside the `try` (AsyncJsonRPC.h:203, 214, 230, 241, 244). A sink that throws a `std::exception`
  lands in that catch and is called a second time, with Internal error. Allocation failures and
  the writer could also throw there. The model's sink never throws.
- RpcDispatch.AsyncJsonRPC.Post: "exactly one value reaches the sink" holds only for a sink that
  does not throw; a throwing sink is called again from the outer catch, which is not modelled.
  For a batch it states the intended context for every element (see Findings).
- RpcDispatch.BatchResponses: every element is answered with the caller's context, the intended
  behaviour. As written, element k gets the context moved from k times
  (`BatchResponsesAsWritten`).
- RpcDispatch.BatchResponsesSnoc: states the appended response with the caller's context, the
  intended behaviour, not the moved-from context of the code as written.
- RpcDispatch.BatchResponsesAt: states response k with the caller's context, the intended
  behaviour. As written it holds for k = 0 and for a context whose move is a copy
  (`AsWrittenAgreesForCopiedContext`).
- RpcDispatch.PostBatch: the same as BatchResponsesAt, for the array `post` delivers.
- RpcDispatch.BatchOfThree: elements 1 and 2 are stated with the caller's context, the intended
  behaviour, not the moved-from context of the code as written.
- RpcDispatch.PostResponse: a batch is answered as BatchResponses, with the intended context.
- RpcDispatch.AsyncJsonRPC.RespondToBatch: the loop hands every element the caller's context,
  the intended behaviour, not the moved-from context of the code as written.
- JsonErrorCodes.MakeServerError: its requires stands for the `assert` at JsonErrorCode.h:46. A
  build with NDEBUG drops that assert and accepts any code, which the model does not allow.
- Integer widths. Integers are unbounded: jsoncpp's 64-bit signed and unsigned values and the
  `int` error code are not bounded.
- Floating-point numbers. A real is kept as the text `asString()` gives for it. It is compared by
  that text, so the model does not know that 0.0 equals -0.0.
- The unsynchronized registry under concurrent dispatch. The model is sequential.
