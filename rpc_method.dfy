/** A registered method: its name, its parameter declaration (by name or by position),
    the parameter check run before its handler, and the handler call. */
module RpcMethod {
  import opened Wrappers
  import opened JsonValues
  import opened JsonErrorCodes

  datatype ParamsDeclaration = ParamsByName | ParamsByPosition

  /** What a handler does when it runs: it fills in a result, throws a JsonErrorCode,
      or throws any other std::exception. */
  datatype HandlerOutcome =
    | Ok(result: Json)
    | RpcErr(error: JsonErrorCode)
    | Fault

  /** An AsyncJsonRPCMethod. Its fields are set by one of the two constructors below and
      never change afterwards. The handler receives the params value and the caller's context. */
  datatype AsyncJsonRPCMethod<!C> = AsyncJsonRPCMethod(
    methodName: string,
    paramsDecl: ParamsDeclaration,
    methodParameters_byName: map<string, ValueType>,
    methodParameters_byPos: seq<ValueType>,
    handler: (Json, C) -> HandlerOutcome)

  /** The constructor from a std::map of parameter names to types. */
  function NewByName<C>(handler: (Json, C) -> HandlerOutcome, methodName: string,
                        methodParams: map<string, ValueType> := map[]): (m: AsyncJsonRPCMethod<C>)
    ensures m.paramsDecl == ParamsByName && m.methodName == methodName
    ensures m.methodParameters_byName == methodParams && m.methodParameters_byPos == []
  {
    AsyncJsonRPCMethod(methodName, ParamsByName, methodParams, [], handler)
  }

  /** The constructor from a std::vector of parameter types. The source does not compile as
      written here (it names an enumerator ParamsByPos that does not exist and calls
      vector::insert without a position); this is the evident intent: a positional
      declaration holding the given types in order. */
  function NewByPosition<C>(handler: (Json, C) -> HandlerOutcome, methodName: string,
                            methodParams: seq<ValueType> := []): (m: AsyncJsonRPCMethod<C>)
    ensures m.paramsDecl == ParamsByPosition && m.methodName == methodName
    ensures m.methodParameters_byPos == methodParams && m.methodParameters_byName == map[]
  {
    AsyncJsonRPCMethod(methodName, ParamsByPosition, map[], methodParams, handler)
  }

  /** parameterCount */
  function ParameterCount<C>(m: AsyncJsonRPCMethod<C>): nat
  {
    match m.paramsDecl
    case ParamsByName => |m.methodParameters_byName|
    case ParamsByPosition => |m.methodParameters_byPos|
  }

  /** The count is the size of the declaration the method was built from. */
  lemma ParameterCountOfNew<C>(h: (Json, C) -> HandlerOutcome, name: string,
                               byName: map<string, ValueType>, byPos: seq<ValueType>)
    ensures ParameterCount(NewByName(h, name, byName)) == |byName|
    ensures ParameterCount(NewByPosition(h, name, byPos)) == |byPos|
    ensures ParameterCount(NewByName(h, name)) == 0 && ParameterCount(NewByPosition(h, name)) == 0
  {
  }

  /** One named parameter is acceptable: declared, and of the declared type. */
  predicate NamedParamOk(decl: map<string, ValueType>, key: string, value: Json)
  {
    key in decl && TypeOf(value) == decl[key]
  }

  /** One positional parameter is acceptable: of the type declared at its position. */
  predicate PositionalParamOk(decl: seq<ValueType>, i: nat, value: Json)
  {
    i < |decl| && TypeOf(value) == decl[i]
  }

  /** What verifyParameterTypes accepts: the size matches the parameter count, the value has
      the declared shape, and every member (every element) passes its own check. */
  predicate ParamsConform<C>(m: AsyncJsonRPCMethod<C>, parameters: Json)
  {
    && Size(parameters) == ParameterCount(m)
    && match m.paramsDecl
       case ParamsByName =>
         parameters.Obj? &&
         forall key :: key in parameters.fields ==>
           NamedParamOk(m.methodParameters_byName, key, parameters.fields[key])
       case ParamsByPosition =>
         parameters.Arr? &&
         forall i :: 0 <= i < |parameters.elems| ==>
           PositionalParamOk(m.methodParameters_byPos, i, parameters.elems[i])
  }

  lemma {:induction false} SubsetOfEqualSize<T>(a: set<T>, b: set<T>)
    requires a <= b && |a| == |b|
    ensures a == b
  {
    assert |b - a| == |b| - |a| == 0;
  }

  /** For a named declaration, accepted params have exactly the declared keys, each with its
      declared type, and conversely: equal size plus "every key declared" leaves no declared
      key missing, because object keys are unique. */
  lemma {:induction false} NamedConformExact<C>(m: AsyncJsonRPCMethod<C>, parameters: Json)
    requires m.paramsDecl == ParamsByName
    ensures ParamsConform(m, parameters) <==>
      && parameters.Obj?
      && parameters.fields.Keys == m.methodParameters_byName.Keys
      && forall key :: key in m.methodParameters_byName ==>
           TypeOf(parameters.fields[key]) == m.methodParameters_byName[key]
  {
    var decl := m.methodParameters_byName;
    if ParamsConform(m, parameters) {
      assert parameters.fields.Keys <= decl.Keys by {
        forall key | key in parameters.fields.Keys ensures key in decl.Keys {
          assert NamedParamOk(decl, key, parameters.fields[key]);
        }
      }
      SubsetOfEqualSize(parameters.fields.Keys, decl.Keys);
    }
    if parameters.Obj? && parameters.fields.Keys == decl.Keys &&
       (forall key :: key in decl ==> TypeOf(parameters.fields[key]) == decl[key]) {
      assert |parameters.fields| == |decl|;
    }
  }

  /** For a positional declaration, accepted params are an array of the declared length whose
      element i has declared type i, and conversely. */
  lemma PositionalConformExact<C>(m: AsyncJsonRPCMethod<C>, parameters: Json)
    requires m.paramsDecl == ParamsByPosition
    ensures ParamsConform(m, parameters) <==>
      && parameters.Arr?
      && |parameters.elems| == |m.methodParameters_byPos|
      && forall i :: 0 <= i < |parameters.elems| ==>
           TypeOf(parameters.elems[i]) == m.methodParameters_byPos[i]
  {
  }

  /** verifyParameterTypes. It throws InvalidParams carrying the given id when the params do
      not conform, and returns normally otherwise. The named loop visits the members in an
      unspecified order (jsoncpp visits them sorted by key); the outcome does not depend on it.
      The source's final `else` that throws InternalError cannot be reached: the declaration
      has two values. */
  method VerifyParameterTypes<C>(m: AsyncJsonRPCMethod<C>, parameters: Json, requestId: Json)
    returns (failure: Option<JsonErrorCode>)
    ensures failure.None? <==> ParamsConform(m, parameters)
    ensures failure.Some? ==> failure.value == MakeInvalidParams(requestId)
  {
    var expectedSize := ParameterCount(m);
    if Size(parameters) != expectedSize {
      return Some(MakeInvalidParams(requestId));
    }
    if m.paramsDecl == ParamsByName {
      if !parameters.Obj? {
        return Some(MakeInvalidParams(requestId));
      }
      var decl := m.methodParameters_byName;
      var remaining := parameters.fields.Keys;
      while remaining != {}
        invariant remaining <= parameters.fields.Keys
        invariant forall key :: key in parameters.fields && key !in remaining ==>
                    NamedParamOk(decl, key, parameters.fields[key])
        decreases remaining
      {
        var key :| key in remaining;
        if key !in decl {
          return Some(MakeInvalidParams(requestId));
        }
        if TypeOf(parameters.fields[key]) != decl[key] {
          return Some(MakeInvalidParams(requestId));
        }
        remaining := remaining - {key};
      }
    } else {
      if !parameters.Arr? {
        return Some(MakeInvalidParams(requestId));
      }
      var decl := m.methodParameters_byPos;
      var i := 0;
      while i < |parameters.elems|
        invariant 0 <= i <= |parameters.elems| == |decl|
        invariant forall j :: 0 <= j < i ==> PositionalParamOk(decl, j, parameters.elems[j])
      {
        if TypeOf(parameters.elems[i]) != decl[i] {
          return Some(MakeInvalidParams(requestId));
        }
        i := i + 1;
      }
    }
    return None;
  }

  /** invoke: the handler gets the params value and the context unchanged. */
  function Invoke<C>(m: AsyncJsonRPCMethod<C>, request: Json, context: C): HandlerOutcome
  {
    m.handler(request, context)
  }

  /** The positional check as written at line 108: `parameters[i] != methodParameters_byPos[i]`
      converts the type tag to Json::Value(ValueType), which is the default value of that type,
      so an element is accepted only when it equals that default value. */
  predicate ParamsConformAsWritten<C>(m: AsyncJsonRPCMethod<C>, parameters: Json)
    requires m.paramsDecl == ParamsByPosition
  {
    && Size(parameters) == ParameterCount(m)
    && parameters.Arr?
    && forall i :: 0 <= i < |parameters.elems| ==>
         i < |m.methodParameters_byPos| && parameters.elems[i] == DefaultValue(m.methodParameters_byPos[i])
  }

  /** The as-written check rejects a well-typed integer argument other than 0 and accepts
      only the zero value, while the per-position type check accepts both. */
  lemma AsWrittenPositionalRejectsWellTypedArgument<C>(h: (Json, C) -> HandlerOutcome, x: int)
    ensures var m := NewByPosition(h, "f", [IntValue]);
      && ParamsConform(m, Arr([Int(5)])) && !ParamsConformAsWritten(m, Arr([Int(5)]))
      && ParamsConform(m, Arr([Int(x)]))
      && (ParamsConformAsWritten(m, Arr([Int(x)])) <==> x == 0)
  {
    var m := NewByPosition(h, "f", [IntValue]);
    assert Arr([Int(5)]).elems[0] != DefaultValue(IntValue);
    assert Arr([Int(x)]).elems[0] == Int(x);
  }

  /** The as-written check is never more permissive than the intended one: it accepts a subset. */
  lemma AsWrittenIsStricter<C>(m: AsyncJsonRPCMethod<C>, parameters: Json)
    requires m.paramsDecl == ParamsByPosition
    requires ParamsConformAsWritten(m, parameters)
    ensures ParamsConform(m, parameters)
  {
    forall i | 0 <= i < |parameters.elems|
      ensures PositionalParamOk(m.methodParameters_byPos, i, parameters.elems[i])
    {
      assert TypeOf(DefaultValue(m.methodParameters_byPos[i])) == m.methodParameters_byPos[i];
    }
  }
}
