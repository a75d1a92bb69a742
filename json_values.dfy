/** The parsed JSON value tree the dispatcher works on, reduced to the capabilities
    the dispatcher uses from jsoncpp's Json::Value: the value type, size(),
    isMember()/operator[] on objects, asString(), and construction from a type tag. */
module JsonValues {
  import opened Wrappers

  /** Json::ValueType, in declaration order. */
  datatype ValueType =
    | NullValue
    | IntValue
    | UIntValue
    | RealValue
    | StringValue
    | BooleanValue
    | ArrayValue
    | ObjectValue

  /** A parsed JSON value. Integers are unbounded here; a floating-point number keeps only
      the text that asString() renders for it, since nothing in the dispatcher computes on it.
      An object's members are a map: jsoncpp keeps object members keyed and unique. */
  datatype Json =
    | Null
    | Bool(b: bool)
    | Int(i: int)
    | UInt(u: nat)
    | Real(text: string)
    | Str(s: string)
    | Arr(elems: seq<Json>)
    | Obj(fields: map<string, Json>)

  /** Value::type() */
  function TypeOf(v: Json): (t: ValueType)
    ensures t == ObjectValue <==> v.Obj?
    ensures t == ArrayValue <==> v.Arr?
    ensures t == NullValue <==> v.Null?
  {
    match v
    case Null => NullValue
    case Bool(_) => BooleanValue
    case Int(_) => IntValue
    case UInt(_) => UIntValue
    case Real(_) => RealValue
    case Str(_) => StringValue
    case Arr(_) => ArrayValue
    case Obj(_) => ObjectValue
  }

  /** Value::size(): the number of elements of an array, of members of an object, else 0. */
  function Size(v: Json): (n: nat)
    ensures v.Arr? ==> n == |v.elems|
    ensures v.Obj? ==> n == |v.fields|
    ensures !v.Arr? && !v.Obj? ==> n == 0
  {
    match v
    case Arr(elems) => |elems|
    case Obj(fields) => |fields|
    case _ => 0
  }

  /** The const Value::operator[](key) on an object: the member, or null when it is absent. */
  function Get(fields: map<string, Json>, key: string): (v: Json)
    ensures key in fields ==> v == fields[key]
    ensures key !in fields ==> v == Null
  {
    if key in fields then fields[key] else Null
  }

  /** Value(ValueType): the default value jsoncpp builds from a bare type tag. */
  function DefaultValue(t: ValueType): (v: Json)
    ensures TypeOf(v) == t
    ensures Size(v) == 0
    ensures v.Int? ==> v.i == 0
    ensures v.UInt? ==> v.u == 0
    ensures v.Real? ==> v.text == "0.0"
    ensures v.Str? ==> v.s == ""
    ensures v.Bool? ==> !v.b
    ensures v.Arr? ==> v.elems == []
    ensures v.Obj? ==> v.fields == map[]
  {
    match t
    case NullValue => Null
    case IntValue => Int(0)
    case UIntValue => UInt(0)
    case RealValue => Real("0.0")
    case StringValue => Str("")
    case BooleanValue => Bool(false)
    case ArrayValue => Arr([])
    case ObjectValue => Obj(map[])
  }

  function DigitChar(d: nat): char
    requires d < 10
  {
    "0123456789"[d]
  }

  /** The number a string of decimal digits denotes, most significant digit first. */
  function DecimalValue(s: string): nat
    requires forall k :: 0 <= k < |s| ==> '0' <= s[k] <= '9'
  {
    if s == [] then 0 else 10 * DecimalValue(s[..|s| - 1]) + (s[|s| - 1] as int - '0' as int)
  }

  /** The decimal digits of n, most significant first, without leading zeros. */
  function NatToDecimal(n: nat): (s: string)
    ensures |s| > 0
    ensures forall k :: 0 <= k < |s| ==> '0' <= s[k] <= '9'
    ensures DecimalValue(s) == n
    ensures s[0] == '0' ==> n == 0
    decreases n
  {
    if n < 10 then [DigitChar(n)] else NatToDecimal(n / 10) + [DigitChar(n % 10)]
  }

  /** Value::asString(): None stands for the exception it throws on an array or an object. */
  function AsString(v: Json): (r: Option<string>)
    ensures r.None? <==> v.Arr? || v.Obj?
    ensures v.Str? ==> r == Some(v.s)
    ensures v.Null? ==> r == Some("")
  {
    match v
    case Null => Some("")
    case Bool(b) => Some(if b then "true" else "false")
    case Int(i) => Some(if i < 0 then "-" + NatToDecimal(-i) else NatToDecimal(i))
    case UInt(u) => Some(NatToDecimal(u))
    case Real(text) => Some(text)
    case Str(s) => Some(s)
    case Arr(_) => None
    case Obj(_) => None
  }
}
