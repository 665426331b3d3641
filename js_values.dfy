/**
 The fragment of JavaScript's value semantics that the reducer builder relies on:
 the values it is handed (action descriptors, actions, states), the `typeof`
 categories it switches on, truthiness, reading the `type` property, and the
 coercion of a property value to the string key under which an object stores it.
 */
module JsValues {

  /** A JavaScript value. Numbers are integers; `Obj` is a plain object with its own
      data properties and nothing inherited; `Fun` is a function without properties
      that, called without arguments, returns `result`, and whose text (what
      `String(f)` yields) is `source`. */
  datatype Value =
    | Undefined
    | Null
    | Bool(b: bool)
    | Num(n: int)
    | Str(s: string)
    | Obj(props: map<string, Value>)
    | Fun(source: string, result: Value)

  /** The results of the `typeof` operator that the values above can produce. */
  datatype JsType = UndefinedType | ObjectType | BooleanType | NumberType | StringType | FunctionType

  /** The exceptions the builder can raise: reading a property of `null` or
      `undefined` raises a TypeError; an unsupported descriptor raises the
      builder's own Error. */
  datatype JsError = TypeError | InvalidActionError

  datatype Result<T> = Ok(value: T) | Err(error: JsError)

  /** `typeof v`; note that `typeof null` is "object". */
  function TypeOf(v: Value): (t: JsType)
    ensures t == ObjectType <==> v.Obj? || v.Null?
    ensures t == FunctionType <==> v.Fun?
    ensures t == StringType <==> v.Str?
  {
    match v
    case Undefined => UndefinedType
    case Null => ObjectType
    case Bool(_) => BooleanType
    case Num(_) => NumberType
    case Str(_) => StringType
    case Obj(_) => ObjectType
    case Fun(_, _) => FunctionType
  }

  /** JavaScript truthiness: `undefined`, `null`, `false`, `0` and `""` are falsy. */
  predicate Truthy(v: Value)
    ensures !Truthy(v) <==> v in {Undefined, Null, Bool(false), Num(0), Str("")}
  {
    match v
    case Undefined => false
    case Null => false
    case Bool(b) => b
    case Num(n) => n != 0
    case Str(s) => s != ""
    case Obj(_) => true
    case Fun(_, _) => true
  }

  /** `v.type`, the one property the builder reads. It throws a TypeError on
      `undefined` and `null`; a missing own `type`, and the `type` of a primitive
      or of a function, read as `undefined`. */
  function GetType(v: Value): (r: Result<Value>)
    ensures r.Err? <==> v.Undefined? || v.Null?
    ensures r.Err? ==> r.error == TypeError
    ensures v.Obj? ==> r == Ok(if "type" in v.props then v.props["type"] else Undefined)
    ensures !v.Obj? && r.Ok? ==> r.value == Undefined
  {
    match v
    case Undefined => Err(TypeError)
    case Null => Err(TypeError)
    case Obj(props) => Ok(if "type" in props then props["type"] else Undefined)
    case _ => Ok(Undefined)
  }

  /** The character of a decimal digit. */
  function Digit(d: nat): (c: char)
    requires d < 10
    ensures '0' <= c <= '9'
    ensures c as int - '0' as int == d
  {
    (48 + d) as char
  }

  /** The number a string of decimal digits denotes, read most significant digit first. */
  function DecimalValue(s: string): int
  {
    if s == [] then 0 else 10 * DecimalValue(s[..|s| - 1]) + (s[|s| - 1] as int - '0' as int)
  }

  /** The decimal numeral of a natural number, without leading zeros. */
  function NatToDecimal(n: nat): (r: string)
    ensures |r| >= 1
    ensures forall i :: 0 <= i < |r| ==> '0' <= r[i] <= '9'
    ensures |r| == 1 <==> n < 10
    ensures r[0] == '0' ==> n == 0
    ensures DecimalValue(r) == n
  {
    if n < 10 then
      [Digit(n)]
    else
      var prefix := NatToDecimal(n / 10);
      var r := prefix + [Digit(n % 10)];
      assert r[..|r| - 1] == prefix;
      r
  }

  /** `String(n)` for an integer: a minus sign before the numeral of a negative one. */
  function IntToDecimal(n: int): (r: string)
    ensures |r| >= 1
    ensures r[0] == '-' <==> n < 0
    ensures n >= 0 ==> DecimalValue(r) == n
    ensures n < 0 ==> DecimalValue(r[1..]) == -n
    // after the sign come only digits, with no leading zero
    ensures var d := if n < 0 then 1 else 0;
            && |r| > d
            && (forall i :: d <= i < |r| ==> '0' <= r[i] <= '9')
            && (r[d] == '0' ==> n == 0)
  {
    if n < 0 then
      var r := "-" + NatToDecimal(-n);
      assert r[1..] == NatToDecimal(-n);
      r
    else
      NatToDecimal(n)
  }

  /** The string an object uses as the key when it is indexed by `v`
      (ToPropertyKey): a string is itself, every other value its `String(v)`. */
  function ToPropertyKey(v: Value): (k: string)
    ensures v.Str? ==> k == v.s
    ensures v.Undefined? ==> k == "undefined"
  {
    match v
    case Undefined => "undefined"
    case Null => "null"
    case Bool(b) => if b then "true" else "false"
    case Num(n) => IntToDecimal(n)
    case Str(s) => s
    case Obj(_) => "[object Object]"
    case Fun(source, _) => source
  }

  /** Two numbers index the same property exactly when they are equal. */
  lemma NumericKeysDistinct(a: int, b: int)
    ensures ToPropertyKey(Num(a)) == ToPropertyKey(Num(b)) <==> a == b
  {
  }
}
