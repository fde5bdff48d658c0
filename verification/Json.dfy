/** JSON values and the keys of stream maps. */
module Json {
  import opened Wrappers

  datatype Num = Int(i: int) | Float(r: real)

  datatype JValue =
    | JNull
    | JBool(b: bool)
    | JNumber(n: Num)
    | JString(s: string)
    | JArray(items: seq<JValue>)
    | JObject(fields: map<string, JValue>)

  predicate IsI64(n: Num) {
    n.Int? && -0x8000_0000_0000_0000 <= n.i < 0x8000_0000_0000_0000
  }

  predicate IsU64(n: Num) {
    n.Int? && 0 <= n.i < 0x1_0000_0000_0000_0000
  }

  const KEY_FIELD_NAME := "key"
  const VALUE_FIELD_NAME := "value"

  datatype StreamMapKey = Str(s: string) | U64(u: int) | I64(i: int) {
    /** The number is in the range of its type. */
    predicate Valid() {
      match this
      case Str(_) => true
      case U64(u) => IsU64(Int(u))
      case I64(i) => IsI64(Int(i))
    }

    function ToJValue(): JValue {
      match this
      case Str(s) => JString(s)
      case U64(u) => JNumber(Int(u))
      case I64(i) => JNumber(Int(i))
    }

    /** Integers and strings share one name space: 42 and "42" give the same field name. */
    function ToKey(): string {
      match this
      case Str(s) => s
      case U64(u) => Decimal(u)
      case I64(i) => Decimal(i)
    }
  }

  function KeyFromValue(v: JValue): Option<StreamMapKey> {
    match v
    case JString(s) => Some(Str(s))
    case JNumber(n) => if IsI64(n) then Some(I64(n.i)) else if IsU64(n) then Some(U64(n.i)) else None
    case _ => None
  }

  function FromKeyValue(key: StreamMapKey, value: JValue): JValue {
    JObject(map[VALUE_FIELD_NAME := value, KEY_FIELD_NAME := key.ToJValue()])
  }

  function Digit(d: nat): char
    requires d < 10
  {
    ['0', '1', '2', '3', '4', '5', '6', '7', '8', '9'][d]
  }

  function NatDecimal(n: nat): string {
    if n < 10 then [Digit(n)] else NatDecimal(n / 10) + [Digit(n % 10)]
  }

  function Decimal(i: int): string {
    if i < 0 then "-" + NatDecimal(-i) else NatDecimal(i)
  }
}
