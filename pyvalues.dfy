/** The Python values the services inspect: connector replies, SDK objects probed with
    `hasattr`/`getattr`, dictionaries probed with `in`/`.get`, and their truthiness. */
module PyValues {

  /** A Python value. `Obj` is an SDK object whose attributes are probed by name;
      `Dict` is a `dict` with string keys. */
  datatype Value =
    | Null
    | Bool(b: bool)
    | Int(i: int)
    | Str(s: string)
    | List(items: seq<Value>)
    | Dict(entries: map<string, Value>)
    | Obj(attrs: map<string, Value>)

  /** Python truthiness (`if v:`). An SDK object defines neither `__bool__` nor `__len__`. */
  predicate Truthy(v: Value) {
    match v
    case Null => false
    case Bool(b) => b
    case Int(i) => i != 0
    case Str(s) => s != ""
    case List(items) => items != []
    case Dict(entries) => entries != map[]
    case Obj(_) => true
  }

  /** `hasattr(v, name)` for the attribute names the services probe. */
  predicate HasAttr(v: Value, name: string) {
    v.Obj? && name in v.attrs
  }

  /** `getattr(v, name, default)`. */
  function GetAttr(v: Value, name: string, default: Value): (r: Value)
    ensures HasAttr(v, name) ==> r == v.attrs[name]
    ensures !HasAttr(v, name) ==> r == default
  {
    if HasAttr(v, name) then v.attrs[name] else default
  }

  /** `d.get(key, default)` on a dictionary. */
  function Get(d: map<string, Value>, key: string, default: Value): Value {
    if key in d then d[key] else default
  }

  /** The name `type(v).__name__` gives; an SDK object's own class name is not modelled. */
  function TypeName(v: Value): string {
    match v
    case Null => "NoneType"
    case Bool(_) => "bool"
    case Int(_) => "int"
    case Str(_) => "str"
    case List(_) => "list"
    case Dict(_) => "dict"
    case Obj(_) => "object"
  }

  function DigitChar(d: nat): (c: char)
    requires d < 10
    ensures '0' <= c <= '9'
  {
    ('0' as int + d) as char
  }

  /** The value of one decimal digit. */
  function DigitValue(c: char): (d: int)
    ensures '0' <= c <= '9' ==> 0 <= d < 10
  {
    c as int - '0' as int
  }

  /** The number a string of decimal digits denotes, read left to right. */
  function DecimalValue(s: string): (v: int)
    ensures (forall k :: 0 <= k < |s| ==> '0' <= s[k] <= '9') ==> 0 <= v
  {
    if s == [] then 0 else 10 * DecimalValue(s[..|s| - 1]) + DigitValue(s[|s| - 1])
  }

  /** Decimal notation of a natural number, as `str(n)` writes it. */
  function NatToString(n: nat): (r: string)
    ensures r != []
    ensures forall k :: 0 <= k < |r| ==> '0' <= r[k] <= '9'
    ensures (r[0] == '0') == (n == 0)
  {
    if n < 10 then [DigitChar(n)] else NatToString(n / 10) + [DigitChar(n % 10)]
  }

  /** The digits `NatToString` writes denote the number itself. */
  lemma {:induction false} NatToStringValue(n: nat)
    ensures DecimalValue(NatToString(n)) == n
  {
    var s := NatToString(n);
    if n >= 10 {
      assert s[..|s| - 1] == NatToString(n / 10);
      NatToStringValue(n / 10);
    }
  }

  /** `str(i)` for an integer. */
  function IntToString(i: int): string {
    if i < 0 then "-" + NatToString(-i) else NatToString(i)
  }

  /** `str(v)`, exact for None, booleans, integers and strings; a container is shown
      by its type name only. */
  function Show(v: Value): string {
    match v
    case Null => "None"
    case Bool(b) => if b then "True" else "False"
    case Int(i) => IntToString(i)
    case Str(s) => s
    case List(_) => "<list>"
    case Dict(_) => "<dict>"
    case Obj(_) => "<object>"
  }
}
