/** The JavaScript values that reach the two servers as request data, and the three
    operations the servers apply to them: truthiness (`||`), property access and `String(v)`. */
module JsValues {
  import opened Wrappers

  /** A value as JSON produces it, plus `undefined`. Numbers are integers here. */
  datatype JsValue =
    | Undefined
    | Null
    | Bool(b: bool)
    | Num(n: int)
    | Str(s: string)
    | Arr(items: seq<JsValue>)
    | Obj(fields: map<string, JsValue>)

  /** JavaScript truthiness: `undefined`, `null`, `false`, `0` and `""` are falsy. */
  predicate Truthy(v: JsValue) {
    match v
    case Undefined => false
    case Null => false
    case Bool(b) => b
    case Num(n) => n != 0
    case Str(s) => s != ""
    case Arr(_) => true
    case Obj(_) => true
  }

  /** `a || b`. */
  function Or(a: JsValue, b: JsValue): JsValue {
    if Truthy(a) then a else b
  }

  /** `v[key]` on a value that is neither `null` nor `undefined`: only an object's own
      fields are found. */
  function Member(v: JsValue, key: string): JsValue {
    if v.Obj? && key in v.fields then v.fields[key] else Undefined
  }

  /** `v.key`, which throws a TypeError (`None`) when `v` is `null` or `undefined`. */
  function GetMember(v: JsValue, key: string): (r: Option<JsValue>)
    ensures r.None? <==> v == Undefined || v == Null
    ensures forall fields :: v == Obj(fields) && key in fields ==> r == Some(fields[key])
  {
    if v == Undefined || v == Null then None else Some(Member(v, key))
  }

  predicate IsDigit(c: char) {
    '0' <= c <= '9'
  }

  function Digit(d: nat): (c: char)
    requires d < 10
    ensures IsDigit(c) && c as int - '0' as int == d
  {
    "0123456789"[d]
  }

  /** The value of a string of decimal digits. */
  function DecimalValue(r: string): nat
    requires forall i :: 0 <= i < |r| ==> IsDigit(r[i])
  {
    if r == [] then 0
    else
      assert IsDigit(r[|r| - 1]);
      DecimalValue(r[..|r| - 1]) * 10 + (r[|r| - 1] as int - '0' as int)
  }

  /** The shortest decimal numeral of `n`: digits only, no leading zero. */
  function NatToDecimal(n: nat): (r: string)
    ensures r != []
    ensures forall i :: 0 <= i < |r| ==> IsDigit(r[i])
    ensures r[0] == '0' ==> r == "0"
  {
    if n < 10 then [Digit(n)] else NatToDecimal(n / 10) + [Digit(n % 10)]
  }

  /** Reading back the numeral gives the number. */
  lemma {:induction false} DecimalRoundTrip(n: nat)
    ensures DecimalValue(NatToDecimal(n)) == n
  {
    if n >= 10 {
      var r := NatToDecimal(n);
      assert r[..|r| - 1] == NatToDecimal(n / 10);
      DecimalRoundTrip(n / 10);
    }
  }

  /** `String(n)` for an integer. */
  function NumberToString(n: int): string {
    if n < 0 then "-" + NatToDecimal(-n) else NatToDecimal(n)
  }

  /** `strs.join(",")`. */
  function JoinComma(strs: seq<string>): string {
    if strs == [] then "" else if |strs| == 1 then strs[0]
    else JoinComma(strs[..|strs| - 1]) + "," + strs[|strs| - 1]
  }

  /** `String(v)`. An array is joined with commas, its `null` and `undefined` elements
      written as empty strings. */
  function ToStr(v: JsValue): string {
    match v
    case Undefined => "undefined"
    case Null => "null"
    case Bool(b) => if b then "true" else "false"
    case Num(n) => NumberToString(n)
    case Str(s) => s
    case Arr(items) =>
      JoinComma(seq(|items|, i requires 0 <= i < |items| =>
        if items[i] == Undefined || items[i] == Null then "" else ToStr(items[i])))
    case Obj(_) => "[object Object]"
  }

  /** `String(v || "")`, how both servers read the `email` field. */
  function StringOrEmpty(v: JsValue): string {
    ToStr(Or(v, Str("")))
  }

  /** A string field is taken as it is, a falsy field gives the empty string, and a
      truthy non-string field gives its `String` rendering. */
  lemma StringOrEmptyCases(v: JsValue)
    ensures v.Str? ==> StringOrEmpty(v) == v.s
    ensures !Truthy(v) ==> StringOrEmpty(v) == ""
    ensures Truthy(v) ==> StringOrEmpty(v) == ToStr(v)
    ensures v.Num? && v.n != 0 ==> StringOrEmpty(v) != ""
  {
  }
}
