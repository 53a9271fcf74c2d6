/** JavaScript values as they cross the bridge: the JSON shapes plus `undefined`,
    with the handful of JavaScript conversions the core relies on. Numbers are
    integers here; see README for what that leaves out. */
module Json {

  datatype Option<+T> = None | Some(value: T)

  /** The outcome of a step that may throw; `error` is the thrown message. */
  datatype Result<+T> = Ok(value: T) | Err(error: string)

  datatype Value =
    | Undefined
    | Null
    | Bool(b: bool)
    | Num(n: int)
    | Str(s: string)
    | Arr(items: seq<Value>)
    | Obj(fields: map<string, Value>)

  /** The message of the TypeError JavaScript throws when reading a property of null or
      undefined, iterating a non-iterable, calling a missing method or converting to a
      string an object that has no primitive value (see `Stringable`). */
  const TypeError := "TypeError"

  const EmptyObject := Obj(map[])

  /** JavaScript truthiness: `undefined`, `null`, `false`, `0` and `""` are falsy. */
  predicate Truthy(v: Value) {
    match v
    case Undefined => false
    case Null => false
    case Bool(b) => b
    case Num(n) => n != 0
    case Str(s) => s != ""
    case _ => true
  }

  /** `v == null` with JavaScript's loose equality. */
  predicate Nullish(v: Value) {
    v.Undefined? || v.Null?
  }

  /** `typeof v === 'object'`, which includes arrays and null. */
  predicate IsObjectType(v: Value) {
    v.Null? || v.Arr? || v.Obj?
  }

  /** The property read `v.key` on a value that is not nullish: own keys of an object,
      `undefined` for everything else. */
  function Get(v: Value, key: string): Value {
    if v.Obj? && key in v.fields then v.fields[key] else Undefined
  }

  /** `v || d` */
  function Or(v: Value, d: Value): Value {
    if Truthy(v) then v else d
  }

  /** `v ?? d` */
  function Coalesce(v: Value, d: Value): Value {
    if Nullish(v) then d else v
  }

  function DigitChar(d: nat): char
    requires d < 10
  {
    "0123456789"[d]
  }

  /** Decimal rendering of a natural number, as `String(n)` gives it. */
  function NatToString(n: nat): string
    decreases n
  {
    if n < 10 then [DigitChar(n)] else NatToString(n / 10) + [DigitChar(n % 10)]
  }

  function IntToString(i: int): string {
    if i < 0 then "-" + NatToString(-i) else NatToString(i)
  }

  /** `String(v)` returns rather than throws. Converting an object calls its `toString`
      and then its `valueOf`, taking the first primitive result: an object without an own
      `toString` inherits the one that gives "[object Object]", but an own `toString` of a
      parsed value is data, not a function, and `valueOf` returns the object itself, so the
      conversion throws a TypeError. Arrays convert each element that is not nullish. */
  predicate Stringable(v: Value)
    decreases v
  {
    match v
    case Arr(items) => forall i :: 0 <= i < |items| ==> Nullish(items[i]) || Stringable(items[i])
    case Obj(fields) => "toString" !in fields
    case _ => true
  }

  /** `String(v)`, which is also how `obj[v]` turns `v` into a property key, how a template
      literal renders `v` and how `new Error(v)` and `s.startsWith(v)` read their argument. */
  function ToJsString(v: Value): (r: Result<string>)
    ensures r.Ok? <==> Stringable(v)
    ensures r.Err? ==> r.error == TypeError
    ensures v.Str? ==> r == Ok(v.s)
  {
    if Stringable(v) then Ok(JsString(v)) else Err(TypeError)
  }

  /** The string `String(v)` returns. Arrays join their elements with commas, with null and
      undefined elements rendered as empty strings. */
  function JsString(v: Value): string
    requires Stringable(v)
    decreases v
  {
    match v
    case Undefined => "undefined"
    case Null => "null"
    case Bool(b) => if b then "true" else "false"
    case Num(n) => IntToString(n)
    case Str(s) => s
    case Arr(items) =>
      JoinWithCommas(seq(|items|, i requires 0 <= i < |items| =>
        if Nullish(items[i]) then "" else JsString(items[i])))
    case Obj(_) => "[object Object]"
  }

  function JoinWithCommas(parts: seq<string>): string {
    if |parts| == 0 then ""
    else if |parts| == 1 then parts[0]
    else parts[0] + "," + JoinWithCommas(parts[1..])
  }

  lemma {:induction false} NatToStringNonEmpty(n: nat)
    ensures |NatToString(n)| >= 1
    decreases n
  {
    if n >= 10 {
      NatToStringNonEmpty(n / 10);
    }
  }

  /** Distinct counter values give distinct request ids. */
  lemma {:induction false} NatToStringInjective(a: nat, b: nat)
    requires NatToString(a) == NatToString(b)
    ensures a == b
    decreases a
  {
    var sa, sb := NatToString(a), NatToString(b);
    if a < 10 && b < 10 {
      assert DigitChar(a) == sa[0] == sb[0] == DigitChar(b);
    } else if a < 10 {
      NatToStringNonEmpty(b / 10);
      assert false;
    } else if b < 10 {
      NatToStringNonEmpty(a / 10);
      assert false;
    } else {
      var pa, pb := NatToString(a / 10), NatToString(b / 10);
      assert sa == pa + [DigitChar(a % 10)] && sb == pb + [DigitChar(b % 10)];
      assert DigitChar(a % 10) == sa[|sa| - 1] == sb[|sb| - 1] == DigitChar(b % 10);
      assert pa == sa[..|sa| - 1] == sb[..|sb| - 1] == pb;
      NatToStringInjective(a / 10, b / 10);
    }
  }
}
