/** The slice of JavaScript semantics the front end relies on: dynamic values, truthiness,
    optional-chaining and strict property reads, `String(v)`, `String.prototype.includes`,
    the exceptions the code can raise, and the JSON codec taken as a pair of functions. */
module Js {

  datatype Option<+T> = None | Some(value: T)

  /** A JavaScript value as this front end inspects one. Numbers are modelled as integers;
      an absent property of a record reads as `Undefined`. */
  datatype Value =
    | Undefined
    | Null
    | Bool(b: bool)
    | Num(n: int)
    | Str(s: string)
    | Arr(items: seq<Value>)
    | Obj(props: map<string, Value>)

  /** JavaScript truthiness (`!!v`). */
  predicate Truthy(v: Value) {
    match v
    case Undefined => false
    case Null => false
    case Bool(b) => b
    case Num(n) => n != 0
    case Str(s) => s != ""
    case Arr(_) => true
    case Obj(_) => true
  }

  predicate IsNullish(v: Value) {
    v.Undefined? || v.Null?
  }

  /** `a || b`: the first operand when it is truthy, otherwise the second. */
  function Or(a: Value, b: Value): Value {
    if Truthy(a) then a else b
  }

  /** `v?.key`. Properties inherited from built-in prototypes are not modelled; none of the
      keys this front end reads is one of them. */
  function OptionalProp(v: Value, key: string): Value {
    match v
    case Obj(m) => if key in m then m[key] else Undefined
    case _ => Undefined
  }

  /** `data?.f1 || data?.f2 || ... || fallback`: the first truthy field, else the fallback. */
  function FirstTruthy(data: Value, fields: seq<string>, fallback: Value): (e: Value)
    ensures Truthy(fallback) ==> Truthy(e)
    ensures e == fallback || exists i :: 0 <= i < |fields| && e == OptionalProp(data, fields[i])
  {
    if fields == [] then fallback
    else if Truthy(OptionalProp(data, fields[0])) then OptionalProp(data, fields[0])
    else
      var rest := FirstTruthy(data, fields[1..], fallback);
      assert rest != fallback ==> exists i :: 1 <= i < |fields| && rest == OptionalProp(data, fields[i]) by {
        if rest != fallback {
          var i :| 0 <= i < |fields[1..]| && rest == OptionalProp(data, fields[1..][i]);
          assert rest == OptionalProp(data, fields[i + 1]);
        }
      }
      rest
  }

  /** The first field whose value is truthy is the one reported. */
  lemma {:induction false} FirstTruthyPicksFirst(data: Value, fields: seq<string>, fallback: Value, i: nat)
    requires i < |fields| && Truthy(OptionalProp(data, fields[i]))
    requires forall j :: 0 <= j < i ==> !Truthy(OptionalProp(data, fields[j]))
    ensures FirstTruthy(data, fields, fallback) == OptionalProp(data, fields[i])
  {
    if i > 0 {
      FirstTruthyPicksFirst(data, fields[1..], fallback, i - 1);
    }
  }

  /** With no truthy field, the fallback is reported. */
  lemma {:induction false} FirstTruthyFallsBack(data: Value, fields: seq<string>, fallback: Value)
    requires forall j :: 0 <= j < |fields| ==> !Truthy(OptionalProp(data, fields[j]))
    ensures FirstTruthy(data, fields, fallback) == fallback
  {
    if fields != [] {
      FirstTruthyFallsBack(data, fields[1..], fallback);
    }
  }

  /** The exceptions the modelled code can raise. Messages of engine-raised errors follow V8. */
  datatype Exception =
    | Error(message: string)
    | TypeError(message: string)
    | URIError(message: string)

  /** A completed call: it returned a value or threw. */
  datatype Outcome<+T> = Returned(value: T) | Threw(exc: Exception)

  /** The TypeError raised by `v.key` when `v` is null or undefined. */
  function ReadError(v: Value, key: string): Exception {
    TypeError("Cannot read properties of " + ToJsString(v) + " (reading '" + key + "')")
  }

  /** `v.key`: throws on null and undefined, reads the property otherwise. */
  function Prop(v: Value, key: string): (r: Outcome<Value>)
    ensures r.Threw? <==> IsNullish(v)
    ensures r.Returned? ==> r.value == OptionalProp(v, key)
  {
    if IsNullish(v) then Threw(ReadError(v, key)) else Returned(OptionalProp(v, key))
  }

  function DigitChar(d: nat): (c: char)
    requires d < 10
    ensures '0' <= c <= '9' && c as int - '0' as int == d
  {
    ('0' as int + d) as char
  }

  predicate AllDigits(s: string) {
    forall i :: 0 <= i < |s| ==> '0' <= s[i] <= '9'
  }

  /** The decimal rendering of a natural number, as `String(n)` gives it below 10^21. */
  function NatToString(n: nat): (s: string)
    ensures |s| >= 1 && AllDigits(s)
    ensures |s| > 1 ==> s[0] != '0'
    decreases n
  {
    if n < 10 then [DigitChar(n)] else NatToString(n / 10) + [DigitChar(n % 10)]
  }

  /** The number a string of decimal digits denotes. */
  function DigitsValue(s: string): nat
    requires AllDigits(s)
  {
    if s == [] then 0 else DigitsValue(s[..|s| - 1]) * 10 + (s[|s| - 1] as int - '0' as int)
  }

  lemma {:induction false} NatToStringRoundTrip(n: nat)
    ensures DigitsValue(NatToString(n)) == n
    decreases n
  {
    if n >= 10 {
      var s := NatToString(n);
      NatToStringRoundTrip(n / 10);
      assert s[..|s| - 1] == NatToString(n / 10);
    }
  }

  /** Distinct numbers render to distinct strings. */
  lemma NatToStringInjective(a: nat, b: nat)
    ensures NatToString(a) == NatToString(b) ==> a == b
  {
    NatToStringRoundTrip(a);
    NatToStringRoundTrip(b);
  }

  function IntToString(n: int): string {
    if n < 0 then "-" + NatToString(-n) else NatToString(n)
  }

  /** `String(v)`. Arrays join their elements with commas, writing null and undefined
      elements as the empty string. */
  function ToJsString(v: Value): string
    decreases v
  {
    match v
    case Undefined => "undefined"
    case Null => "null"
    case Bool(b) => if b then "true" else "false"
    case Num(n) => IntToString(n)
    case Str(s) => s
    case Arr(items) =>
      JoinWithCommas(seq(|items|, i requires 0 <= i < |items| =>
        if IsNullish(items[i]) then "" else ToJsString(items[i])))
    case Obj(_) => "[object Object]"
  }

  function JoinWithCommas(parts: seq<string>): string {
    if parts == [] then ""
    else if |parts| == 1 then parts[0]
    else parts[0] + "," + JoinWithCommas(parts[1..])
  }

  ghost predicate OccursAt(s: string, sub: string, i: int) {
    0 <= i && i + |sub| <= |s| && s[i..i + |sub|] == sub
  }

  /** `s.includes(sub)`. */
  predicate Includes(s: string, sub: string)
    decreases |s|
  {
    if |sub| > |s| then false
    else if s[..|sub|] == sub then true
    else Includes(s[1..], sub)
  }

  /** `Includes` holds exactly when `sub` occurs somewhere in `s`. */
  lemma {:induction false} IncludesIffOccurs(s: string, sub: string)
    ensures Includes(s, sub) <==> exists i :: OccursAt(s, sub, i)
    decreases |s|
  {
    if |sub| > |s| {
      assert forall i :: !OccursAt(s, sub, i);
    } else if s[..|sub|] == sub {
      assert OccursAt(s, sub, 0);
    } else {
      IncludesIffOccurs(s[1..], sub);
      if Includes(s[1..], sub) {
        var i :| OccursAt(s[1..], sub, i);
        assert s[i + 1..i + 1 + |sub|] == s[1..][i..i + |sub|];
        assert OccursAt(s, sub, i + 1);
      } else {
        forall i | OccursAt(s, sub, i)
          ensures false
        {
          assert i != 0;
          assert s[1..][i - 1..i - 1 + |sub|] == s[i..i + |sub|];
          assert OccursAt(s[1..], sub, i - 1);
        }
      }
    }
  }

  /** What `JSON.parse(JSON.stringify(v))` gives back for a value other than undefined:
      undefined object entries are dropped and undefined array elements become null. */
  function JsonNormal(v: Value): (r: Value)
    decreases v
  {
    match v
    case Arr(items) =>
      Arr(seq(|items|, i requires 0 <= i < |items| =>
        if items[i].Undefined? then Null else JsonNormal(items[i])))
    case Obj(m) =>
      Obj(map k | k in m && !m[k].Undefined? :: JsonNormal(m[k]))
    case _ => v
  }

  /** `JSON.stringify` and `JSON.parse`, taken as given functions. */
  datatype Json = Json(stringify: Value -> string, parse: string -> Option<Value>)

  /** The two facts about the JSON codec that the round-trip properties rest on: a JSON text is
      never empty, and parsing what was stringified gives back the normalised value. */
  ghost predicate Faithful(json: Json) {
    forall v: Value {:trigger json.stringify(v)} :: !v.Undefined? ==>
      json.stringify(v) != "" && json.parse(json.stringify(v)) == Some(JsonNormal(v))
  }

  /** A primitive other than undefined survives the JSON round trip unchanged. */
  lemma JsonNormalKeepsPrimitives(v: Value)
    requires !v.Arr? && !v.Obj?
    ensures JsonNormal(v) == v
  {
  }
}
