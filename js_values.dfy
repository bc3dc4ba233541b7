/**
  The JavaScript values the dashboard's components handle, and the few
  language operators they apply to them: truthiness, `a || b`, `String(v)`
  (and template-literal interpolation), `toLowerCase`/`toUpperCase` and
  `localeCompare`.

  Numbers are integers; `localeCompare` is modelled as the total order on
  character codes; case mapping covers the ASCII letters.
 */
module JsValues {

  /** A value that may be absent: JavaScript's `null`/`undefined` versus a value. */
  datatype Option<+T> = None | Some(value: T)

  /** A JSON scalar as it arrives from the API or sits in a table row. */
  datatype JsValue = Undefined | Null | Bool(b: bool) | Num(n: int) | Str(s: string)

  /** A plain JavaScript object of scalars; a key that is present is an own property. */
  type JsObject = map<string, JsValue>

  /** JavaScript truthiness: `undefined`, `null`, `false`, `0` and `""` are falsy. */
  predicate Truthy(v: JsValue) {
    match v
    case Undefined => false
    case Null => false
    case Bool(b) => b
    case Num(n) => n != 0
    case Str(s) => s != ""
  }

  /** The operator `v || d`. */
  function Or(v: JsValue, d: JsValue): JsValue {
    if Truthy(v) then v else d
  }

  /** Property access `obj.key`: `undefined` when the object has no such property. */
  function Get(obj: JsObject, key: string): JsValue {
    if key in obj then obj[key] else Undefined
  }

  /** Exactly the five falsy scalars are falsy. */
  lemma FalsyValues(v: JsValue)
    ensures Truthy(v) <==> v !in {Undefined, Null, Bool(false), Num(0), Str("")}
  {
  }

  /** `v || d` is one of its operands, `v` when that is truthy, and truthy when either operand is. */
  lemma OrLaws(v: JsValue, d: JsValue)
    ensures Or(v, d) == v || Or(v, d) == d
    ensures Truthy(v) ==> Or(v, d) == v
    ensures !Truthy(v) ==> Or(v, d) == d
    ensures Truthy(Or(v, d)) <==> Truthy(v) || Truthy(d)
  {
  }

  /** A property that is present reads as its value; anything but `undefined` comes from a present property. */
  lemma GetLaws(obj: JsObject, key: string)
    ensures key in obj ==> Get(obj, key) == obj[key]
    ensures key !in obj ==> Get(obj, key) == Undefined
    ensures Get(obj, key) != Undefined ==> key in obj && obj[key] == Get(obj, key)
  {
  }

  // ---------------------------------------------------------------------------
  // String(v)
  // ---------------------------------------------------------------------------

  predicate IsDigit(c: char) {
    '0' <= c <= '9'
  }

  function DigitChar(d: nat): (c: char)
    requires d < 10
    ensures IsDigit(c)
  {
    ('0' as int + d) as char
  }

  /** Decimal notation of a natural number, most significant digit first. */
  function NatToString(n: nat): (s: string)
    ensures |s| > 0
    ensures forall i :: 0 <= i < |s| ==> IsDigit(s[i])
    ensures s[0] == '0' <==> n == 0
    ensures n == 0 ==> s == "0"
    decreases n
  {
    if n < 10 then [DigitChar(n)] else NatToString(n / 10) + [DigitChar(n % 10)]
  }

  /** The number a string of decimal digits denotes. */
  function DigitsValue(s: string): nat
    requires forall i :: 0 <= i < |s| ==> IsDigit(s[i])
  {
    if s == [] then 0
    else
      assert IsDigit(s[|s| - 1]);
      DigitsValue(s[..|s| - 1]) * 10 + (s[|s| - 1] as int - '0' as int)
  }

  /** Reading the decimal notation back gives the number. */
  lemma {:induction false} NatToStringValue(n: nat)
    ensures DigitsValue(NatToString(n)) == n
    decreases n
  {
    if n >= 10 {
      var s := NatToString(n);
      assert s[..|s| - 1] == NatToString(n / 10);
      NatToStringValue(n / 10);
    }
  }

  /** `String(n)` for an integer: an optional minus sign, then the digits. */
  function IntToString(n: int): (s: string)
    ensures |s| > 0
    ensures forall i :: 0 <= i < |s| ==> IsDigit(s[i]) || (i == 0 && s[i] == '-')
    ensures n >= 0 ==> (forall i :: 0 <= i < |s| ==> IsDigit(s[i])) && DigitsValue(s) == n
    ensures n < 0 ==> s[0] == '-' && (forall i :: 1 <= i < |s| ==> IsDigit(s[i])) && DigitsValue(s[1..]) == -n
    ensures n >= 0 && s[0] == '0' ==> s == "0"
    ensures n < 0 ==> |s| > 1 && s[1] != '0'
  {
    if n < 0 then
      var d := NatToString(-n);
      NatToStringValue(-n);
      assert ("-" + d)[1..] == d;
      "-" + d
    else
      NatToStringValue(n);
      NatToString(n)
  }

  /** `String(v)`, which is also what `${v}` interpolates. */
  function ToJsString(v: JsValue): string {
    match v
    case Undefined => "undefined"
    case Null => "null"
    case Bool(b) => if b then "true" else "false"
    case Num(n) => IntToString(n)
    case Str(s) => s
  }

  /**
    `String(v)` keeps a string as it is; any other scalar becomes a non-empty
    word or numeral with no quote and no line break; a non-negative number
    becomes digits that read back as that number.
   */
  lemma ToJsStringShape(v: JsValue)
    ensures v.Str? ==> ToJsString(v) == v.s
    ensures !v.Str? ==> |ToJsString(v)| > 0 && '"' !in ToJsString(v) && '\n' !in ToJsString(v)
    ensures v.Num? && v.n >= 0 ==>
      (forall i :: 0 <= i < |ToJsString(v)| ==> IsDigit(ToJsString(v)[i])) && DigitsValue(ToJsString(v)) == v.n
  {
    if v.Num? {
      var s := ToJsString(v);
      assert forall i :: 0 <= i < |s| ==> IsDigit(s[i]) || (i == 0 && s[i] == '-');
    }
  }

  // ---------------------------------------------------------------------------
  // Case mapping (ASCII letters)
  // ---------------------------------------------------------------------------

  function LowerChar(c: char): char {
    if 'A' <= c <= 'Z' then (c as int + 32) as char else c
  }

  function UpperChar(c: char): char {
    if 'a' <= c <= 'z' then (c as int - 32) as char else c
  }

  predicate HasNoUpper(s: string) {
    forall i :: 0 <= i < |s| ==> !('A' <= s[i] <= 'Z')
  }

  /** `s.toLowerCase()`: every letter lowered, every other character kept. */
  function ToLower(s: string): (r: string)
    ensures |r| == |s|
    ensures forall i :: 0 <= i < |s| ==> r[i] == LowerChar(s[i])
    ensures HasNoUpper(r)
  {
    seq(|s|, i requires 0 <= i < |s| => LowerChar(s[i]))
  }

  /** `s.toUpperCase()`: every letter raised, every other character kept. */
  function ToUpper(s: string): (r: string)
    ensures |r| == |s|
    ensures forall i :: 0 <= i < |s| ==> r[i] == UpperChar(s[i])
  {
    seq(|s|, i requires 0 <= i < |s| => UpperChar(s[i]))
  }

  /** Lowering a string that has no upper-case letter changes nothing; so lowering is idempotent. */
  lemma ToLowerFixesLower(s: string)
    requires HasNoUpper(s)
    ensures ToLower(s) == s
  {
  }

  // ---------------------------------------------------------------------------
  // a.localeCompare(b)
  // ---------------------------------------------------------------------------

  /** Three-way comparison of strings by character code, shorter prefix first. */
  function LexCompare(a: string, b: string): (r: int)
    ensures -1 <= r <= 1
    ensures r == 0 <==> a == b
  {
    if a == [] && b == [] then 0
    else if a == [] then -1
    else if b == [] then 1
    else if a[0] < b[0] then -1
    else if a[0] > b[0] then 1
    else
      var r := LexCompare(a[1..], b[1..]);
      assert r == 0 ==> a == [a[0]] + a[1..] == [b[0]] + b[1..] == b;
      assert a == b ==> a[1..] == b[1..];
      r
  }

  /** Swapping the operands negates the comparison. */
  lemma {:induction false} LexCompareAntisymmetric(a: string, b: string)
    ensures LexCompare(b, a) == -LexCompare(a, b)
  {
    if a != [] && b != [] && a[0] == b[0] {
      LexCompareAntisymmetric(a[1..], b[1..]);
    }
  }

  /** The comparison is a total preorder: "not after" is transitive. */
  lemma {:induction false} LexCompareTransitive(a: string, b: string, c: string)
    requires LexCompare(a, b) <= 0 && LexCompare(b, c) <= 0
    ensures LexCompare(a, c) <= 0
  {
    if a != [] && b != [] && c != [] && a[0] == b[0] == c[0] {
      LexCompareTransitive(a[1..], b[1..], c[1..]);
    }
  }
}
