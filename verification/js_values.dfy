/**
 * The slice of JavaScript value semantics the widget relies on: the shape of
 * a decoded response body, truthiness (what `||` and `if (x)` test), property
 * access, `Object.keys(v).length`, `String(v)`, `String.prototype.trim` and
 * the decimal text of an integer.
 */
module JsValues {

  datatype Option<T> = None | Some(value: T)

  /**
   * A decoded body or field. Numbers are integers in this model. `Native`
   * is a built-in function reached through a prototype, such as the
   * `String.prototype.link` method that `s.link` finds on a string.
   */
  datatype Value =
    | Undefined
    | Null
    | Bool(b: bool)
    | Num(n: int)
    | Str(s: string)
    | Arr(items: seq<Value>)
    | Obj(fields: map<string, Value>)
    | Native(name: string)

  /** What `s.link` finds on any string: the inherited `String.prototype.link` method. */
  const StringLink: Value := Native("link")

  /** `null` and `undefined`: the two values whose properties cannot be read. */
  predicate Nullish(v: Value) {
    v.Undefined? || v.Null?
  }

  /** What `if (v)` and `v || w` test. */
  predicate Truthy(v: Value) {
    match v
    case Undefined => false
    case Null => false
    case Bool(b) => b
    case Num(n) => n != 0
    case Str(s) => s != ""
    case Arr(_) => true
    case Obj(_) => true
    case Native(_) => true
  }

  /** `v || fallback` */
  function OrElse(v: Value, fallback: Value): Value {
    if Truthy(v) then v else fallback
  }

  lemma OrElseKeepsTruth(v: Value, fallback: Value)
    ensures Truthy(OrElse(v, fallback)) <==> Truthy(v) || Truthy(fallback)
    ensures !Truthy(v) ==> OrElse(v, fallback) == fallback
  {
  }

  /** `String(s.link)`: the source text a built-in function shows. */
  lemma StringLinkText()
    ensures ToJsString(StringLink) == "function link() { [native code] }"
  {
  }

  /**
   * `v.key` on a value that is not nullish, for the keys the widget reads.
   * A string inherits `link` from `String.prototype`; apart from that,
   * numbers, booleans, strings, arrays and functions have no property of
   * those names, own or inherited, so the result is `undefined` for them.
   */
  function Get(v: Value, key: string): Value
    requires !Nullish(v)
  {
    match v
    case Obj(m) => if key in m then m[key] else Undefined
    case Str(_) => if key == "link" then StringLink else Undefined
    case _ => Undefined
  }

  /** `v.key || ''`, the default every configuration setting gets. */
  function OrEmpty(v: Value, key: string): (r: Value)
    requires !Nullish(v)
    ensures Truthy(r) || r == Str("")
    ensures Truthy(Get(v, key)) ==> r == Get(v, key)
  {
    OrElse(Get(v, key), Str(""))
  }

  /** `Object.keys(v).length`; `None` stands for the TypeError that nullish values raise. */
  function KeyCount(v: Value): (r: Option<nat>)
    ensures r.None? <==> Nullish(v)
    ensures (v.Num? || v.Bool?) ==> r == Some(0)
  {
    match v
    case Undefined => None
    case Null => None
    case Bool(_) => Some(0)
    case Num(_) => Some(0)
    case Str(s) => Some(|s|)
    case Arr(items) => Some(|items|)
    case Obj(m) => Some(|m|)
    case Native(_) => Some(0)
  }

  // ---------------------------------------------------------------------
  // Decimal text of integers (what `'' + n` produces for an integer n)

  function DigitChar(d: nat): (c: char)
    requires d < 10
    ensures '0' <= c <= '9'
  {
    ['0', '1', '2', '3', '4', '5', '6', '7', '8', '9'][d]
  }

  function DigitValue(c: char): (d: nat)
    requires '0' <= c <= '9'
    ensures d < 10
  {
    (c as int - '0' as int) as nat
  }

  predicate IsDigit(c: char) {
    '0' <= c <= '9'
  }

  predicate AllDigits(s: string) {
    forall k :: 0 <= k < |s| ==> IsDigit(s[k])
  }

  function NatToString(n: nat): (r: string)
    ensures |r| >= 1 && AllDigits(r)
    decreases n
  {
    if n < 10 then [DigitChar(n)] else NatToString(n / 10) + [DigitChar(n % 10)]
  }

  /** Decimal text of an integer, with a leading '-' when it is negative. */
  function IntToString(n: int): string {
    if n < 0 then "-" + NatToString(-n) else NatToString(n)
  }

  /** The value of a run of decimal digits (the inverse of NatToString). */
  function DigitsValue(s: string): nat
    requires AllDigits(s)
    decreases |s|
  {
    if s == [] then 0 else DigitsValue(s[..|s| - 1]) * 10 + DigitValue(s[|s| - 1])
  }

  lemma DigitRoundTrip(d: nat)
    requires d < 10
    ensures DigitValue(DigitChar(d)) == d
  {
  }

  /** Reading back the text of a natural number gives the number. */
  lemma {:induction false} NatToStringRoundTrip(n: nat)
    ensures DigitsValue(NatToString(n)) == n
    decreases n
  {
    var s := NatToString(n);
    if n < 10 {
      DigitRoundTrip(n);
    } else {
      NatToStringRoundTrip(n / 10);
      assert s[..|s| - 1] == NatToString(n / 10);
      DigitRoundTrip(n % 10);
    }
  }

  /** The text has no superfluous leading zero. */
  lemma {:induction false} NatToStringNoLeadingZero(n: nat)
    ensures NatToString(n)[0] == '0' <==> n == 0
    decreases n
  {
    if n >= 10 {
      NatToStringNoLeadingZero(n / 10);
    }
  }

  /** Distinct numbers have distinct texts. */
  lemma NatToStringInjective(m: nat, n: nat)
    requires NatToString(m) == NatToString(n)
    ensures m == n
  {
    NatToStringRoundTrip(m);
    NatToStringRoundTrip(n);
  }

  // ---------------------------------------------------------------------
  // String(v)

  /** `String(v)`, as `RegExp.prototype.test` applies it to its argument. */
  function ToJsString(v: Value): string
    decreases v
  {
    match v
    case Undefined => "undefined"
    case Null => "null"
    case Bool(b) => if b then "true" else "false"
    case Num(n) => IntToString(n)
    case Str(s) => s
    case Arr(items) => JoinItems(v, items)
    case Obj(_) => "[object Object]"
    case Native(name) => "function " + name + "() { [native code] }"
  }

  /** `Array.prototype.join(',')`: nullish elements contribute the empty string. */
  function JoinItems(whole: Value, items: seq<Value>): string
    requires whole.Arr? && forall k :: 0 <= k < |items| ==> items[k] in whole.items
    decreases whole, |items|
  {
    if items == [] then ""
    else
      var last := items[|items| - 1];
      var text := if Nullish(last) then "" else ToJsString(last);
      if |items| == 1 then text else JoinItems(whole, items[..|items| - 1]) + "," + text
  }

  /** What assigning `v` to `textContent` shows: nothing for null and undefined, `String(v)` otherwise. */
  function TextContent(v: Value): (t: string)
    ensures v.Str? ==> t == v.s
    ensures Nullish(v) ==> t == ""
  {
    if Nullish(v) then "" else ToJsString(v)
  }

  // ---------------------------------------------------------------------
  // String.prototype.trim

  /** White space and line terminators as ECMAScript's trim removes them. */
  predicate IsJsSpace(c: char) {
    c == '\t' || c == '\n' || c == '\U{000B}' || c == '\U{000C}' || c == '\r' || c == ' '
    || c == '\U{00A0}' || c == '\U{1680}' || ('\U{2000}' <= c <= '\U{200A}')
    || c == '\U{2028}' || c == '\U{2029}' || c == '\U{202F}' || c == '\U{205F}'
    || c == '\U{3000}' || c == '\U{FEFF}'
  }

  function TrimStart(s: string): (r: string)
    ensures |r| <= |s| && r == s[|s| - |r|..]
    ensures r == [] || !IsJsSpace(r[0])
    decreases |s|
  {
    if s != [] && IsJsSpace(s[0]) then TrimStart(s[1..]) else s
  }

  function TrimEnd(s: string): (r: string)
    ensures |r| <= |s| && r == s[..|r|]
    ensures r == [] || !IsJsSpace(r[|r| - 1])
    decreases |s|
  {
    if s != [] && IsJsSpace(s[|s| - 1]) then TrimEnd(s[..|s| - 1]) else s
  }

  function Trim(s: string): string {
    TrimEnd(TrimStart(s))
  }

  predicate AllSpace(s: string) {
    forall k :: 0 <= k < |s| ==> IsJsSpace(s[k])
  }

  lemma {:induction false} TrimStartEmptyIff(s: string)
    ensures TrimStart(s) == "" <==> AllSpace(s)
    decreases |s|
  {
    if s != [] && IsJsSpace(s[0]) {
      TrimStartEmptyIff(s[1..]);
      assert AllSpace(s) <==> AllSpace(s[1..]) by {
        if AllSpace(s[1..]) {
          forall k | 0 <= k < |s| ensures IsJsSpace(s[k]) {
            if k > 0 { assert s[k] == s[1..][k - 1]; }
          }
        }
      }
    }
  }

  lemma {:induction false} TrimEndEmptyIff(s: string)
    ensures TrimEnd(s) == "" <==> AllSpace(s)
    decreases |s|
  {
    if s != [] && IsJsSpace(s[|s| - 1]) {
      TrimEndEmptyIff(s[..|s| - 1]);
      assert AllSpace(s) <==> AllSpace(s[..|s| - 1]) by {
        if AllSpace(s[..|s| - 1]) {
          forall k | 0 <= k < |s| ensures IsJsSpace(s[k]) {
            if k < |s| - 1 { assert s[k] == s[..|s| - 1][k]; }
          }
        }
      }
    }
  }

  /** A string with no white space at either end is its own trim. */
  lemma TrimUntouched(s: string)
    requires s != [] && !IsJsSpace(s[0]) && !IsJsSpace(s[|s| - 1])
    ensures Trim(s) == s
  {
    assert TrimStart(s) == s;
  }

  /** Digits are not white space. */
  lemma DigitNotSpace(c: char)
    requires IsDigit(c)
    ensures !IsJsSpace(c) && c != '-' && c != '+'
  {
  }

  /** Trimming yields the empty string exactly for strings made only of white space. */
  lemma TrimEmptyIff(s: string)
    ensures Trim(s) == "" <==> AllSpace(s)
  {
    TrimStartEmptyIff(s);
    TrimEndEmptyIff(TrimStart(s));
  }

  /** Concatenation is associative; stated once for any element type, where it is cheap to prove. */
  lemma AppendAssoc<T>(a: seq<T>, b: seq<T>, c: seq<T>)
    ensures (a + b) + c == a + (b + c)
  {
  }
}
