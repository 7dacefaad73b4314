/** Dynamic JavaScript values as the client sees them in untyped response
    bodies and error payloads, with the coercions the client relies on:
    truthiness, `typeof`, property access, the `in` operator, and the string
    operations (`toLowerCase`, `includes`, `startsWith`, `trim`, `join`). */
module JsValue {

  datatype Option<+T> = None | Some(value: T) {
    function GetOr(default: T): T {
      match this
      case Some(v) => v
      case None => default
    }
  }

  /** A JSON-like JavaScript value. `JNaN` is the number NaN; `JUndefined`
      stands for a missing property as well as the value `undefined`. */
  datatype Json =
    | JUndefined
    | JNull
    | JBool(b: bool)
    | JNum(n: real)
    | JNaN
    | JStr(s: string)
    | JArr(items: seq<Json>)
    | JObj(fields: map<string, Json>)

  /** JavaScript truthiness: `undefined`, `null`, `false`, `0`, `NaN` and
      `''` are falsy, everything else (including `[]` and `{}`) is truthy. */
  predicate Truthy(j: Json) {
    match j
    case JUndefined => false
    case JNull => false
    case JBool(b) => b
    case JNum(n) => n != 0.0
    case JNaN => false
    case JStr(s) => s != ""
    case JArr(_) => true
    case JObj(_) => true
  }

  /** `undefined` or `null`: reading a property of one of these throws. */
  predicate IsNullish(j: Json) {
    j.JUndefined? || j.JNull?
  }

  /** The result of the `typeof` operator. */
  function TypeOf(j: Json): (r: string)
    ensures r in {"undefined", "object", "boolean", "number", "string"}
    ensures r == "object" <==> j.JNull? || j.JArr? || j.JObj?
    ensures r == "number" <==> j.JNum? || j.JNaN?
  {
    match j
    case JUndefined => "undefined"
    case JNull => "object"
    case JBool(_) => "boolean"
    case JNum(_) => "number"
    case JNaN => "number"
    case JStr(_) => "string"
    case JArr(_) => "object"
    case JObj(_) => "object"
  }

  /** Property access `j.key` on a value that is not nullish, for the named
      (non-index) keys the client reads: an own property of an object, and
      `undefined` for everything else. */
  function Get(j: Json, key: string): (r: Json)
    ensures j.JObj? && key in j.fields ==> r == j.fields[key]
    ensures !(j.JObj? && key in j.fields) ==> r == JUndefined
  {
    if j.JObj? && key in j.fields then j.fields[key] else JUndefined
  }

  /** Optional chaining `j?.key`, which also yields `undefined` on a
      nullish value; for named keys it coincides with `Get`. */
  function GetOpt(j: Json, key: string): (r: Json)
    ensures IsNullish(j) ==> r == JUndefined
  {
    if IsNullish(j) then JUndefined else Get(j, key)
  }

  /** The `in` operator for a named key on an object or array. */
  predicate HasKey(j: Json, key: string)
    requires j.JObj? || j.JArr?
  {
    j.JObj? && key in j.fields
  }

  /** The `||` operator: the left operand when truthy, else the right one. */
  function Or(a: Json, b: Json): (r: Json)
    ensures Truthy(a) ==> r == a
    ensures !Truthy(a) ==> r == b
  {
    if Truthy(a) then a else b
  }

  // ---------------------------------------------------------------------
  // Strings

  /** `toLowerCase` on one character (ASCII letters only). */
  function LowerChar(c: char): (r: char)
    ensures 'A' <= c <= 'Z' ==> r as int == c as int + 32
    ensures !('A' <= c <= 'Z') ==> r == c
  {
    if 'A' <= c <= 'Z' then (c as int + 32) as char else c
  }

  function Lower(s: string): (r: string)
    ensures |r| == |s|
    ensures forall i :: 0 <= i < |s| ==> r[i] == LowerChar(s[i])
  {
    if s == [] then [] else [LowerChar(s[0])] + Lower(s[1..])
  }

  /** `p` occurs in `s` starting at index `i`. */
  predicate OccursAt(s: string, p: string, i: int) {
    0 <= i && i + |p| <= |s| && s[i..i + |p|] == p
  }

  /** `s.includes(p)`. */
  predicate Contains(s: string, p: string) {
    exists i | 0 <= i <= |s| - |p| :: OccursAt(s, p, i)
  }

  /** `s.startsWith(p)`. */
  predicate StartsWith(s: string, p: string) {
    OccursAt(s, p, 0)
  }

  lemma StartsWithContains(s: string, p: string)
    requires StartsWith(s, p)
    ensures Contains(s, p)
  {
    assert OccursAt(s, p, 0);
  }

  /** Whatever is put in front of a string that contains `p`, the result
      still contains `p`. */
  lemma ContainsAfterPrefix(pre: string, s: string, p: string)
    requires Contains(s, p)
    ensures Contains(pre + s, p)
  {
    var i :| 0 <= i <= |s| - |p| && OccursAt(s, p, i);
    var t := pre + s;
    assert t[|pre| + i..|pre| + i + |p|] == s[i..i + |p|];
    assert OccursAt(t, p, |pre| + i);
  }

  /** The characters that `String.prototype.trim` removes: the ASCII and
      Latin-1 white space, the other Unicode space separators (category
      Zs), the line terminators and the byte-order mark. */
  predicate IsWhiteSpace(c: char) {
    c in {' ', '\t', '\n', '\r', '\U{000B}', '\U{000C}', '\U{00A0}', '\U{2028}', '\U{2029}', '\U{FEFF}'} ||
    c in {'\U{1680}', '\U{202F}', '\U{205F}', '\U{3000}'} ||
    '\U{2000}' <= c <= '\U{200A}'
  }

  /** `s.trim() === ''`. */
  predicate IsBlank(s: string) {
    forall i :: 0 <= i < |s| ==> IsWhiteSpace(s[i])
  }

  /** `parts.join(sep)`. */
  function Join(parts: seq<string>, sep: string): (r: string)
    ensures parts == [] ==> r == ""
    ensures |parts| == 1 ==> r == parts[0]
  {
    if parts == [] then ""
    else if |parts| == 1 then parts[0]
    else parts[0] + sep + Join(parts[1..], sep)
  }

  lemma {:induction false} JoinLength(parts: seq<string>, sep: string, total: nat)
    requires parts != []
    requires total == SumLengths(parts)
    ensures |Join(parts, sep)| == total + (|parts| - 1) * |sep|
  {
    if |parts| > 1 {
      JoinLength(parts[1..], sep, SumLengths(parts[1..]));
    }
  }

  function SumLengths(parts: seq<string>): nat {
    if parts == [] then 0 else |parts[0]| + SumLengths(parts[1..])
  }

  function DigitChar(d: nat): (c: char)
    requires d < 10
    ensures '0' <= c <= '9'
  {
    ('0' as int + d) as char
  }

  /** Decimal text of a natural number, without leading zeros. */
  function NatText(n: nat): (r: string)
    ensures |r| >= 1
    ensures forall i :: 0 <= i < |r| ==> '0' <= r[i] <= '9'
    ensures n < 10 <==> |r| == 1
  {
    if n < 10 then [DigitChar(n)] else NatText(n / 10) + [DigitChar(n % 10)]
  }

  /** Decimal text of an integer, as `String(n)` prints it. */
  function IntText(n: int): (r: string)
    ensures n >= 0 ==> r == NatText(n)
    ensures n < 0 ==> r == "-" + NatText(-n)
  {
    if n >= 0 then NatText(n) else "-" + NatText(-n)
  }

  /** The value of a decimal digit string. */
  function DigitsValue(s: string): int
    requires forall i :: 0 <= i < |s| ==> '0' <= s[i] <= '9'
  {
    if s == [] then 0 else DigitsValue(s[..|s| - 1]) * 10 + (s[|s| - 1] as int - '0' as int)
  }

  /** An array index: a canonical decimal numeral ('0', or digits without
      a leading zero) whose value is below 2^32 - 1. */
  predicate IsIndexName(s: string) {
    |s| > 0 && (forall i :: 0 <= i < |s| ==> '0' <= s[i] <= '9') && (s[0] == '0' ==> |s| == 1) &&
    DigitsValue(s) < 0xFFFF_FFFF
  }

  /** The decimal text reads back as the number it was made from. */
  lemma {:induction false} NatTextValue(n: nat)
    ensures DigitsValue(NatText(n)) == n
  {
    if n >= 10 {
      NatTextValue(n / 10);
      var r := NatText(n);
      assert r[..|r| - 1] == NatText(n / 10);
    }
  }

  /** `String(x)` for a number. Integral values get their exact decimal
      text; a fractional value is shown by the text of its integer part
      (shortest round-trip formatting of doubles is not modelled). */
  function NumberText(x: real): (r: string)
    ensures x == x.Floor as real ==> r == IntText(x.Floor)
  {
    if x == x.Floor as real then IntText(x.Floor)
    else if x >= 0.0 then IntText(x.Floor)
    else IntText(x.Floor + 1)
  }

  /** `String(j)`, as `new Error(j)` and `Array.prototype.join` apply it. */
  function JsString(j: Json): (r: string)
    ensures j.JStr? ==> r == j.s
    decreases j, 0
  {
    match j
    case JUndefined => "undefined"
    case JNull => "null"
    case JBool(b) => if b then "true" else "false"
    case JNum(n) => NumberText(n)
    case JNaN => "NaN"
    case JStr(s) => s
    case JArr(items) => Join(seq(|items|, i requires 0 <= i < |items| => ElementText(items[i])), ",")
    case JObj(_) => "[object Object]"
  }

  /** How `join` shows one element: `null` and `undefined` as ''. */
  function ElementText(e: Json): string
    decreases e, 1
  {
    if IsNullish(e) then "" else JsString(e)
  }

  /** `items.join(sep)`. */
  function ArrayJoin(items: seq<Json>, sep: string): (r: string)
    ensures |items| == 1 ==> r == ElementText(items[0])
    ensures items == [] ==> r == ""
  {
    Join(seq(|items|, i requires 0 <= i < |items| => ElementText(items[i])), sep)
  }
}
