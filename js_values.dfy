/** The part of JavaScript's value semantics that the documentation page relies on:
    truthiness, the `||` operator on optional strings, `String.prototype.indexOf`,
    `String.prototype.trim` and the decimal form of an index in a template literal. */
module JsValues {

  datatype Option<+T> = None | Some(value: T) {
    /** `x || fallback` for a value whose every present form is truthy (arrays, objects). */
    function GetOr(default: T): T {
      match this
      case Some(v) => v
      case None => default
    }
  }

  /** A JavaScript value. Objects other than arrays (React elements, components,
      JSON documents, link objects) are opaque references. Numbers are integers:
      NaN and fractions are not modelled. */
  datatype Value =
    | Undefined
    | Null
    | Bool(b: bool)
    | Num(n: int)
    | Str(s: string)
    | Arr(items: seq<Value>)
    | Obj(ref: nat)

  /** JavaScript's ToBoolean: what `if (v)`, `v && …` and `v || …` test. */
  predicate Truthy(v: Value) {
    match v
    case Undefined => false
    case Null => false
    case Bool(b) => b
    case Num(n) => n != 0
    case Str(s) => s != ""
    case Arr(_) => true
    case Obj(_) => true
  }

  /** Truthiness of an optional string property: absent, undefined and "" are all falsy. */
  predicate IsSet(o: Option<string>) {
    o.Some? && o.value != ""
  }

  /** `a || b` on optional strings: the left operand when it is truthy, else the right one. */
  function Or(a: Option<string>, b: Option<string>): (r: Option<string>)
    ensures IsSet(a) ==> r == a
    ensures !IsSet(a) ==> r == b
    ensures IsSet(r) <==> IsSet(a) || IsSet(b)
  {
    if IsSet(a) then a else b
  }

  // ---------------------------------------------------------------------------
  // indexOf

  /** `t` occurs in `s` starting at position `i`. */
  predicate OccursAt(s: string, t: string, i: int) {
    0 <= i && i + |t| <= |s| && s[i..i + |t|] == t
  }

  ghost predicate Contains(s: string, t: string) {
    exists i :: OccursAt(s, t, i)
  }

  /** The search loop of `s.indexOf(t, i)`: the first occurrence at or after `i`, or -1. */
  function IndexFrom(s: string, t: string, i: nat): (r: int)
    requires i <= |s|
    ensures r == -1 || (i <= r && OccursAt(s, t, r))
    ensures r == -1 <==> forall j :: i <= j ==> !OccursAt(s, t, j)
    ensures forall j :: i <= j < r ==> !OccursAt(s, t, j)
    decreases |s| - i
  {
    if i + |t| > |s| then -1
    else if s[i..i + |t|] == t then i
    else IndexFrom(s, t, i + 1)
  }

  /** `s.indexOf(t)`: the first position at which `t` occurs in `s`, or -1 when it does not occur. */
  function IndexOf(s: string, t: string): (r: int)
    ensures r == -1 <==> !Contains(s, t)
    ensures r != -1 ==> OccursAt(s, t, r) && forall j :: 0 <= j < r ==> !OccursAt(s, t, j)
  {
    IndexFrom(s, t, 0)
  }

  // ---------------------------------------------------------------------------
  // trim

  /** The code points `String.prototype.trim` removes: the WhiteSpace and
      LineTerminator productions of ECMA-262 (6th edition, sections 11.2 and 11.3),
      with the Unicode space separators (category Zs) written out. */
  predicate IsTrimmable(c: char) {
    c == '\t' || c == '\n' || c == '\U{000B}' || c == '\U{000C}' || c == '\r' || c == ' '
    || c == '\U{00A0}' || c == '\U{1680}' || ('\U{2000}' <= c <= '\U{200A}')
    || c == '\U{2028}' || c == '\U{2029}' || c == '\U{202F}' || c == '\U{205F}'
    || c == '\U{3000}' || c == '\U{FEFF}'
  }

  /** `s` with its leading trimmable characters removed. */
  function TrimStart(s: string): (r: string)
    ensures |r| <= |s| && r == s[|s| - |r|..]
    ensures forall i :: 0 <= i < |s| - |r| ==> IsTrimmable(s[i])
    ensures r != [] ==> !IsTrimmable(r[0])
  {
    if s != [] && IsTrimmable(s[0]) then TrimStart(s[1..]) else s
  }

  /** `s` with its trailing trimmable characters removed. */
  function TrimEnd(s: string): (r: string)
    ensures |r| <= |s| && r == s[..|r|]
    ensures forall i :: |r| <= i < |s| ==> IsTrimmable(s[i])
    ensures r != [] ==> !IsTrimmable(r[|r| - 1])
  {
    if s != [] && IsTrimmable(s[|s| - 1]) then TrimEnd(s[..|s| - 1]) else s
  }

  /** `s.trim()`: the longest infix of `s` that neither starts nor ends with a
      trimmable character, obtained by cutting trimmable characters from both ends. */
  function Trim(s: string): (r: string)
    ensures exists a, b :: 0 <= a <= b <= |s| && r == s[a..b]
                        && (forall i :: 0 <= i < a ==> IsTrimmable(s[i]))
                        && (forall i :: b <= i < |s| ==> IsTrimmable(s[i]))
    ensures r != [] ==> !IsTrimmable(r[0]) && !IsTrimmable(r[|r| - 1])
    ensures r == [] <==> forall i :: 0 <= i < |s| ==> IsTrimmable(s[i])
  {
    var front := TrimStart(s);
    var r := TrimEnd(front);
    TrimBounds(s, front, r, |s| - |front|);
    r
  }

  /** Where the two cuts of `Trim` fall in `s`: `r` starts at `a` and everything after it is trimmable. */
  lemma TrimBounds(s: string, front: string, r: string, a: nat)
    requires front == TrimStart(s) && r == TrimEnd(front) && a == |s| - |front|
    ensures a + |r| <= |s| && r == s[a..a + |r|]
    ensures forall i :: a + |r| <= i < |s| ==> IsTrimmable(s[i])
  {
    InfixOfSuffix(s, front, r, a);
    forall i | a + |r| <= i < |s| ensures IsTrimmable(s[i]) {
      assert s[i] == front[i - a];
    }
  }

  lemma InfixOfSuffix(s: string, front: string, r: string, a: nat)
    requires a <= |s| && front == s[a..] && |r| <= |front| && r == front[..|r|]
    ensures r == s[a..a + |r|]
  {
  }

  // ---------------------------------------------------------------------------
  // decimal numerals

  function Digit(d: nat): (c: char)
    requires d < 10
    ensures '0' <= c <= '9' && c as int - '0' as int == d
  {
    ('0' as int + d) as char
  }

  /** How `${n}` prints a non-negative integer: its decimal digits, most significant first. */
  function DecimalString(n: nat): (r: string)
    ensures r != [] && forall i :: 0 <= i < |r| ==> '0' <= r[i] <= '9'
    ensures |r| > 1 ==> r[0] != '0'
  {
    if n < 10 then [Digit(n)] else DecimalString(n / 10) + [Digit(n % 10)]
  }

  /** The number a string of decimal digits denotes. */
  function DecimalValue(r: string): nat
    requires forall i :: 0 <= i < |r| ==> '0' <= r[i] <= '9'
  {
    if r == [] then 0 else 10 * DecimalValue(r[..|r| - 1]) + (r[|r| - 1] as int - '0' as int)
  }

  /** Reading back the printed index gives the index: distinct indices print differently. */
  lemma {:induction false} DecimalRoundTrip(n: nat)
    ensures DecimalValue(DecimalString(n)) == n
  {
    if n >= 10 {
      var r := DecimalString(n);
      assert r[..|r| - 1] == DecimalString(n / 10);
      DecimalRoundTrip(n / 10);
    }
  }
}
