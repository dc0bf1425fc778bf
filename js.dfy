/**
 * The JavaScript values the catalogue handles and the handful of built-in
 * operations its code relies on: truthiness, `||`, `typeof`, property reads,
 * `toLowerCase`/`toUpperCase` (ASCII), `trim`, `includes`, `slice` and the
 * decimal rendering of a non-negative integer.
 */
module Js {

  /** A JavaScript value as it arrives from `response.json()`, plus `undefined`. */
  datatype Value =
    | Undefined
    | Null
    | Bool(b: bool)
    | Num(n: real)
    | Str(s: string)
    | Arr(elems: seq<Value>)
    | Obj(fields: map<string, Value>)

  /** ToBoolean: `undefined`, `null`, `false`, `0` and `""` are falsy. */
  predicate Truthy(v: Value) {
    match v
    case Undefined => false
    case Null => false
    case Bool(b) => b
    case Num(n) => n != 0.0
    case Str(s) => s != ""
    case Arr(_) => true
    case Obj(_) => true
  }

  predicate IsNullish(v: Value) {
    v.Undefined? || v.Null?
  }

  predicate IsDefined(v: Value) {
    !v.Undefined?
  }

  predicate IsUndefined(v: Value) {
    v.Undefined?
  }

  /** The `typeof` operator. */
  function TypeOf(v: Value): string {
    match v
    case Undefined => "undefined"
    case Null => "object"
    case Bool(_) => "boolean"
    case Num(_) => "number"
    case Str(_) => "string"
    case Arr(_) => "object"
    case Obj(_) => "object"
  }

  /** `a || b` */
  function Or(a: Value, b: Value): Value {
    if Truthy(a) then a else b
  }

  /** `typeof v === "number" ? v : fallback` */
  function NumberOr(v: Value, fallback: real): real {
    if TypeOf(v) == "number" then v.n else fallback
  }

  /**
   * Property read `v.key` (also `v?.key`). Only objects carry the named
   * properties the catalogue reads; on another non-nullish value the read
   * yields `undefined`. A read from a nullish value throws; every caller
   * either rules that out or models the exception itself.
   */
  function Get(v: Value, key: string): Value {
    if v.Obj? && key in v.fields then v.fields[key] else Undefined
  }

  /** The message V8 gives the TypeError thrown by reading `key` from a nullish value. */
  function ReadOfNullishMessage(v: Value, key: string): string {
    "Cannot read properties of " + (if v.Null? then "null" else "undefined") + " (reading '" + key + "')"
  }

  // ---------------------------------------------------------------------------
  // Characters and strings

  function LowerChar(c: char): char {
    if 'A' <= c <= 'Z' then (c as int + 32) as char else c
  }

  function UpperChar(c: char): char {
    if 'a' <= c <= 'z' then (c as int - 32) as char else c
  }

  /** `s.toLowerCase()`, restricted to the ASCII letters. */
  function ToLower(s: string): (r: string)
    ensures |r| == |s|
    ensures forall i :: 0 <= i < |s| ==> r[i] == LowerChar(s[i])
  {
    seq(|s|, i requires 0 <= i < |s| => LowerChar(s[i]))
  }

  /** `s.toUpperCase()`, restricted to the ASCII letters. */
  function ToUpper(s: string): (r: string)
    ensures |r| == |s|
    ensures forall i :: 0 <= i < |s| ==> r[i] == UpperChar(s[i])
  {
    seq(|s|, i requires 0 <= i < |s| => UpperChar(s[i]))
  }

  /** The characters `String.prototype.trim` removes: WhiteSpace and LineTerminator. */
  predicate IsWhiteSpace(c: char) {
    || c == '\t' || c == '\n' || c == '\U{000B}' || c == '\U{000C}' || c == '\r'
    || c == ' ' || c == '\U{00A0}' || c == '\U{1680}' || ('\U{2000}' <= c <= '\U{200A}')
    || c == '\U{2028}' || c == '\U{2029}' || c == '\U{202F}' || c == '\U{205F}'
    || c == '\U{3000}' || c == '\U{FEFF}'
  }

  function TrimStart(s: string): string {
    if s != [] && IsWhiteSpace(s[0]) then TrimStart(s[1..]) else s
  }

  function TrimEnd(s: string): string {
    if s != [] && IsWhiteSpace(s[|s| - 1]) then TrimEnd(s[..|s| - 1]) else s
  }

  /** `s.trim()` */
  function Trim(s: string): string {
    TrimEnd(TrimStart(s))
  }

  /** `hay.includes(needle)` */
  predicate Contains(hay: string, needle: string) {
    needle <= hay || (hay != [] && Contains(hay[1..], needle))
  }

  /** `s.charAt(0).toUpperCase() + s.slice(1)` */
  function Capitalize(s: string): string {
    if s == [] then "" else ToUpper(s[..1]) + s[1..]
  }

  /** `s.replace(from, to)` with a one-character pattern: only the first occurrence is replaced. */
  function ReplaceFirst(s: string, from: char, to: char): string {
    if s == [] then ""
    else if s[0] == from then [to] + s[1..]
    else [s[0]] + ReplaceFirst(s[1..], from, to)
  }

  // ---------------------------------------------------------------------------
  // Numbers as text

  function DigitChar(d: nat): char
    requires d < 10
  {
    ('0' as int + d) as char
  }

  predicate IsDigit(c: char) {
    '0' <= c <= '9'
  }

  /** `${n}` for a non-negative integer `n`. */
  function NatToString(n: nat): string {
    if n < 10 then [DigitChar(n)] else NatToString(n / 10) + [DigitChar(n % 10)]
  }

  /** The value of a string of decimal digits (the inverse of NatToString). */
  function DigitsValue(s: string): nat
    requires forall i :: 0 <= i < |s| ==> IsDigit(s[i])
  {
    if s == [] then 0
    else
      assert IsDigit(s[|s| - 1]);
      DigitsValue(s[..|s| - 1]) * 10 + (s[|s| - 1] as int - '0' as int)
  }

  // ---------------------------------------------------------------------------
  // Array.prototype.slice

  /** How `slice` turns a relative index into a position in `0..len`. */
  function ClampIndex(i: int, len: nat): (r: nat)
    ensures r <= len
  {
    if i < 0 then (if len + i < 0 then 0 else len + i) else if i > len then len else i
  }

  /** `s.slice(begin, end)` */
  function Slice<T>(s: seq<T>, begin: int, end: int): seq<T> {
    var b := ClampIndex(begin, |s|);
    var e := ClampIndex(end, |s|);
    if b < e then s[b..e] else []
  }

  // ---------------------------------------------------------------------------
  // Properties of the built-ins

  /** `trim()` yields "" exactly when every character is white space. */
  lemma {:induction false} TrimEmptyIffAllWhiteSpace(s: string)
    ensures Trim(s) == "" <==> forall i :: 0 <= i < |s| ==> IsWhiteSpace(s[i])
  {
    TrimStartAllWhiteSpace(s);
    TrimStartPrefix(s);
    if TrimStart(s) != "" {
      TrimStartHead(s);
      TrimEndKeepsHead(TrimStart(s));
    }
  }

  lemma {:induction false} TrimStartAllWhiteSpace(s: string)
    ensures TrimStart(s) == "" <==> forall i :: 0 <= i < |s| ==> IsWhiteSpace(s[i])
  {
    if s != [] && IsWhiteSpace(s[0]) {
      TrimStartAllWhiteSpace(s[1..]);
      assert forall i :: 1 <= i < |s| ==> s[i] == s[1..][i - 1];
    }
  }

  /** TrimStart removes a prefix of white space. */
  lemma {:induction false} TrimStartPrefix(s: string)
    ensures |TrimStart(s)| <= |s| && TrimStart(s) == s[|s| - |TrimStart(s)|..]
  {
    if s != [] && IsWhiteSpace(s[0]) {
      TrimStartPrefix(s[1..]);
    }
  }

  lemma {:induction false} TrimStartHead(s: string)
    requires TrimStart(s) != ""
    ensures !IsWhiteSpace(TrimStart(s)[0])
  {
    if s != [] && IsWhiteSpace(s[0]) {
      TrimStartHead(s[1..]);
    }
  }

  /** TrimEnd never empties a string that starts with a non-white-space character. */
  lemma {:induction false} TrimEndKeepsHead(s: string)
    requires s != [] && !IsWhiteSpace(s[0])
    ensures TrimEnd(s) != ""
  {
    if IsWhiteSpace(s[|s| - 1]) {
      assert |s| > 1;
      TrimEndKeepsHead(s[..|s| - 1]);
    }
  }

  /** Lower-casing leaves the white-space characters where they are. */
  lemma ToLowerKeepsWhiteSpace(s: string)
    ensures forall i :: 0 <= i < |s| ==> (IsWhiteSpace(ToLower(s)[i]) <==> IsWhiteSpace(s[i]))
  {
    forall i | 0 <= i < |s|
      ensures IsWhiteSpace(ToLower(s)[i]) <==> IsWhiteSpace(s[i])
    {
      assert ToLower(s)[i] == LowerChar(s[i]);
    }
  }

  /** `needle` occurs in `hay` starting at position `k`. */
  predicate OccursAt(hay: string, needle: string, k: int) {
    0 <= k && k + |needle| <= |hay| && hay[k..k + |needle|] == needle
  }

  /** `includes` finds `needle` at some position of `hay`. */
  lemma {:induction false} ContainsAt(hay: string, needle: string)
    ensures Contains(hay, needle) <==> exists k :: OccursAt(hay, needle, k)
  {
    if needle <= hay {
      assert hay[0..|needle|] == needle;
      assert OccursAt(hay, needle, 0);
    } else if hay == [] {
      assert forall k :: !OccursAt(hay, needle, k);
    } else {
      ContainsAt(hay[1..], needle);
      OccursInTail(hay, needle);
    }
  }

  /** Past a failed match at position 0, an occurrence in `hay` is one in its tail, shifted by one. */
  lemma OccursInTail(hay: string, needle: string)
    requires hay != [] && !(needle <= hay)
    ensures (exists k :: OccursAt(hay, needle, k)) <==> (exists k :: OccursAt(hay[1..], needle, k))
  {
    if exists k :: OccursAt(hay, needle, k) {
      var k :| OccursAt(hay, needle, k);
      assert k != 0;
      assert hay[1..][k - 1..k - 1 + |needle|] == needle;
      assert OccursAt(hay[1..], needle, k - 1);
    }
    if exists k :: OccursAt(hay[1..], needle, k) {
      var k :| OccursAt(hay[1..], needle, k);
      assert hay[k + 1..k + 1 + |needle|] == needle;
      assert OccursAt(hay, needle, k + 1);
    }
  }

  lemma {:induction false} NatToStringDigits(n: nat)
    ensures |NatToString(n)| > 0
    ensures forall i :: 0 <= i < |NatToString(n)| ==> IsDigit(NatToString(n)[i])
  {
    if n >= 10 {
      NatToStringDigits(n / 10);
    }
  }

  /** Reading the digits back gives the number: the rendering loses nothing. */
  lemma {:induction false} NatToStringRoundTrip(n: nat)
    ensures forall i :: 0 <= i < |NatToString(n)| ==> IsDigit(NatToString(n)[i])
    ensures DigitsValue(NatToString(n)) == n
  {
    NatToStringDigits(n);
    if n >= 10 {
      NatToStringRoundTrip(n / 10);
      var s := NatToString(n);
      assert s[..|s| - 1] == NatToString(n / 10);
    } else {
      assert NatToString(n)[..0] == [];
    }
  }

  /**
   * A number followed by text that starts with a non-digit can be split
   * back into the two: the digits run exactly to the first non-digit.
   */
  lemma NumberThenText(m: nat, n: nat, s: string, t: string)
    requires s != [] && t != [] && !IsDigit(s[0]) && !IsDigit(t[0])
    requires NatToString(m) + s == NatToString(n) + t
    ensures m == n && s == t
  {
    var a := NatToString(m);
    var b := NatToString(n);
    NatToStringDigits(m);
    NatToStringDigits(n);
    var c := a + s;
    assert c == b + t;
    assert forall i :: 0 <= i < |a| ==> IsDigit(c[i]);
    assert forall i :: 0 <= i < |b| ==> IsDigit(c[i]);
    assert c[|a|] == s[0] && c[|b|] == t[0];
    assert a == (a + s)[..|a|] && b == (b + t)[..|b|];
    assert s == (a + s)[|a|..] && t == (b + t)[|b|..];
    NatToStringInjective(m, n);
  }

  /** Different numbers have different renderings. */
  lemma NatToStringInjective(m: nat, n: nat)
    ensures NatToString(m) == NatToString(n) ==> m == n
  {
    NatToStringRoundTrip(m);
    NatToStringRoundTrip(n);
  }

  /**
   * `replace` with a one-character pattern keeps the length, changes nothing
   * when the character does not occur, and otherwise rewrites exactly its
   * first occurrence.
   */
  lemma {:induction false} ReplaceFirstSpec(s: string, from: char, to: char)
    ensures |ReplaceFirst(s, from, to)| == |s|
    ensures from !in s ==> ReplaceFirst(s, from, to) == s
    ensures forall k :: 0 <= k < |s| && s[k] == from && from !in s[..k] ==>
      ReplaceFirst(s, from, to) == s[..k] + [to] + s[k + 1..]
  {
    if s != [] && s[0] != from {
      ReplaceFirstSpec(s[1..], from, to);
      assert from in s ==> from in s[1..];
      forall k | 0 <= k < |s| && s[k] == from && from !in s[..k]
        ensures ReplaceFirst(s, from, to) == s[..k] + [to] + s[k + 1..]
      {
        assert k > 0;
        assert s[1..][k - 1] == from;
        assert s[1..][..k - 1] == s[1..k];
        assert from !in s[1..][..k - 1];
        ReplaceFirstPastHead(s, from, to, k);
      }
    }
  }

  /** Rewriting the first occurrence in the tail is rewriting it in the whole string. */
  lemma ReplaceFirstPastHead(s: string, from: char, to: char, k: int)
    requires 0 < k < |s| && s[0] != from
    requires ReplaceFirst(s[1..], from, to) == s[1..][..k - 1] + [to] + s[1..][k..]
    ensures ReplaceFirst(s, from, to) == s[..k] + [to] + s[k + 1..]
  {
    assert s[..k] == [s[0]] + s[1..][..k - 1];
    assert s[k + 1..] == s[1..][k..];
  }

  /** For offsets inside the sequence, `slice` is the contiguous subrange. */
  lemma SliceWithin<T>(s: seq<T>, begin: int, end: int)
    requires 0 <= begin && 0 <= end
    ensures |Slice(s, begin, end)| == Max(0, Min(end, |s|) - Min(begin, |s|))
    ensures begin <= |s| && begin <= end ==> Slice(s, begin, end) == s[begin..Max(begin, Min(end, |s|))]
  {
  }

  function Min(a: int, b: int): int {
    if a <= b then a else b
  }

  function Max(a: int, b: int): int {
    if a >= b then a else b
  }
}
