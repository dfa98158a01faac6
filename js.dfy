/**
 The small part of JavaScript's semantics that the problem sagas depend on:
 the values they pass around, `typeof`, truthiness, `Array.prototype.join()`,
 `String.prototype.trim()` and the start index of `Array.prototype.slice(start)`.
 */
module Js {

  /** The JavaScript values the sagas inspect. Objects are opaque: they are
      identified by their JSON text and never looked inside. */
  datatype Value =
    | Undefined
    | Null
    | Str(s: string)
    | Obj(literal: string)

  /** The result of `typeof v`; `typeof null` is "object". */
  function TypeOf(v: Value): string
  {
    match v
    case Undefined => "undefined"
    case Null => "object"
    case Str(_) => "string"
    case Obj(_) => "object"
  }

  /** JavaScript truthiness: `undefined`, `null` and `""` are falsy. */
  predicate Truthy(v: Value)
  {
    match v
    case Undefined => false
    case Null => false
    case Str(s) => s != ""
    case Obj(_) => true
  }

  /** The values `typeof` calls "object" are null and the objects, and null
      is the only falsy one among them. */
  lemma ObjectTypedValues(v: Value)
    ensures TypeOf(v) == "object" <==> v.Null? || v.Obj?
    ensures TypeOf(v) == "object" && !Truthy(v) <==> v == Null
    ensures Truthy(v) <==> v.Obj? || (v.Str? && v.s != "")
  {
  }

  /** ECMAScript WhiteSpace and LineTerminator code points, the characters
      that `trim()` removes. */
  predicate IsWhiteSpace(c: char)
  {
    || c == '\t' || c == '\n' || c == '\U{000B}' || c == '\U{000C}' || c == '\r'
    || c == ' ' || c == '\U{00A0}' || c == '\U{1680}'
    || ('\U{2000}' <= c <= '\U{200A}')
    || c == '\U{2028}' || c == '\U{2029}' || c == '\U{202F}' || c == '\U{205F}'
    || c == '\U{3000}' || c == '\U{FEFF}'
  }

  /** s contains a character that `trim()` keeps. */
  predicate HasVisible(s: string)
  {
    exists k :: 0 <= k < |s| && !IsWhiteSpace(s[k])
  }

  /** Drops the leading white space of s. */
  function TrimStart(s: string): (r: string)
    ensures |r| <= |s| && r == s[|s| - |r|..]
    ensures forall k :: 0 <= k < |s| - |r| ==> IsWhiteSpace(s[k])
    ensures r != "" ==> !IsWhiteSpace(r[0])
  {
    if |s| > 0 && IsWhiteSpace(s[0]) then TrimStart(s[1..]) else s
  }

  /** Drops the trailing white space of s. */
  function TrimEnd(s: string): (r: string)
    ensures |r| <= |s| && r == s[..|r|]
    ensures forall k :: |r| <= k < |s| ==> IsWhiteSpace(s[k])
    ensures r != "" ==> !IsWhiteSpace(r[|r| - 1])
  {
    if |s| > 0 && IsWhiteSpace(s[|s| - 1]) then TrimEnd(s[..|s| - 1]) else s
  }

  /** `s.trim()`: s without its leading and trailing white space. */
  function Trim(s: string): string
  {
    TrimEnd(TrimStart(s))
  }

  /** What is left by `trim()` starts and ends with a visible character, and
      it is empty exactly when every character of s is white space. */
  lemma TrimEmptyIff(s: string)
    ensures Trim(s) == "" <==> !HasVisible(s)
    ensures Trim(s) != "" ==> !IsWhiteSpace(Trim(s)[0]) && !IsWhiteSpace(Trim(s)[|Trim(s)| - 1])
  {
    var t := TrimStart(s);
    var r := TrimEnd(t);
    if r != "" {
      assert s[|s| - |t|] == r[0];
      assert t[0] == r[0];
    }
  }

  /** `parts.join()`: the parts separated by the default separator ",". */
  function Join(parts: seq<string>): string
  {
    if |parts| == 0 then ""
    else if |parts| == 1 then parts[0]
    else parts[0] + "," + Join(parts[1..])
  }

  /** Joining inserts a comma between parts, so any two parts (even two empty
      strings) give a visible result; a single part is visible only on its own. */
  lemma {:induction false} JoinVisible(parts: seq<string>)
    ensures HasVisible(Join(parts)) <==> |parts| >= 2 || (|parts| == 1 && HasVisible(parts[0]))
  {
    if |parts| >= 2 {
      var j := Join(parts);
      assert j == parts[0] + "," + Join(parts[1..]);
      assert j[|parts[0]|] == ',';
      assert !IsWhiteSpace(j[|parts[0]|]);
    }
  }

  /** `trim()` after `join()`: empty exactly when there is at most one part
      and that part is all white space. */
  lemma {:induction false} JoinTrimEmptyIff(parts: seq<string>)
    ensures Trim(Join(parts)) == "" <==> |parts| == 0 || (|parts| == 1 && !HasVisible(parts[0]))
  {
    var j := Join(parts);
    JoinVisible(parts);
    TrimEmptyIff(j);
  }

  /** The index from which `a.slice(start)` copies an array of length len:
      a negative start counts back from the end and is clamped at 0, a
      non-negative start is clamped at len. */
  function SliceStart(len: nat, start: int): (k: nat)
    ensures k <= len
  {
    if start < 0 then (if len + start < 0 then 0 else len + start)
    else if start > len then len
    else start
  }

  /** `a.slice(-n)`: for 0 < n <= |a| the last n elements, for n == 0 or n >= |a|
      the whole array, and for n < 0 the array without its first -n elements. */
  lemma SliceFromEnd(len: nat, n: int)
    ensures 0 < n <= len ==> SliceStart(len, -n) == len - n
    ensures n == 0 || n >= len ==> SliceStart(len, -n) == 0
    ensures n < 0 ==> SliceStart(len, -n) == (if -n > len then len else -n)
  {
  }
}
