/**
 * String primitives of the JavaScript runtime that the extraction code relies on:
 * truthiness, `String.prototype.includes`, the `\s` class of regular expressions, the ASCII
 * case folding of the `i` flag, and `String.prototype.length` (UTF-16 code units).
 */
module Text {
  import opened Wrappers

  /** JavaScript truthiness of an optional string (`null` standing for absent): present and not empty. */
  predicate Truthy(x: Option<string>)
  {
    x.Some? && x.value != ""
  }

  /** `s.includes(sub)`: `sub` occurs in `s` at some position. */
  predicate Contains(s: string, sub: string)
  {
    exists i :: 0 <= i <= |s| - |sub| && OccursAt(s, sub, i)
  }

  /** `sub` occurs in `s` starting at position `i`. */
  predicate OccursAt(s: string, sub: string, i: nat)
  {
    i + |sub| <= |s| && s[i..i + |sub|] == sub
  }

  /**
   * The characters matched by `\s` in an ECMAScript regular expression: the
   * WhiteSpace and LineTerminator productions (tab, line feed, vertical tab,
   * form feed, carriage return, space, no-break space, the byte order mark and
   * the Unicode space separators).
   */
  predicate IsJsSpace(c: char)
  {
    || c == '\t' || c == '\n' || c == '\U{000B}' || c == '\U{000C}' || c == '\r'
    || c == ' ' || c == '\U{00A0}' || c == '\U{1680}'
    || ('\U{2000}' <= c <= '\U{200A}')
    || c == '\U{2028}' || c == '\U{2029}' || c == '\U{202F}' || c == '\U{205F}'
    || c == '\U{3000}' || c == '\U{FEFF}'
  }

  /** ASCII lower-casing: the only case folding that matters for the letters of `http`, `https` and `m3u8`. */
  function Lower(c: char): (d: char)
    ensures 'A' <= c <= 'Z' ==> d as int == c as int + 32
    ensures !('A' <= c <= 'Z') ==> d == c
  {
    if 'A' <= c <= 'Z' then (c as int + 32) as char else c
  }

  /**
   * `lit` (written in lower case) occurs at position `k` of `s` when compared
   * case-insensitively, as a literal of a regular expression with the `i` flag.
   */
  predicate LowerAt(s: string, k: nat, lit: string)
  {
    k + |lit| <= |s| && forall i :: 0 <= i < |lit| ==> Lower(s[k + i]) == lit[i]
  }

  /** The JavaScript `length` of a string: characters outside the Basic Multilingual Plane take two UTF-16 code units. */
  function Utf16Length(s: string): (n: nat)
    ensures |s| <= n <= 2 * |s|
    ensures (forall i :: 0 <= i < |s| ==> s[i] as int < 0x1_0000) ==> n == |s|
  {
    if s == [] then 0
    else Utf16Length(s[..|s| - 1]) + (if s[|s| - 1] as int < 0x1_0000 then 1 else 2)
  }
}
