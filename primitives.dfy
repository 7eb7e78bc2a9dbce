/**
 * The JVM value types the app relies on and the few `kotlin.text` functions it
 * calls, restricted to what the app needs.
 */
module Primitives {
  import opened Wrappers

  /** Kotlin `Int`: 32-bit two's complement. */
  const MinInt32: int := -0x8000_0000
  const MaxInt32: int := 0x7fff_ffff
  type Int32 = x: int | -0x8000_0000 <= x <= 0x7fff_ffff

  /** Kotlin `Long`: 64-bit two's complement. */
  type Long = x: int | -0x8000_0000_0000_0000 <= x <= 0x7fff_ffff_ffff_ffff

  /** The message of a thrown exception: `Throwable.message` is nullable. */
  type Message = Option<string>

  /** The `Int` that Kotlin's (wrapping) arithmetic yields for the mathematical value `x`. */
  function WrapInt32(x: int): (r: Int32)
    ensures MinInt32 <= x <= MaxInt32 ==> r == x
    ensures (x - r) % 0x1_0000_0000 == 0
  {
    (x - MinInt32) % 0x1_0000_0000 + MinInt32
  }

  lemma WrapInt32Overflow()
    ensures WrapInt32(MaxInt32 + 1) == MinInt32
  {
  }

  // ---------------------------------------------------------------------------
  // Characters. Case folding and white space are restricted to ASCII.
  // ---------------------------------------------------------------------------

  /** ASCII lower-casing; every other character is left alone. */
  function LowerAscii(c: char): (r: char)
    ensures 'A' <= c <= 'Z' ==> 'a' <= r <= 'z'
    ensures !('A' <= c <= 'Z') ==> r == c
  {
    if 'A' <= c <= 'Z' then (c as int + 32) as char else c
  }

  /** Two characters equal up to ASCII case, as `Char.equals(other, ignoreCase = true)` on ASCII. */
  predicate CharEqualsIgnoreCase(a: char, b: char) {
    LowerAscii(a) == LowerAscii(b)
  }

  /** `Char.isWhitespace()` on the ASCII range: Java's white space and space separators. */
  predicate IsWhitespace(c: char) {
    c == ' ' || c == '\t' || c == '\n' || c == '\U{B}' || c == '\U{C}' || c == '\r'
    || ('\U{1C}' <= c <= '\U{1F}')
  }

  // ---------------------------------------------------------------------------
  // Strings
  // ---------------------------------------------------------------------------

  /** `a.equals(b, ignoreCase = true)` for strings (ASCII case folding). */
  predicate EqualsIgnoreCase(a: string, b: string) {
    |a| == |b| && forall i :: 0 <= i < |a| ==> CharEqualsIgnoreCase(a[i], b[i])
  }

  /** The window of `s` starting at `i` equals `q` up to case. */
  predicate MatchesAt(s: string, q: string, i: nat) {
    i + |q| <= |s| && EqualsIgnoreCase(s[i..i + |q|], q)
  }

  /** `s.contains(q, ignoreCase = true)`: some window of `s` equals `q` up to case. */
  predicate ContainsIgnoreCase(s: string, q: string) {
    exists i: nat :: i <= |s| && MatchesAt(s, q, i)
  }

  /** `s.isBlank()`: empty or white space only. */
  predicate IsBlank(s: string) {
    forall i :: 0 <= i < |s| ==> IsWhitespace(s[i])
  }

  /** `s.isNotBlank()`. */
  predicate IsNotBlank(s: string) {
    !IsBlank(s)
  }

  /** `s.substringBefore(c)`: the text before the first `c`, or all of `s` when there is none. */
  function SubstringBefore(s: string, c: char): (r: string)
    ensures r <= s
    ensures c !in r
    ensures |r| < |s| ==> s[|r|] == c
    ensures c !in s ==> r == s
  {
    if s == [] then []
    else if s[0] == c then []
    else [s[0]] + SubstringBefore(s[1..], c)
  }

  /** The contract of SubstringBefore determines its result: any prefix free of `c` followed by `c` or the end is it. */
  lemma {:induction false} SubstringBeforeUnique(s: string, c: char, p: string)
    requires p <= s && c !in p && (|p| < |s| ==> s[|p|] == c)
    ensures p == SubstringBefore(s, c)
  {
    if s != [] && s[0] != c {
      assert p[0] == s[0];
      SubstringBeforeUnique(s[1..], c, p[1..]);
    }
  }
}
