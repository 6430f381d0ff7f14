/**
 * The parts of JavaScript string semantics that the form validators depend on:
 * the `length` of a string, counted in UTF-16 code units, and the line
 * terminators that the regular-expression atom `.` refuses to match.
 */
module JsString {

  /** A character outside the Basic Multilingual Plane, stored by JavaScript as a surrogate pair. */
  predicate IsAstral(c: char) {
    c as int >= 0x1_0000
  }

  /** The number of UTF-16 code units that JavaScript uses for `c`. */
  function CodeUnits(c: char): nat {
    if IsAstral(c) then 2 else 1
  }

  /**
   * JavaScript's `s.length`: the number of UTF-16 code units of `s`, which is
   * what zod's `min` and `max` string checks compare against their bound.
   */
  function Length(s: string): (n: nat)
    ensures |s| <= n <= 2 * |s|
    ensures n == 0 <==> s == []
    ensures (forall i :: 0 <= i < |s| ==> !IsAstral(s[i])) ==> n == |s|
    ensures (exists i :: 0 <= i < |s| && IsAstral(s[i])) ==> n > |s|
  {
    if s == [] then 0
    else
      var rest := Length(s[1..]);
      assert forall i :: 1 <= i < |s| ==> s[1..][i - 1] == s[i];
      CodeUnits(s[0]) + rest
  }

  /**
   * The line terminators of ECMAScript (section 12.3 of ECMA-262): line feed,
   * carriage return, line separator and paragraph separator. Without the `s`
   * flag the atom `.` matches every code unit except these.
   */
  predicate IsLineTerminator(c: char) {
    c == '\n' || c == '\r' || c == '\U{2028}' || c == '\U{2029}'
  }

  /** The text of `s` before its first line terminator (all of `s` when it has none). */
  function FirstLine(s: string): (r: string)
    ensures r <= s
    ensures forall i :: 0 <= i < |r| ==> !IsLineTerminator(r[i])
    ensures |r| == |s| || IsLineTerminator(s[|r|])
  {
    if s == [] then []
    else if IsLineTerminator(s[0]) then []
    else [s[0]] + FirstLine(s[1..])
  }

  /** A text without line terminators is its own first line. */
  lemma FirstLineOfSingleLine(s: string)
    requires forall i :: 0 <= i < |s| ==> !IsLineTerminator(s[i])
    ensures FirstLine(s) == s
  {
  }
}
