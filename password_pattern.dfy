/**
 * The password-strength pattern of the register and reset-password forms,
 * the JavaScript regular expression /^(?=.*[a-z])(?=.*[A-Z])(?=.*\d)/
 * with no flags.
 *
 * Without the `m` flag `^` matches only at index 0, so `test` succeeds exactly
 * when the three lookaheads all succeed at index 0; a lookahead consumes
 * nothing, so each is tried on the whole string. Without the `u` flag `.`
 * matches one UTF-16 code unit; neither half of a surrogate pair is a line
 * terminator or an ASCII letter or digit, so matching per character (as here)
 * accepts the same strings as matching per code unit.
 */
module PasswordPattern {
  import opened JsString

  /** The three character classes of the pattern: `[a-z]`, `[A-Z]` and `\d`. */
  datatype CharClass = Lower | Upper | Digit

  predicate InClass(c: char, k: CharClass) {
    match k
    case Lower => 'a' <= c <= 'z'
    case Upper => 'A' <= c <= 'Z'
    case Digit => '0' <= c <= '9'
  }

  /**
   * Whether `.*X` matches a prefix of `s`, X being the class `k`: either `.*`
   * matches nothing and X matches the first character, or `.` takes the first
   * character (which must not be a line terminator) and the rest is tried.
   */
  predicate DotStarThen(s: string, k: CharClass)
    decreases |s|
  {
    |s| > 0 && (InClass(s[0], k) || (!IsLineTerminator(s[0]) && DotStarThen(s[1..], k)))
  }

  /** Whether /^(?=.*[a-z])(?=.*[A-Z])(?=.*\d)/ matches `s`. */
  predicate StrongPassword(s: string) {
    DotStarThen(s, Lower) && DotStarThen(s, Upper) && DotStarThen(s, Digit)
  }

  /** Some character of the first line of `s` is in class `k`. */
  predicate OnFirstLine(s: string, k: CharClass) {
    exists c :: c in FirstLine(s) && InClass(c, k)
  }

  /** `.*X` matches at the start exactly when X occurs before the first line terminator. */
  lemma {:induction false} DotStarThenOnFirstLine(s: string, k: CharClass)
    ensures DotStarThen(s, k) <==> OnFirstLine(s, k)
  {
    if s == [] {
    } else if IsLineTerminator(s[0]) {
      assert FirstLine(s) == [];
      assert !InClass(s[0], k);
    } else {
      var line := FirstLine(s);
      assert line == [s[0]] + FirstLine(s[1..]);
      DotStarThenOnFirstLine(s[1..], k);
      if DotStarThen(s, k) && !InClass(s[0], k) {
        var c :| c in FirstLine(s[1..]) && InClass(c, k);
        assert c in line;
      }
      if OnFirstLine(s, k) && !InClass(s[0], k) {
        var c :| c in line && InClass(c, k);
        assert c in FirstLine(s[1..]);
      }
    }
  }

  /**
   * The pattern accepts `s` exactly when the text before its first line
   * terminator holds an ASCII lower-case letter, an ASCII upper-case letter
   * and an ASCII digit.
   */
  lemma StrongPasswordOnFirstLine(s: string)
    ensures StrongPassword(s) <==> OnFirstLine(s, Lower) && OnFirstLine(s, Upper) && OnFirstLine(s, Digit)
  {
    DotStarThenOnFirstLine(s, Lower);
    DotStarThenOnFirstLine(s, Upper);
    DotStarThenOnFirstLine(s, Digit);
  }

  /** Some character of `s` is in class `k`. */
  predicate Contains(s: string, k: CharClass) {
    exists i :: 0 <= i < |s| && InClass(s[i], k)
  }

  /** For a password on one line the pattern asks only for one character of each class. */
  lemma StrongSingleLinePassword(s: string)
    requires forall i :: 0 <= i < |s| ==> !IsLineTerminator(s[i])
    ensures StrongPassword(s) <==> Contains(s, Lower) && Contains(s, Upper) && Contains(s, Digit)
  {
    StrongPasswordOnFirstLine(s);
    FirstLineOfSingleLine(s);
  }

  /** "Secret12" has all three classes on one line, so the pattern accepts it. */
  lemma AcceptsSecret12()
    ensures StrongPassword("Secret12")
  {
    var s := "Secret12";
    StrongSingleLinePassword(s);
    assert InClass(s[1], Lower) && InClass(s[0], Upper) && InClass(s[6], Digit);
  }

  /** A class with no member before some line terminator is not found by `.*X`. */
  lemma {:induction false} AbsentBeforeLineBreak(s: string, k: CharClass, j: nat)
    requires j < |s| && IsLineTerminator(s[j])
    requires forall i :: 0 <= i < j ==> !InClass(s[i], k)
    ensures !DotStarThen(s, k)
  {
    if j > 0 {
      AbsentBeforeLineBreak(s[1..], k, j - 1);
    }
  }

  /** "Secret\n12" has its digits after a line feed, so the pattern refuses it. */
  lemma RefusesDigitsAfterLineFeed()
    ensures !StrongPassword("Secret\n12")
  {
    var s := "Secret\n12";
    assert s[6] == '\n';
    assert forall i :: 0 <= i < 6 ==> s[i] in "Secret";
    AbsentBeforeLineBreak(s, Digit, 6);
  }
}
