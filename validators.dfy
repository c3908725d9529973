/**
 * The two input validators of the server, `validateUsername` (regular expression
 * `^[a-zA-Z0-9]{3,20}$`) and `validatePassword` (`^(?=.*[A-Z])(?=.*\d).{8,}$`).
 *
 * Each validator is written as a matcher that follows the structure of its regular
 * expression: an anchored bounded repetition of a character class, and lookaheads of the
 * form `(?=.*X)` evaluated at the start of the input. The lemmas then state, with both
 * directions, which strings each matcher accepts in plain set-of-characters terms.
 */
module Validators {

  /** The character classes used by the two expressions. `Dot` is JavaScript's `.` without
      the `s` flag: every character except a line terminator. */
  datatype CharClass = Alnum | Upper | Digit | Dot

  /** An upper bound of a repetition: `{lo,hi}` or `{lo,}`. */
  datatype Bound = AtMost(n: nat) | Unbounded

  predicate IsAsciiUpper(c: char) { 'A' <= c <= 'Z' }
  predicate IsAsciiLower(c: char) { 'a' <= c <= 'z' }
  predicate IsAsciiDigit(c: char) { '0' <= c <= '9' }
  predicate IsAsciiAlnum(c: char) { IsAsciiUpper(c) || IsAsciiLower(c) || IsAsciiDigit(c) }

  /** The line terminators of ECMAScript: LF, CR, LINE SEPARATOR, PARAGRAPH SEPARATOR. */
  predicate IsLineTerminator(c: char) {
    c == '\n' || c == '\r' || c == '\U{2028}' || c == '\U{2029}'
  }

  predicate InClass(c: char, k: CharClass) {
    match k
    case Alnum => IsAsciiAlnum(c)
    case Upper => IsAsciiUpper(c)
    case Digit => IsAsciiDigit(c)
    case Dot => !IsLineTerminator(c)
  }

  /** `k{lo,hi}$` matched from the start of `s`: the repetition consumes characters of
      class `k` one at a time and the end anchor demands that it consumes all of `s`. */
  predicate RunToEnd(s: string, k: CharClass, lo: nat, hi: Bound)
    decreases |s|
  {
    if s == [] then lo == 0
    else
      && InClass(s[0], k)
      && hi != AtMost(0)
      && RunToEnd(s[1..], k, if lo == 0 then 0 else lo - 1,
                  match hi case AtMost(n) => AtMost(if n == 0 then 0 else n - 1) case Unbounded => Unbounded)
  }

  /** The lookahead `(?=.*X)` at the start of `s`, with `X` the class `k`: after some run of
      `.` characters comes a character of class `k`. */
  predicate DotStarThen(s: string, k: CharClass)
    decreases |s|
  {
    s != [] && (InClass(s[0], k) || (InClass(s[0], Dot) && DotStarThen(s[1..], k)))
  }

  /** `validateUsername`: `^[a-zA-Z0-9]{3,20}$`. */
  predicate ValidateUsername(username: string) {
    RunToEnd(username, Alnum, 3, AtMost(20))
  }

  /** `validatePassword`: `^(?=.*[A-Z])(?=.*\d).{8,}$`. */
  predicate ValidatePassword(password: string) {
    && DotStarThen(password, Upper)
    && DotStarThen(password, Digit)
    && RunToEnd(password, Dot, 8, Unbounded)
  }

  /** An anchored repetition accepts exactly the strings made only of class characters whose
      length lies within the bounds. */
  lemma {:induction false} RunToEndIff(s: string, k: CharClass, lo: nat, hi: Bound)
    ensures RunToEnd(s, k, lo, hi) <==>
      && (forall i :: 0 <= i < |s| ==> InClass(s[i], k))
      && lo <= |s|
      && (hi.AtMost? ==> |s| <= hi.n)
    decreases |s|
  {
    if s != [] {
      var hi' := match hi case AtMost(n) => AtMost(if n == 0 then 0 else n - 1) case Unbounded => Unbounded;
      RunToEndIff(s[1..], k, if lo == 0 then 0 else lo - 1, hi');
      assert forall i :: 1 <= i < |s| ==> s[i] == s[1..][i - 1];
    }
  }

  /** The lookahead `(?=.*X)` succeeds exactly when some character of class `k` is preceded
      only by characters that `.` matches. */
  lemma {:induction false} DotStarThenIff(s: string, k: CharClass)
    ensures DotStarThen(s, k) <==>
      exists i :: 0 <= i < |s| && InClass(s[i], k) && forall j :: 0 <= j < i ==> InClass(s[j], Dot)
    decreases |s|
  {
    if s != [] {
      DotStarThenIff(s[1..], k);
      if DotStarThen(s, k) && !InClass(s[0], k) {
        var i :| 0 <= i < |s[1..]| && InClass(s[1..][i], k) && forall j :: 0 <= j < i ==> InClass(s[1..][j], Dot);
        assert InClass(s[i + 1], k);
        assert forall j :: 0 <= j < i + 1 ==> InClass(s[j], Dot) by {
          forall j | 0 <= j < i + 1 ensures InClass(s[j], Dot) {
            if j > 0 { assert s[j] == s[1..][j - 1]; }
          }
        }
      }
      if (exists i :: 0 <= i < |s| && InClass(s[i], k) && forall j :: 0 <= j < i ==> InClass(s[j], Dot)) {
        var i :| 0 <= i < |s| && InClass(s[i], k) && forall j :: 0 <= j < i ==> InClass(s[j], Dot);
        if i > 0 {
          assert InClass(s[1..][i - 1], k);
          assert forall j :: 0 <= j < i - 1 ==> InClass(s[1..][j], Dot) by {
            forall j | 0 <= j < i - 1 ensures InClass(s[1..][j], Dot) {
              assert s[1..][j] == s[j + 1];
            }
          }
        }
      }
    }
  }

  /** `validateUsername` accepts exactly the strings of 3 to 20 ASCII letters and digits. */
  lemma ValidateUsernameIff(username: string)
    ensures ValidateUsername(username) <==>
      3 <= |username| <= 20 && forall i :: 0 <= i < |username| ==> IsAsciiAlnum(username[i])
  {
    RunToEndIff(username, Alnum, 3, AtMost(20));
  }

  /** `validatePassword` accepts exactly the strings of at least 8 characters, none of them a
      line terminator, with at least one ASCII upper-case letter and at least one ASCII digit. */
  lemma ValidatePasswordIff(password: string)
    ensures ValidatePassword(password) <==>
      && |password| >= 8
      && (forall i :: 0 <= i < |password| ==> !IsLineTerminator(password[i]))
      && (exists i :: 0 <= i < |password| && IsAsciiUpper(password[i]))
      && (exists i :: 0 <= i < |password| && IsAsciiDigit(password[i]))
  {
    RunToEndIff(password, Dot, 8, Unbounded);
    DotStarThenIff(password, Upper);
    DotStarThenIff(password, Digit);
    if (forall i :: 0 <= i < |password| ==> !IsLineTerminator(password[i])) {
      if i :| 0 <= i < |password| && IsAsciiUpper(password[i]) {
        assert InClass(password[i], Upper);
      }
      if i :| 0 <= i < |password| && IsAsciiDigit(password[i]) {
        assert InClass(password[i], Digit);
      }
    }
  }
}
