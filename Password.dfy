/**
 * The password-strength rule of the scheduler: a Java regular expression made of four
 * lookaheads (a digit, a lower-case letter, an upper-case letter, a special character)
 * followed by a body of 8 to 20 arbitrary characters, used with `Matcher.matches()` so the
 * body must consume the whole password. Each part is written out as what it matches.
 */
module Password {

  /** Java's `.` (neither DOTALL nor UNIX_LINES set) matches any character but these. */
  predicate IsLineTerminator(c: char) {
    c == '\n' || c == '\r' || c == '\U{85}' || c == '\U{2028}' || c == '\U{2029}'
  }

  predicate IsAsciiDigit(c: char) { '0' <= c <= '9' }
  predicate IsAsciiLower(c: char) { 'a' <= c <= 'z' }
  predicate IsAsciiUpper(c: char) { 'A' <= c <= 'Z' }

  /**
   * Members of the fourth bracket expression. The dash is U+2013 (EN DASH), and the inner
   * `[{}]` is a nested class that Java unions in, so `{` and `}` belong and `[`, `]` do not.
   */
  predicate IsSpecial(c: char) {
    || c == '!' || c == '@' || c == '#' || c == '&' || c == '(' || c == ')' || c == '\U{2013}'
    || c == '{' || c == '}' || c == ':' || c == ';' || c == '\'' || c == ',' || c == '?'
    || c == '/' || c == '*' || c == '~' || c == '$' || c == '^' || c == '+' || c == '='
    || c == '<' || c == '>'
  }

  /** The four bracket expressions of the lookaheads. */
  datatype CharClass = Digit | Lower | Upper | Special

  predicate InClass(c: char, k: CharClass) {
    match k
    case Digit => IsAsciiDigit(c)
    case Lower => IsAsciiLower(c)
    case Upper => IsAsciiUpper(c)
    case Special => IsSpecial(c)
  }

  /** `(?=.*[k])` at the start of `s`: some run of non-terminators, then a member of `k`. */
  predicate LookaheadFinds(s: string, k: CharClass)
    decreases |s|
  {
    |s| > 0 && (InClass(s[0], k) || (!IsLineTerminator(s[0]) && LookaheadFinds(s[1..], k)))
  }

  /** `.{lo,hi}` consuming the whole input, as `matches()` demands. */
  predicate DotsFill(s: string, lo: nat, hi: nat) {
    lo <= |s| <= hi && forall i :: 0 <= i < |s| ==> !IsLineTerminator(s[i])
  }

  /** `strongPassword`: the four lookaheads and the length-bounded body all succeed. */
  predicate StrongPassword(p: string) {
    && LookaheadFinds(p, Digit)
    && LookaheadFinds(p, Lower)
    && LookaheadFinds(p, Upper)
    && LookaheadFinds(p, Special)
    && DotsFill(p, 8, 20)
  }

  predicate Contains(s: string, k: CharClass) {
    exists i :: 0 <= i < |s| && InClass(s[i], k)
  }

  /** A lookahead succeeds exactly when a member of the class occurs before any line terminator. */
  lemma {:induction false} LookaheadFindsIff(s: string, k: CharClass)
    ensures LookaheadFinds(s, k) <==>
      exists i :: 0 <= i < |s| && InClass(s[i], k) && forall j :: 0 <= j < i ==> !IsLineTerminator(s[j])
  {
    if |s| > 0 {
      LookaheadFindsIff(s[1..], k);
      if LookaheadFinds(s, k) && !InClass(s[0], k) {
        var i :| 0 <= i < |s[1..]| && InClass(s[1..][i], k) && forall j :: 0 <= j < i ==> !IsLineTerminator(s[1..][j]);
        assert InClass(s[i + 1], k);
        assert forall j :: 0 <= j < i + 1 ==> !IsLineTerminator(s[j]) by {
          forall j | 0 <= j < i + 1 ensures !IsLineTerminator(s[j]) {
            if j > 0 { assert s[j] == s[1..][j - 1]; }
          }
        }
      }
      if (exists i :: 0 <= i < |s| && InClass(s[i], k) && forall j :: 0 <= j < i ==> !IsLineTerminator(s[j]))
         && !InClass(s[0], k)
      {
        var i :| 0 <= i < |s| && InClass(s[i], k) && forall j :: 0 <= j < i ==> !IsLineTerminator(s[j]);
        assert i > 0;
        assert InClass(s[1..][i - 1], k);
        assert forall j :: 0 <= j < i - 1 ==> !IsLineTerminator(s[1..][j]) by {
          forall j | 0 <= j < i - 1 ensures !IsLineTerminator(s[1..][j]) {
            assert s[1..][j] == s[j + 1];
          }
        }
      }
    }
  }

  /**
   * The rule in plain terms: 8 to 20 characters, none a line terminator, with at least one
   * ASCII digit, one ASCII lower-case letter, one ASCII upper-case letter and one special.
   */
  lemma StrongPasswordIff(p: string)
    ensures StrongPassword(p) <==>
      && 8 <= |p| <= 20
      && (forall i :: 0 <= i < |p| ==> !IsLineTerminator(p[i]))
      && Contains(p, Digit) && Contains(p, Lower) && Contains(p, Upper) && Contains(p, Special)
  {
    LookaheadFindsIff(p, Digit);
    LookaheadFindsIff(p, Lower);
    LookaheadFindsIff(p, Upper);
    LookaheadFindsIff(p, Special);
  }


  /** `{` comes from the nested class `[{}]`, so it counts as the special character... */
  lemma BraceIsSpecialExample()
    ensures StrongPassword("Vaccine1{")
  {
    var p := "Vaccine1{";
    StrongPasswordIff(p);
    assert InClass(p[7], Digit) && InClass(p[1], Lower) && InClass(p[0], Upper) && InClass(p[8], Special);
  }

  /** ...and so does the en dash... */
  lemma EnDashIsSpecialExample()
    ensures StrongPassword("Vaccine1\U{2013}")
  {
    var p := "Vaccine1\U{2013}";
    StrongPasswordIff(p);
    assert InClass(p[7], Digit) && InClass(p[1], Lower) && InClass(p[0], Upper) && InClass(p[8], Special);
  }

  /** A lookahead fails on a text that has no member of its class. */
  lemma {:induction false} LookaheadNeedsMember(s: string, k: CharClass)
    requires forall i :: 0 <= i < |s| ==> !InClass(s[i], k)
    ensures !LookaheadFinds(s, k)
    decreases |s|
  {
    if |s| > 0 {
      assert forall i :: 0 <= i < |s[1..]| ==> s[1..][i] == s[i + 1];
      LookaheadNeedsMember(s[1..], k);
    }
  }

  /** ...while `[` does not... */
  lemma BracketIsNotSpecialExample()
    ensures !StrongPassword("Vaccine1[")
  {
    var p := "Vaccine1[";
    forall i | 0 <= i < |p| ensures !IsSpecial(p[i]) {
      assert p[i] in {'V', 'a', 'c', 'i', 'n', 'e', '1', '['};
    }
    LookaheadNeedsMember(p, Special);
  }

  /** ...and neither does the ASCII hyphen. */
  lemma HyphenIsNotSpecialExample()
    ensures !StrongPassword("Vaccine1-")
  {
    var p := "Vaccine1-";
    forall i | 0 <= i < |p| ensures !IsSpecial(p[i]) {
      assert p[i] in {'V', 'a', 'c', 'i', 'n', 'e', '1', '-'};
    }
    LookaheadNeedsMember(p, Special);
  }
}
