/**
  The email format check of the subscribe endpoint: the regular expression
  `^[^\s@]+@[^\s@]+\.[^\s@]+$` (src/app/api/subscribe/route.ts).

  `MatchesEmailRegex` is what the expression denotes: three non-empty runs of
  characters that are neither white space nor `@`, joined by `@` and `.`.
  `IsValidEmail` is the same language described by its parts, and is what the
  endpoint calls; `EmailRegexCharacterisation` proves the two agree on every string.
*/
module EmailFormat {

  /** ECMAScript `\s`: the WhiteSpace and LineTerminator code points. */
  predicate IsSpace(c: char)
    // the pattern's separators are never white space
    ensures IsSpace(c) ==> c != '@' && c != '.'
  {
    || c == '\t' || c == '\n' || c == '\U{000B}' || c == '\U{000C}' || c == '\r'
    || c == ' ' || c == '\U{00A0}' || c == '\U{1680}'
    || ('\U{2000}' <= c <= '\U{200A}')
    || c == '\U{2028}' || c == '\U{2029}' || c == '\U{202F}' || c == '\U{205F}'
    || c == '\U{3000}' || c == '\U{FEFF}'
  }

  /** The character class `[^\s@]`. */
  predicate EmailChar(c: char)
  {
    c != '@' && !IsSpace(c)
  }

  /** `[^\s@]+` matches all of `t`. */
  ghost predicate Run(t: string)
  {
    |t| > 0 && forall k | 0 <= k < |t| :: EmailChar(t[k])
  }

  /** The anchored regex matches `s`: `s` splits at an `@` (index i) and a later `.` (index j)
      into three runs. */
  ghost predicate MatchesEmailRegex(s: string)
    // three runs of at least one character and two separators
    ensures MatchesEmailRegex(s) ==> |s| >= 5
  {
    exists i, j | 0 <= i < j < |s| ::
      s[i] == '@' && s[j] == '.' && Run(s[..i]) && Run(s[i + 1..j]) && Run(s[j + 1..])
  }

  /** No white space; exactly one `@`, not the first character; and after the `@`
      a `.` that is neither the first nor the last character of that suffix. */
  predicate IsValidEmail(s: string)
    // an accepted string is at least five characters long and neither starts nor ends with `@`
    ensures IsValidEmail(s) ==> |s| >= 5 && s[0] != '@' && s[|s| - 1] != '@'
  {
    && (forall k | 0 <= k < |s| :: !IsSpace(s[k]))
    && exists i | 0 < i < |s| ::
         && s[i] == '@'
         && (forall k | 0 <= k < |s| && k != i :: s[k] != '@')
         && (exists j | i + 1 < j < |s| - 1 :: s[j] == '.')
  }

  /** Every string `IsValidEmail` describes splits into the regex's three runs. */
  lemma ValidEmailMatches(s: string)
    requires IsValidEmail(s)
    ensures MatchesEmailRegex(s)
  {
    var i :| 0 < i < |s| && s[i] == '@' && (forall k | 0 <= k < |s| && k != i :: s[k] != '@')
                         && (exists j | i + 1 < j < |s| - 1 :: s[j] == '.');
    var j :| i + 1 < j < |s| - 1 && s[j] == '.';
    var user, host, tld := s[..i], s[i + 1..j], s[j + 1..];
    forall k | 0 <= k < |user| ensures EmailChar(user[k]) {
      assert user[k] == s[k];
    }
    forall k | 0 <= k < |host| ensures EmailChar(host[k]) {
      assert host[k] == s[i + 1 + k];
    }
    forall k | 0 <= k < |tld| ensures EmailChar(tld[k]) {
      assert tld[k] == s[j + 1 + k];
    }
    assert Run(user) && Run(host) && Run(tld);
  }

  /** Every string the regex matches has the parts `IsValidEmail` asks for. */
  lemma MatchIsValidEmail(s: string)
    requires MatchesEmailRegex(s)
    ensures IsValidEmail(s)
  {
    var i, j :| 0 <= i < j < |s| && s[i] == '@' && s[j] == '.'
                && Run(s[..i]) && Run(s[i + 1..j]) && Run(s[j + 1..]);
    var user, host, tld := s[..i], s[i + 1..j], s[j + 1..];
    forall k | 0 <= k < |s| && k != i ensures EmailChar(s[k]) {
      if k < i {
        assert s[k] == user[k];
      } else if k < j {
        assert s[k] == host[k - (i + 1)];
      } else if k > j {
        assert s[k] == tld[k - (j + 1)];
      }
    }
    assert !IsSpace(s[i]);
    assert i + 1 < j < |s| - 1;
  }

  /** The regex accepts exactly the strings `IsValidEmail` describes. */
  lemma EmailRegexCharacterisation(s: string)
    ensures IsValidEmail(s) <==> MatchesEmailRegex(s)
  {
    if IsValidEmail(s) {
      ValidEmailMatches(s);
    }
    if MatchesEmailRegex(s) {
      MatchIsValidEmail(s);
    }
  }

  /** "not-an-email" is rejected: it has no `@`. */
  lemma NotAnEmailRejected()
    ensures !IsValidEmail("not-an-email")
  {
  }

  /** "a@b.c", the shortest shape the regex admits, is accepted. */
  lemma ShortestEmailAccepted()
    ensures IsValidEmail("a@b.c")
  {
    var s := "a@b.c";
    assert s[1] == '@' && s[3] == '.';
    assert forall k | 0 <= k < |s| && k != 1 :: s[k] != '@';
  }
}
