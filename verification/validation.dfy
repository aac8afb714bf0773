/** The email pattern `^[^\s@]+@[^\s@]+\.[^\s@]+$` that both sign-in forms
    test, and an equivalent description of the strings it accepts. */
module Validation {
  import opened Js

  /** The class `[^\s@]`. */
  predicate Plain(c: char) {
    !IsSpace(c) && c != '@'
  }

  predicate AllPlain(s: string) {
    forall k :: 0 <= k < |s| ==> Plain(s[k])
  }

  /** The pattern as written: a non-empty run of plain characters, `@`, another
      run, a `.`, and a last run, covering the whole string. Backtracking lets
      the `.` be any dot after the `@` that leaves both runs around it non-empty. */
  predicate MatchesEmailPattern(s: string) {
    exists i, j :: 0 < i < |s| && i + 1 < j < |s| - 1 && s[i] == '@' && s[j] == '.' &&
                   AllPlain(s[..i]) && AllPlain(s[i + 1..j]) && AllPlain(s[j + 1..])
  }

  /** The same strings described without the pattern: no white space, exactly
      one `@` and not in front, and some `.` after it, neither right after the
      `@` nor last. */
  predicate EmailShape(s: string) {
    && (forall k :: 0 <= k < |s| ==> !IsSpace(s[k]))
    && exists i :: 0 < i < |s| && s[i] == '@' &&
         (forall k :: 0 <= k < |s| && s[k] == '@' ==> k == i) &&
         exists j :: i + 1 < j < |s| - 1 && s[j] == '.'
  }

  lemma PatternGivesShape(s: string, i: int, j: int)
    requires 0 < i < |s| && i + 1 < j < |s| - 1 && s[i] == '@' && s[j] == '.'
    requires AllPlain(s[..i]) && AllPlain(s[i + 1..j]) && AllPlain(s[j + 1..])
    ensures EmailShape(s)
  {
    forall k | 0 <= k < |s| && k != i && k != j ensures Plain(s[k]) {
      if k < i {
        assert s[..i][k] == s[k];
      } else if k < j {
        assert s[i + 1..j][k - i - 1] == s[k];
      } else {
        assert s[j + 1..][k - j - 1] == s[k];
      }
    }
    assert forall k :: 0 <= k < |s| ==> !IsSpace(s[k]);
  }

  lemma ShapeGivesPattern(s: string, i: int, j: int)
    requires forall k :: 0 <= k < |s| ==> !IsSpace(s[k])
    requires 0 < i < |s| && s[i] == '@' && forall k :: 0 <= k < |s| && s[k] == '@' ==> k == i
    requires i + 1 < j < |s| - 1 && s[j] == '.'
    ensures MatchesEmailPattern(s)
  {
    assert AllPlain(s[..i]) by {
      forall k | 0 <= k < i ensures Plain(s[..i][k]) {
        assert s[..i][k] == s[k];
      }
    }
    var domain := s[i + 1..j];
    assert AllPlain(domain) by {
      forall k | 0 <= k < |domain| ensures Plain(domain[k]) {
        assert domain[k] == s[k + i + 1];
      }
    }
    var top := s[j + 1..];
    assert AllPlain(top) by {
      forall k | 0 <= k < |top| ensures Plain(top[k]) {
        assert top[k] == s[k + j + 1];
      }
    }
  }

  /** The pattern accepts a string exactly when it has the described shape. */
  lemma EmailPatternIff(s: string)
    ensures MatchesEmailPattern(s) <==> EmailShape(s)
  {
    if MatchesEmailPattern(s) {
      var i, j :| 0 < i < |s| && i + 1 < j < |s| - 1 && s[i] == '@' && s[j] == '.' &&
                  AllPlain(s[..i]) && AllPlain(s[i + 1..j]) && AllPlain(s[j + 1..]);
      PatternGivesShape(s, i, j);
    }
    if EmailShape(s) {
      var i :| 0 < i < |s| && s[i] == '@' &&
               (forall k :: 0 <= k < |s| && s[k] == '@' ==> k == i) &&
               exists j :: i + 1 < j < |s| - 1 && s[j] == '.';
      var j :| i + 1 < j < |s| - 1 && s[j] == '.';
      ShapeGivesPattern(s, i, j);
    }
  }

  /** The e-mail rule both forms apply: required, then the pattern. */
  function EmailError(email: string): (r: Option<string>)
    ensures r.None? <==> EmailShape(email)
    ensures email == "" ==> r == Some("Email is required")
    ensures email != "" && !EmailShape(email) ==> r == Some("Please enter a valid email")
  {
    EmailPatternIff(email);
    if email == "" then Some("Email is required")
    else if !MatchesEmailPattern(email) then Some("Please enter a valid email")
    else None
  }

  /** An accepted address has at least five characters. In particular the
      pattern rejects the empty string, so the forms' separate "required" check
      only decides which message is shown. */
  lemma EmailPatternNeedsFive(s: string)
    requires MatchesEmailPattern(s)
    ensures |s| >= 5
  {
  }
}
