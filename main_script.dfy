/**
 * The login script's two decisions: writing a freshly obtained access
 * token over the placeholder line of the configuration text
 * (`str.replace`), and choosing between the login flow and the stored
 * token at start-up. Reading and writing the configuration file are left
 * to the caller: the text read in is a parameter and the text written out
 * is the result.
 */
module MainScript {

  const PlaceholderToken: string := "your_access_token_here"

  /** The configuration line as shipped, before any login. */
  const PlaceholderLine: string := "ACCESS_TOKEN = '" + PlaceholderToken + "'"

  /** The configuration line carrying `token`. */
  function TokenLine(token: string): string
  {
    "ACCESS_TOKEN = '" + token + "'"
  }

  /** `pattern` occurs in `s` starting at index i. */
  predicate OccursAt(s: string, pattern: string, i: nat)
  {
    i + |pattern| <= |s| && s[i..i + |pattern|] == pattern
  }

  /** `str.replace(pattern, replacement)` for a non-empty pattern: every non-overlapping occurrence, scanning left to right. */
  function Replace(s: string, pattern: string, replacement: string): string
    requires |pattern| > 0
  {
    if |s| < |pattern| then s
    else if s[..|pattern|] == pattern then replacement + Replace(s[|pattern|..], pattern, replacement)
    else [s[0]] + Replace(s[1..], pattern, replacement)
  }

  /** `str.count(pattern)`: the occurrences that scan replaces. */
  function Count(s: string, pattern: string): nat
    requires |pattern| > 0
  {
    if |s| < |pattern| then 0
    else if s[..|pattern|] == pattern then 1 + Count(s[|pattern|..], pattern)
    else Count(s[1..], pattern)
  }

  /** The scan replaces nothing exactly when the pattern occurs nowhere. */
  lemma {:induction false} CountZeroIffAbsent(s: string, pattern: string)
    requires |pattern| > 0
    ensures Count(s, pattern) == 0 <==> forall i: nat :: !OccursAt(s, pattern, i)
  {
    if |s| < |pattern| {
    } else if s[..|pattern|] == pattern {
      assert OccursAt(s, pattern, 0);
    } else {
      CountZeroIffAbsent(s[1..], pattern);
      if Count(s, pattern) == 0 {
        forall i: nat
          ensures !OccursAt(s, pattern, i)
        {
          if i > 0 && OccursAt(s, pattern, i) {
            assert s[1..][i - 1..i - 1 + |pattern|] == s[i..i + |pattern|];
            assert OccursAt(s[1..], pattern, i - 1);
          }
        }
      } else {
        var j: nat :| OccursAt(s[1..], pattern, j);
        assert s[1..][j..j + |pattern|] == s[j + 1..j + 1 + |pattern|];
        assert OccursAt(s, pattern, j + 1);
      }
    }
  }

  /** Without an occurrence the text comes back unchanged. */
  lemma {:induction false} NoOccurrenceUnchanged(s: string, pattern: string, replacement: string)
    requires |pattern| > 0 && Count(s, pattern) == 0
    ensures Replace(s, pattern, replacement) == s
  {
    if |s| >= |pattern| {
      NoOccurrenceUnchanged(s[1..], pattern, replacement);
      assert [s[0]] + s[1..] == s;
    }
  }

  /** Each replaced occurrence changes the length by the difference of the two strings' lengths. */
  lemma {:induction false} ReplaceLength(s: string, pattern: string, replacement: string)
    requires |pattern| > 0
    ensures |Replace(s, pattern, replacement)| == |s| + Count(s, pattern) * (|replacement| - |pattern|)
  {
    if |s| >= |pattern| {
      if s[..|pattern|] == pattern {
        var rest := s[|pattern|..];
        ReplaceLength(rest, pattern, replacement);
        assert Replace(s, pattern, replacement) == replacement + Replace(rest, pattern, replacement);
        assert Count(s, pattern) == 1 + Count(rest, pattern);
        assert |s| == |pattern| + |rest|;
        assert (1 + Count(rest, pattern)) * (|replacement| - |pattern|)
            == (|replacement| - |pattern|) + Count(rest, pattern) * (|replacement| - |pattern|);
      } else {
        ReplaceLength(s[1..], pattern, replacement);
        assert Replace(s, pattern, replacement) == [s[0]] + Replace(s[1..], pattern, replacement);
        assert Count(s, pattern) == Count(s[1..], pattern);
      }
    }
  }

  /** Replacing a pattern by itself changes nothing: the text between occurrences is kept as it was. */
  lemma {:induction false} ReplaceBySelf(s: string, pattern: string)
    requires |pattern| > 0
    ensures Replace(s, pattern, pattern) == s
  {
    if |s| >= |pattern| {
      if s[..|pattern|] == pattern {
        ReplaceBySelf(s[|pattern|..], pattern);
        assert s[..|pattern|] + s[|pattern|..] == s;
      } else {
        ReplaceBySelf(s[1..], pattern);
        assert [s[0]] + s[1..] == s;
      }
    }
  }

  /**
   * update_config_access_token: the text written back is the text read
   * with every placeholder line replaced by the token's line; a text
   * without the placeholder line is written back unchanged, and each
   * replaced line changes the length by the difference in token length.
   */
  function UpdateConfigAccessToken(content: string, token: string): (updated: string)
    ensures Count(content, PlaceholderLine) == 0 ==> updated == content
    ensures |updated| == |content| + Count(content, PlaceholderLine) * (|token| - |PlaceholderToken|)
  {
    NoOccurrenceUnchangedFor(content, token);
    ReplaceLength(content, PlaceholderLine, TokenLine(token));
    Replace(content, PlaceholderLine, TokenLine(token))
  }

  lemma NoOccurrenceUnchangedFor(content: string, token: string)
    ensures Count(content, PlaceholderLine) == 0 ==> Replace(content, PlaceholderLine, TokenLine(token)) == content
  {
    if Count(content, PlaceholderLine) == 0 {
      NoOccurrenceUnchanged(content, PlaceholderLine, TokenLine(token));
    }
  }

  datatype Startup = Authenticate | UseStoredToken

  /** main: the interactive login runs exactly when the configured token is still the placeholder. */
  function StartupPath(accessToken: string): (p: Startup)
    ensures p == Authenticate <==> accessToken == PlaceholderToken
  {
    if accessToken == PlaceholderToken then Authenticate else UseStoredToken
  }

  /**
   * When the scan meets no occurrence before the one that starts right after
   * `a`, the text before it is kept, that occurrence becomes the replacement,
   * and the scan carries on after it.
   */
  lemma {:induction false} ReplaceFirstOccurrence(a: string, pattern: string, b: string, replacement: string)
    requires |pattern| > 0
    requires forall i: nat :: i < |a| ==> !OccursAt(a + pattern, pattern, i)
    ensures Replace(a + pattern + b, pattern, replacement) == a + replacement + Replace(b, pattern, replacement)
  {
    var s := a + pattern + b;
    if a == [] {
      assert s == pattern + b;
      assert s[..|pattern|] == pattern && s[|pattern|..] == b;
    } else {
      assert s[..|pattern|] != pattern by {
        assert s[..|pattern|] == (a + pattern)[0..|pattern|];
        assert !OccursAt(a + pattern, pattern, 0);
      }
      assert Replace(s, pattern, replacement) == [s[0]] + Replace(s[1..], pattern, replacement);
      assert s[1..] == a[1..] + pattern + b;
      NoEarlyOccurrenceInTail(a, pattern);
      ReplaceFirstOccurrence(a[1..], pattern, b, replacement);
      assert [s[0]] + a[1..] == a;
    }
  }

  /** Dropping the first character keeps the scan free of occurrences before the appended pattern. */
  lemma NoEarlyOccurrenceInTail(a: string, pattern: string)
    requires |a| > 0
    requires forall i: nat :: i < |a| ==> !OccursAt(a + pattern, pattern, i)
    ensures forall i: nat :: i < |a[1..]| ==> !OccursAt(a[1..] + pattern, pattern, i)
  {
    forall i: nat | i < |a[1..]|
      ensures !OccursAt(a[1..] + pattern, pattern, i)
    {
      assert (a[1..] + pattern)[i..i + |pattern|] == (a + pattern)[i + 1..i + 1 + |pattern|];
      assert !OccursAt(a + pattern, pattern, i + 1);
    }
  }

  /** The placeholder line has no 'A' after its first character, so it cannot overlap a later copy of itself. */
  lemma PlaceholderLineHasNoBorder()
    ensures forall d :: 0 < d < |PlaceholderLine| ==> PlaceholderLine[d] != 'A'
  {
  }

  /** In a text free of the placeholder line, no occurrence of it can start before the copy appended to it. */
  lemma PlaceholderFirstAfterFreeText(a: string)
    requires Count(a, PlaceholderLine) == 0
    ensures forall i: nat :: i < |a| ==> !OccursAt(a + PlaceholderLine, PlaceholderLine, i)
  {
    CountZeroIffAbsent(a, PlaceholderLine);
    PlaceholderLineHasNoBorder();
    forall i: nat | i < |a|
      ensures !OccursAt(a + PlaceholderLine, PlaceholderLine, i)
    {
      var P := PlaceholderLine;
      if i + |P| <= |a| {
        // an occurrence inside `a` would be one of `a` itself
        assert !OccursAt(a, P, i);
        assert a[i..i + |P|] == (a + P)[i..i + |P|];
      } else {
        // one straddling the end of `a` would need P's leading 'A' at offset |a| - i of P
        var d := |a| - i;
        assert 0 < d < |P|;
        assert (a + P)[i..i + |P|][d] == (a + P)[|a|] == 'A' != P[d];
      }
    }
  }

  /**
   * update_config_access_token on a text whose first placeholder line comes
   * after `a`: the text before it is kept, the line becomes the token's line,
   * and the rest is updated in the same way.
   */
  lemma FirstPlaceholderReplaced(a: string, b: string, token: string)
    requires Count(a, PlaceholderLine) == 0
    ensures UpdateConfigAccessToken(a + PlaceholderLine + b, token) == a + TokenLine(token) + UpdateConfigAccessToken(b, token)
  {
    PlaceholderFirstAfterFreeText(a);
    ReplaceFirstOccurrence(a, PlaceholderLine, b, TokenLine(token));
  }
}
