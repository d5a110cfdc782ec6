/**
 * The register route's e-mail check, `/^[^\s@]+@[^\s@]+\.[^\s@]+$/.test(email)`:
 * the regular expression as a reference predicate, the check the model uses,
 * and the proof that the two agree on every string.
 */
module Email {
  import opened Wrappers
  import opened Strings

  /** A character of the class `[^\s@]`. */
  predicate IsSegmentChar(c: char) {
    !IsSpace(c) && c != '@'
  }

  /** A match of `[^\s@]+`. */
  predicate IsSegment(s: String) {
    |s| > 0 && forall k :: 0 <= k < |s| ==> IsSegmentChar(s[k])
  }

  /** `s` matches the pattern with its `@` at index `at` and the literal `.` at index `dot`. */
  predicate SplitsAt(s: String, at: int, dot: int) {
    && 0 <= at < dot < |s|
    && s[at] == '@' && s[dot] == '.'
    && IsSegment(s[..at]) && IsSegment(s[at + 1..dot]) && IsSegment(s[dot + 1..])
  }

  /** Reference: the whole of `s` matches `^[^\s@]+@[^\s@]+\.[^\s@]+$`. */
  ghost predicate MatchesPattern(s: String) {
    exists at, dot :: SplitsAt(s, at, dot)
  }

  /**
   * The check as the model performs it: no white space, a non-empty part
   * before the first `@`, no second `@`, and a `.` in the domain with at
   * least one character on each side of it.
   */
  predicate IsValidEmail(s: String) {
    match IndexOf(s, "@")
    case None => false
    case Some(at) =>
      && at > 0
      && (forall k :: 0 <= k < |s| ==> !IsSpace(s[k]))
      && (forall k :: at < k < |s| ==> s[k] != '@')
      && (exists k :: at + 1 < k < |s| - 1 && s[k] == '.')
  }

  lemma OccursAtSingle(s: String, c: char, k: int)
    requires 0 <= k < |s|
    ensures OccursAt(s, [c], k) <==> s[k] == c
  {
    assert s[k..k + 1] == [s[k]];
  }

  /** The check accepts exactly the strings the regular expression matches. */
  lemma {:induction false} IsValidEmailMatchesPattern(s: String)
    ensures IsValidEmail(s) <==> MatchesPattern(s)
  {
    if IsValidEmail(s) {
      var at := IndexOf(s, "@").value;
      var dot :| at + 1 < dot < |s| - 1 && s[dot] == '.';
      OccursAtSingle(s, '@', at);
      forall k | 0 <= k < at
        ensures s[k] != '@'
      {
        OccursAtSingle(s, '@', k);
      }
      assert SplitsAt(s, at, dot);
    }
    if MatchesPattern(s) {
      var at, dot :| SplitsAt(s, at, dot);
      assert forall k :: 0 <= k < at ==> s[..at][k] == s[k];
      assert forall k :: at < k < dot ==> s[at + 1..dot][k - at - 1] == s[k];
      assert forall k :: dot < k < |s| ==> s[dot + 1..][k - dot - 1] == s[k];
      OccursAtSingle(s, '@', at);
      var first := IndexOf(s, "@").value;
      OccursAtSingle(s, '@', first);
      assert first == at;
      forall k | 0 <= k < |s|
        ensures !IsSpace(s[k])
      {
        if k != at && k != dot {
          assert IsSegmentChar(s[k]);
        }
      }
    }
  }

  /** Boundary cases of the pattern: the shortest address passes; a second `@`, a space or a missing domain dot fail. */
  lemma PatternExamples()
    ensures IsValidEmail("a@b.c")
    ensures !IsValidEmail("a@b@c.d")
    ensures !IsValidEmail("a b@c.d")
    ensures !IsValidEmail("a@bc")
    ensures !IsValidEmail("@b.c")
  {
    assert SplitsAt("a@b.c", 1, 3);
    IsValidEmailMatchesPattern("a@b.c");
    assert "a@b@c.d"[3] == '@';
    assert "a b@c.d"[1] == ' ';
  }
}
