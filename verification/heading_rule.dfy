/** The default release-heading rule (src/constants.ts:4-8) and what its
    regular expressions accept.

    `process` builds its patterns by concatenation, without escaping the
    version (src/main.ts:43-44). The default target pattern is therefore
    `^## \[?` + version + `[\] ]`, and every `.` in the version is a
    wildcard. This module interprets that pattern for versions whose only
    regular-expression metacharacter is `.`, and the default prefix alone. */
module HeadingRule {
  import Text

  /** `RELEASE_HEADING_PREFIX` (src/constants.ts:5): the regular expression
      `^## \[?`. */
  const DefaultPrefix: string := "^## \\[?"

  /** `RELEASE_HEADING_SUFFIX` (src/constants.ts:8): the regular expression
      `[\] ]`, one `]` or one space. */
  const DefaultSuffix: string := "[\\] ]"

  /** Characters with a meaning of their own in a JavaScript regular
      expression, other than `.`. */
  const Metacharacters: set<char> :=
    {'\\', '^', '$', '|', '?', '*', '+', '(', ')', '[', ']', '{', '}'}

  /** A version the model can read as a pattern: at most `.` is special. */
  predicate IsPlainVersion(v: string) {
    forall k :: 0 <= k < |v| ==> v[k] !in Metacharacters
  }

  /** One version character against one line character. */
  predicate CharMatches(p: char, c: char) {
    if p == '.' then !Text.IsLineTerminator(c) else p == c
  }

  /** The version, read as a pattern, matches the segment exactly. */
  predicate SegmentMatches(v: string, seg: string) {
    |seg| == |v| && forall k :: 0 <= k < |v| ==> CharMatches(v[k], seg[k])
  }

  /** The version pattern matches at offset `o` of the line and is followed
      by `]` or a space. */
  predicate VersionAt(v: string, line: string, o: nat) {
    o + |v| < |line| && SegmentMatches(v, line[o..o + |v|]) && line[o + |v|] in {']', ' '}
  }

  /** `^## \[?` + v + `[\] ]` tests true: the line starts with "## ", then,
      after an optional "[", the version and a `]` or a space. The anchor
      ties the match to the start; backtracking tries the `[` both ways. */
  predicate DefaultTargetTest(v: string, line: string) {
    && |line| >= 3 && line[..3] == "## "
    && (VersionAt(v, line, 3) || (|line| > 3 && line[3] == '[' && VersionAt(v, line, 4)))
  }

  /** `^## \[?` tests true: the line starts with "## " (the `[` is optional,
      so it never stops a match). */
  predicate DefaultHeadingTest(line: string) {
    |line| >= 3 && line[..3] == "## "
  }

  /** The pattern is the default prefix, a plain version and the default
      suffix. */
  predicate IsDefaultTargetPattern(pattern: string) {
    && |pattern| >= |DefaultPrefix| + |DefaultSuffix|
    && pattern[..|DefaultPrefix|] == DefaultPrefix
    && pattern[|pattern| - |DefaultSuffix|..] == DefaultSuffix
    && IsPlainVersion(pattern[|DefaultPrefix|..|pattern| - |DefaultSuffix|])
  }

  /** `new RegExp(pattern).test(line)` for the patterns of the default rule;
      any other pattern is handed to `other`, the rest of a regular
      expression engine, which this model does not interpret. */
  predicate PatternTest(other: (string, string) -> bool, pattern: string, line: string) {
    if pattern == DefaultPrefix then DefaultHeadingTest(line)
    else if IsDefaultTargetPattern(pattern) then
      DefaultTargetTest(pattern[|DefaultPrefix|..|pattern| - |DefaultSuffix|], line)
    else other(pattern, line)
  }

  /** The engine as a value, for `process` to call. */
  function Engine(other: (string, string) -> bool): (string, string) -> bool {
    (p, l) => PatternTest(other, p, l)
  }

  /** The pattern assembled for a plain version tests exactly as the
      default target rule says, whatever the rest of the engine does. */
  lemma {:induction false} PatternTestTarget(other: (string, string) -> bool, v: string, line: string)
    requires IsPlainVersion(v)
    ensures PatternTest(other, DefaultPrefix + v + DefaultSuffix, line) == DefaultTargetTest(v, line)
  {
    var pattern := DefaultPrefix + v + DefaultSuffix;
    assert pattern[..|DefaultPrefix|] == DefaultPrefix;
    assert pattern[|pattern| - |DefaultSuffix|..] == DefaultSuffix;
    assert pattern[|DefaultPrefix|..|pattern| - |DefaultSuffix|] == v;
    assert pattern != DefaultPrefix by {
      assert |pattern| > |DefaultPrefix|;
    }
  }

  /** Every default target heading is a default heading, so the heading
      that starts a section can never be collected into it. */
  lemma {:induction false} TargetIsHeading(v: string, line: string)
    requires DefaultTargetTest(v, line)
    ensures DefaultHeadingTest(line)
  {
  }

  /** A version matches itself, since a `.` matches the `.` it stands for. */
  lemma {:induction false} SegmentMatchesItself(v: string)
    ensures SegmentMatches(v, v)
  {
    forall k | 0 <= k < |v| ensures CharMatches(v[k], v[k]) {
    }
  }

  /** The two heading shapes the rule is meant for are recognised:
      `## v ...` and `## [v]...`. */
  lemma {:induction false} DefaultAcceptsHeadings(v: string, rest: string)
    ensures DefaultTargetTest(v, "## " + v + " " + rest)
    ensures DefaultTargetTest(v, "## [" + v + "]" + rest)
  {
    SegmentMatchesItself(v);
    var a := "## " + v + " " + rest;
    assert a[..3] == "## " && a[3..3 + |v|] == v && a[3 + |v|] == ' ';
    var b := "## [" + v + "]" + rest;
    assert b[..3] == "## " && b[3] == '[' && b[4..4 + |v|] == v && b[4 + |v|] == ']';
  }

  /** The heading of the line built from `w` in one of the two shapes. */
  function HeadingLine(bracketed: bool, w: string, tail: string): string {
    (if bracketed then "## [" else "## ") + w + tail
  }

  /** A version matched one character to the right of its own copy, where
      the first character faces a `[`, is all wildcards: the `[` forces a
      `.` first, and each `.` then forces the next one. */
  lemma {:induction false} ShiftedMatchIsAllDots(v: string, w: string)
    requires 0 < |v| <= |w| && w[..|v|] == v
    requires v[0] == '.'
    requires forall k :: 1 <= k < |v| ==> CharMatches(v[k], w[k - 1])
    ensures forall k :: 0 <= k < |v| ==> v[k] == '.'
  {
    var n := 1;
    while n < |v|
      invariant 1 <= n <= |v|
      invariant forall k :: 0 <= k < n ==> v[k] == '.'
    {
      assert w[n - 1] == v[n - 1];
      n := n + 1;
    }
  }

  /** In the bracketed shape the version cannot match at the `[` itself:
      that would make it all wildcards, and the character after it a `.`
      rather than `]` or a space. */
  lemma {:induction false} BracketNotInVersion(v: string, w: string, tail: string)
    requires 0 < |v| < |w| && w[..|v|] == v
    requires v[0] != '['
    ensures !VersionAt(v, HeadingLine(true, w, tail), 3)
  {
    var line := HeadingLine(true, w, tail);
    if SegmentMatches(v, line[3..3 + |v|]) {
      var seg := line[3..3 + |v|];
      assert seg[0] == '[';
      forall k | 1 <= k < |v| ensures CharMatches(v[k], w[k - 1]) {
        assert seg[k] == line[3 + k] == w[k - 1];
      }
      ShiftedMatchIsAllDots(v, w);
      assert line[3 + |v|] == w[|v| - 1] == v[|v| - 1] == '.';
    }
  }

  /** A version that is a strict prefix of a heading's version, where the
      heading's version goes on with anything but `]` or a space (`v2.5`
      against `## v2.5.0 ...` or `## [v2.5.0](...)`), does not match: the
      suffix demands `]` or a space right after the version. */
  lemma {:induction false} DefaultRejectsVersionPrefix(v: string, w: string, tail: string, bracketed: bool)
    requires 0 < |v| < |w| && w[..|v|] == v
    requires v[0] != '['
    requires w[|v|] != ']' && w[|v|] != ' '
    ensures !DefaultTargetTest(v, HeadingLine(bracketed, w, tail))
  {
    var line := HeadingLine(bracketed, w, tail);
    if bracketed {
      BracketNotInVersion(v, w, tail);
      assert line[4 + |v|] == w[|v|];
    } else {
      assert line[3 + |v|] == w[|v|];
      assert line[3] == w[0] == v[0];
    }
  }
}
