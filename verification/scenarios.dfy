/** Consequences of the default heading rule, and worked examples under it:
    a release in the middle of a changelog, an absent release, a version
    that is a prefix of a real one, and the notes `main` produces. */
module Scenarios {
  import opened Wrappers
  import opened Text
  import opened Extractor
  import opened HeadingRule
  import opened Action

  /** Under the default rule no collected line is a heading of any release,
      and in particular not the target heading itself (src/main.ts:59-79). */
  lemma {:induction false} DefaultBodyHasNoHeading(other: RegexTest, version: string, changelog: seq<string>)
    requires IsPlainVersion(version)
    ensures var test := Engine(other);
      var r := Extract(TargetTest(test, DefaultFilter, version), HeadingTest(test, DefaultFilter), changelog);
      forall k :: 0 <= k < |r.body| ==>
        !DefaultHeadingTest(r.body[k]) && !DefaultTargetTest(version, r.body[k])
  {
    var test := Engine(other);
    var isTarget := TargetTest(test, DefaultFilter, version);
    var isHeading := HeadingTest(test, DefaultFilter);
    forall l | isTarget(l) ensures isHeading(l) {
      PatternTestTarget(other, version, l);
      TargetIsHeading(version, l);
    }
    ExtractBodyHasNoHeading(isTarget, isHeading, changelog);
    var r := Extract(isTarget, isHeading, changelog);
    forall k | 0 <= k < |r.body|
      ensures !DefaultHeadingTest(r.body[k]) && !DefaultTargetTest(version, r.body[k])
    {
      PatternTestTarget(other, version, r.body[k]);
    }
  }

  /** A small changelog with two releases in the bracketed shape. */
  const Sample: seq<string> :=
    ["# Changelog", "", "## [1.2.0]", "- Fixed bug", "", "## [1.1.0]", "- Old"]

  /** Under the default rule only the third line of the sample is the
      heading of `1.2.0`. */
  lemma {:induction false} SampleTargets(other: RegexTest)
    ensures forall k :: 0 <= k < |Sample| ==>
      (TargetTest(Engine(other), DefaultFilter, "1.2.0")(Sample[k]) <==> k == 2)
  {
    assert IsPlainVersion("1.2.0");
    forall k | 0 <= k < |Sample|
      ensures TargetTest(Engine(other), DefaultFilter, "1.2.0")(Sample[k]) <==> k == 2
    {
      PatternTestTarget(other, "1.2.0", Sample[k]);
      if k == 2 {
        DefaultAcceptsHeadings("1.2.0", "");
        assert Sample[k] == "## [" + "1.2.0" + "]" + "";
      } else if k == 5 {
        assert Sample[k][4..9][2] == '1';
        assert !SegmentMatches("1.2.0", Sample[k][4..9]);
        assert Sample[k][3..8][0] == '[';
      }
    }
  }

  /** The third and the sixth line of the sample are release headings. */
  lemma {:induction false} SampleReleaseHeadings(other: RegexTest)
    ensures forall k :: 0 <= k < |Sample| ==>
      (HeadingTest(Engine(other), DefaultFilter)(Sample[k]) <==> k == 2 || k == 5)
  {
    forall k | 0 <= k < |Sample|
      ensures HeadingTest(Engine(other), DefaultFilter)(Sample[k]) <==> k == 2 || k == 5
    {
      assert HeadingTest(Engine(other), DefaultFilter)(Sample[k]) == DefaultHeadingTest(Sample[k]);
      if k == 0 {
        assert Sample[k][1] == ' ';
      } else if k == 3 || k == 6 {
        assert Sample[k][0] == '-';
      } else if k == 2 || k == 5 {
        assert Sample[k][..3] == "## ";
      }
    }
  }

  /** Extracting `1.2.0`: the section is the two lines after its heading,
      and the scan stops after reading the `1.1.0` heading, the sixth line
      (src/main.ts:57-88). The changelog is passed as a variable
      equal to the sample, so that the solver does not evaluate the scan
      on the literal. */
  lemma {:induction false} MiddleRelease(other: RegexTest, changelog: seq<string>)
    requires changelog == Sample
    ensures var test := Engine(other);
      Extract(TargetTest(test, DefaultFilter, "1.2.0"), HeadingTest(test, DefaultFilter), changelog)
        == Scan(Finished, ["- Fixed bug", ""], 6)
  {
    var test := Engine(other);
    var isTarget := TargetTest(test, DefaultFilter, "1.2.0");
    var isHeading := HeadingTest(test, DefaultFilter);
    SampleTargets(other);
    SampleReleaseHeadings(other);
    ExtractFound(isTarget, isHeading, changelog, 2, 5);
    assert changelog[3..5] == ["- Fixed bug", ""];
  }

  /** `main` succeeds for `1.2.0` with the notes `- Fixed bug`: the section
      without its trailing blank line. No notes path was given, so no file
      is written and the notes reach no output. */
  lemma {:induction false} MiddleReleaseNotes(other: RegexTest, changelog: seq<string>, inputs: Inputs)
    requires changelog == Sample
    requires inputs == Inputs("CHANGELOG.md", "", "1.2.0", "", "")
    ensures Main(inputs, changelog, Engine(other)) == Success(Written("- Fixed bug", None))
  {
    var test := Engine(other);
    var ctx := MainContext(inputs);
    assert EffectiveFilter(ctx) == DefaultFilter && ctx.version == "1.2.0";
    assert ScanFor(ctx, changelog, test).body == ["- Fixed bug", ""] by {
      MiddleRelease(other, changelog);
    }
    FixedBugIsTrimmed();
    NotesOfLineAndBlank(ctx, changelog, test, "- Fixed bug");
    assert Main(inputs, changelog, test) == Process(ctx, changelog, test);
  }

  /** The expected notes line has no surrounding whitespace. */
  lemma {:induction false} FixedBugIsTrimmed()
    ensures IsTrimmed("- Fixed bug")
  {
  }

  /** A section made of one trimmed line and an empty line yields that line
      as the notes. */
  lemma {:induction false} NotesOfLineAndBlank(ctx: ActionContext, changelog: seq<string>, test: RegexTest, x: string)
    requires ValidInputs(ctx) && ctx.notes == ""
    requires ScanFor(ctx, changelog, test).body == [x, ""]
    requires x != [] && IsTrimmed(x)
    ensures Process(ctx, changelog, test) == Success(Written(x, None))
  {
    assert [x, ""][1..] == [""];
    assert JoinLines([x, ""]) == x + "\n" + "";
    TrimOfPadded("", x, "\n");
    assert "" + x + "\n" == x + "\n" + "";
  }

  /** Extracting `9.9.9`, which has no heading: nothing is collected, all
      seven lines are read and `main` fails for that version
      (src/main.ts:45, 59-67, 122-123). */
  lemma {:induction false} AbsentRelease(other: RegexTest, changelog: seq<string>, inputs: Inputs)
    requires changelog == Sample
    requires inputs == Inputs("CHANGELOG.md", "", "9.9.9", "", "")
    ensures var test := Engine(other);
      Extract(TargetTest(test, DefaultFilter, "9.9.9"), HeadingTest(test, DefaultFilter), changelog)
        == Scan(Searching, [], 7)
    ensures Main(inputs, changelog, Engine(other)) == Failure(NoReleaseNotes("9.9.9"))
  {
    var test := Engine(other);
    var isTarget := TargetTest(test, DefaultFilter, "9.9.9");
    assert IsPlainVersion("9.9.9");
    forall k | 0 <= k < |changelog| ensures !isTarget(changelog[k]) {
      PatternTestTarget(other, "9.9.9", changelog[k]);
      if k == 2 || k == 5 {
        assert !CharMatches('9', changelog[k][3]) && !CharMatches('9', changelog[k][4]);
        assert changelog[k][3..8][0] == changelog[k][3];
        assert changelog[k][4..9][0] == changelog[k][4];
      }
    }
    ExtractNotFound(isTarget, HeadingTest(test, DefaultFilter), changelog);
    var ctx := MainContext(inputs);
    assert EffectiveFilter(ctx) == DefaultFilter;
    ProcessFailsWhenNotFound(ctx, changelog, test);
  }

  /** What follows the version in a fixture heading: the date, or in the
      bracketed shape the closing `]`, the compare link and the date. */
  function FixtureTail(bracketed: bool): string {
    if bracketed then "](https://example.local/org/repo/compare/v2.5.0..HEAD) - *2025-01-01*"
    else " - *2025-01-01*"
  }

  /** A one-release changelog for `v2.5.0` in the shape of the test
      fixtures: `## v2.5.0 - *date*` or
      `## [v2.5.0](.../compare/v2.5.0..HEAD) - *date*`. */
  function FixtureChangelog(bracketed: bool): seq<string> {
    ["# Changelog", "", HeadingLine(bracketed, "v2.5.0", FixtureTail(bracketed)), "", "### Features", "", "- Change summary 1", ""]
  }

  /** No line of that changelog is a default heading for `v2.5`. */
  lemma {:induction false} FixtureHasNoPrefixTarget(other: RegexTest, bracketed: bool, changelog: seq<string>)
    requires changelog == FixtureChangelog(bracketed)
    ensures forall k :: 0 <= k < |changelog| ==>
      !Engine(other)(DefaultPrefix + "v2.5" + DefaultSuffix, changelog[k])
  {
    var heading := HeadingLine(bracketed, "v2.5.0", FixtureTail(bracketed));
    assert IsPlainVersion("v2.5");
    DefaultRejectsVersionPrefix("v2.5", "v2.5.0", FixtureTail(bracketed), bracketed);
    forall k | 0 <= k < |changelog|
      ensures changelog[k] == heading || NotHeadingShaped(changelog[k])
    {
    }
    OnlyHeadingCouldMatch(other, "v2.5", heading, changelog);
  }

  /** The line cannot start with "## ": it is short, or its second
      character is not `#`, or its third is not a space. */
  predicate NotHeadingShaped(line: string) {
    |line| < 3 || line[1] != '#' || line[2] != ' '
  }

  /** If the only heading-shaped line is one the target rule rejects, no
      line passes the assembled target pattern. */
  lemma {:induction false} OnlyHeadingCouldMatch(other: RegexTest, v: string, heading: string, lines: seq<string>)
    requires IsPlainVersion(v) && !DefaultTargetTest(v, heading)
    requires forall k :: 0 <= k < |lines| ==> lines[k] == heading || NotHeadingShaped(lines[k])
    ensures forall k :: 0 <= k < |lines| ==> !Engine(other)(DefaultPrefix + v + DefaultSuffix, lines[k])
  {
    forall k | 0 <= k < |lines|
      ensures !Engine(other)(DefaultPrefix + v + DefaultSuffix, lines[k])
    {
      PatternTestTarget(other, v, lines[k]);
      if lines[k] != heading {
        NoHeadingShape(v, lines[k]);
      }
    }
  }

  /** A line whose second character is not `#`, or whose third is not a
      space, is no default heading, let alone a target heading. */
  lemma {:induction false} NoHeadingShape(v: string, line: string)
    requires NotHeadingShaped(line)
    ensures !DefaultHeadingTest(line) && !DefaultTargetTest(v, line)
  {
    if |line| >= 3 {
      assert line[..3][1] == line[1] && line[..3][2] == line[2];
    }
  }

  /** With the default rule, a version that is a strict prefix of the only
      release's version (`v2.5` when the changelog has `v2.5.0`) yields no
      notes, in both heading shapes of the test changelogs
      (test/changelog.ts:48-75, test/main.test.ts:26-34, 105-145). */
  lemma {:induction false} MainRejectsVersionPrefix(other: RegexTest, bracketed: bool, changelog: seq<string>, inputs: Inputs)
    requires changelog == FixtureChangelog(bracketed)
    requires inputs.version == "v2.5" && inputs.changelogFile != ""
    requires inputs.headingPrefix == "" && inputs.headingSuffix == ""
    ensures Main(inputs, changelog, Engine(other)) == Failure(NoReleaseNotes("v2.5"))
  {
    var ctx := MainContext(inputs);
    assert EffectiveFilter(ctx) == DefaultFilter;
    FixtureHasNoPrefixTarget(other, bracketed, changelog);
    ProcessFailsWhenNotFound(ctx, changelog, Engine(other));
  }
}
