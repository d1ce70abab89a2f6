/** The policy around the scanner: `FilterConfig`, `process` and the
    configuration step of `main` (src/main.ts:13-34, 107-163).

    The file system is replaced by values: the changelog is given as the
    lines a line reader yields for it, and writing the notes file is
    reported as the path written to. `new RegExp(p).test(l)` is the
    parameter `test(p, l)`. */
module Action {
  import opened Wrappers
  import opened Text
  import Extractor
  import HeadingRule

  /** `new RegExp(pattern).test(line)`. */
  type RegexTest = (string, string) -> bool

  /** `FilterConfig` (src/main.ts:13-25): the heading prefix and suffix
      patterns. */
  datatype FilterConfig = FilterConfig(prefix: string, suffix: string)

  /** `new FilterConfig()`: the default rule (src/main.ts:19-24). */
  const DefaultFilter := FilterConfig(HeadingRule.DefaultPrefix, HeadingRule.DefaultSuffix)

  /** `ActionContext` (src/main.ts:27-34). An absent `filter` is `None`; a
      path is the string given for it, and "" is the falsy path. */
  datatype ActionContext = ActionContext(
    filter: Option<FilterConfig>,
    version: string,
    changelog: string,
    notes: string)

  /** The errors `process` throws: the four failed input assertions
      (src/main.ts:114-117) and the missing notes (src/main.ts:122-124). */
  datatype ProcessError =
    | InvalidPrefix
    | InvalidSuffix
    | InvalidChangelog
    | InvalidVersion
    | NoReleaseNotes(version: string)

  /** What a successful `process` produces: the notes, and the file it
      writes them to, if a notes path was given (src/main.ts:130-137). */
  datatype Written = Written(notes: string, file: Option<string>)

  /** The filter `process` works with: the given one, or the default one
      when none is given (src/main.ts:109-111). */
  function EffectiveFilter(ctx: ActionContext): FilterConfig {
    match ctx.filter
    case Some(f) => f
    case None => DefaultFilter
  }

  /** The target heading test: pattern `prefix + version + suffix`, the
      version not escaped (src/main.ts:43). */
  function TargetTest(test: RegexTest, f: FilterConfig, version: string): Extractor.LineTest {
    line => test(f.prefix + version + f.suffix, line)
  }

  /** The generic heading test: pattern `prefix` alone (src/main.ts:44). */
  function HeadingTest(test: RegexTest, f: FilterConfig): Extractor.LineTest {
    line => test(f.prefix, line)
  }

  /** Under the default filter the two assembled patterns test exactly as
      the default heading rule says: the target pattern accepts the
      headings of the version, the prefix accepts every release heading. */
  lemma {:induction false} DefaultFilterTests(other: RegexTest, version: string, line: string)
    requires HeadingRule.IsPlainVersion(version)
    ensures TargetTest(HeadingRule.Engine(other), DefaultFilter, version)(line)
        == HeadingRule.DefaultTargetTest(version, line)
    ensures HeadingTest(HeadingRule.Engine(other), DefaultFilter)(line)
        == HeadingRule.DefaultHeadingTest(line)
  {
    HeadingRule.PatternTestTarget(other, version, line);
  }

  /** The scan `process` runs for its context (src/main.ts:120). */
  function ScanFor(ctx: ActionContext, changelog: seq<string>, test: RegexTest): Extractor.Scan {
    var f := EffectiveFilter(ctx);
    Extractor.Extract(TargetTest(test, f, ctx.version), HeadingTest(test, f), changelog)
  }

  /** The inputs `process` checks before it scans are all non-empty. */
  predicate ValidInputs(ctx: ActionContext) {
    var f := EffectiveFilter(ctx);
    f.prefix != "" && f.suffix != "" && ctx.changelog != "" && ctx.version != ""
  }

  /** `process` (src/main.ts:108-138): checks its inputs in the order of the
      source, extracts the section, joins it with LF and trims it, and
      fails when nothing is left. */
  function Process(ctx: ActionContext, changelog: seq<string>, test: RegexTest): (r: Result<Written, ProcessError>)
    ensures r.Success? ==> r.value.notes != [] && IsTrimmed(r.value.notes)
    ensures r.Success? ==> (r.value.file.Some? <==> ctx.notes != "")
    ensures r.Success? ==> r.value.file.Some? ==> r.value.file.value == ctx.notes
    ensures r.Failure? && r.error.NoReleaseNotes? ==> r.error.version == ctx.version
    ensures r.Failure? && !r.error.NoReleaseNotes? <==> !ValidInputs(ctx)
    ensures r == Failure(InvalidPrefix) <==> EffectiveFilter(ctx).prefix == ""
    ensures r == Failure(InvalidSuffix) <==>
      EffectiveFilter(ctx).prefix != "" && EffectiveFilter(ctx).suffix == ""
    ensures r == Failure(InvalidChangelog) <==>
      EffectiveFilter(ctx).prefix != "" && EffectiveFilter(ctx).suffix != "" && ctx.changelog == ""
  {
    var f := EffectiveFilter(ctx);
    if f.prefix == "" then Failure(InvalidPrefix)
    else if f.suffix == "" then Failure(InvalidSuffix)
    else if ctx.changelog == "" then Failure(InvalidChangelog)
    else if ctx.version == "" then Failure(InvalidVersion)
    else
      var lines := ScanFor(ctx, changelog, test).body;
      var notes := Trim(JoinLines(lines));
      if |notes| < 1 then Failure(NoReleaseNotes(ctx.version))
      else Success(Written(notes, if ctx.notes != "" then Some(ctx.notes) else None))
  }

  /** `process` succeeds exactly when its inputs are valid and the release
      section holds a line that is not blank; the notes are then the joined
      section with only its surrounding whitespace removed (see Text.Trim)
      (src/main.ts:120-124). */
  lemma {:induction false} ProcessSucceedsIff(ctx: ActionContext, changelog: seq<string>, test: RegexTest)
    ensures var f := EffectiveFilter(ctx);
      var section := Extractor.Section(TargetTest(test, f, ctx.version), HeadingTest(test, f), changelog);
      var r := Process(ctx, changelog, test);
      && (r.Success? <==> ValidInputs(ctx) && !AllBlank(section.body))
      && (r.Success? ==> r.value.notes == Trim(JoinLines(section.body)))
  {
    var f := EffectiveFilter(ctx);
    var section := Extractor.Section(TargetTest(test, f, ctx.version), HeadingTest(test, f), changelog);
    Extractor.ExtractIsSection(TargetTest(test, f, ctx.version), HeadingTest(test, f), changelog);
    JoinBlankIff(section.body);
  }

  /** A context without a filter behaves exactly like one holding a fresh
      default `FilterConfig` (src/main.ts:109-111). */
  lemma {:induction false} AbsentFilterIsDefault(ctx: ActionContext, changelog: seq<string>, test: RegexTest)
    requires ctx.filter.None?
    ensures EffectiveFilter(ctx) == FilterConfig("^## \\[?", "[\\] ]")
    ensures Process(ctx, changelog, test) == Process(ctx.(filter := Some(DefaultFilter)), changelog, test)
  {
  }

  /** Heading absent: with valid inputs, `process` fails for the version
      (src/main.ts:120-123). */
  lemma {:induction false} ProcessFailsWhenNotFound(ctx: ActionContext, changelog: seq<string>, test: RegexTest)
    requires ValidInputs(ctx)
    requires var f := EffectiveFilter(ctx);
      forall k :: 0 <= k < |changelog| ==> !test(f.prefix + ctx.version + f.suffix, changelog[k])
    ensures Process(ctx, changelog, test) == Failure(NoReleaseNotes(ctx.version))
  {
    var f := EffectiveFilter(ctx);
    var isTarget := TargetTest(test, f, ctx.version);
    forall k | 0 <= k < |changelog| ensures !isTarget(changelog[k]) {
    }
    Extractor.ExtractNotFound(isTarget, HeadingTest(test, f), changelog);
  }

  /** Found but empty: a target heading followed at once by another heading
      also makes `process` fail (src/main.ts:122-123). */
  lemma {:induction false} ProcessFailsOnAdjacentHeadings(ctx: ActionContext, changelog: seq<string>, test: RegexTest, i: nat)
    requires ValidInputs(ctx)
    requires i + 1 < |changelog|
    requires var f := EffectiveFilter(ctx);
      && test(f.prefix + ctx.version + f.suffix, changelog[i])
      && (forall k :: 0 <= k < i ==> !test(f.prefix + ctx.version + f.suffix, changelog[k]))
      && test(f.prefix, changelog[i + 1])
    ensures Process(ctx, changelog, test) == Failure(NoReleaseNotes(ctx.version))
  {
    var f := EffectiveFilter(ctx);
    var isTarget := TargetTest(test, f, ctx.version);
    forall k | 0 <= k < i ensures !isTarget(changelog[k]) {
    }
    Extractor.ExtractAdjacentHeadings(isTarget, HeadingTest(test, f), changelog, i);
  }

  /** `core.getInput` for the inputs `main` reads; an input that was not
      given reads as "". */
  datatype Inputs = Inputs(
    changelogFile: string,
    notesFile: string,
    version: string,
    headingPrefix: string,
    headingSuffix: string)

  /** The filter `main` configures (src/main.ts:151-163): a given prefix or
      suffix replaces the default only when it is not empty. */
  function ConfiguredFilter(prefixInput: string, suffixInput: string): (f: FilterConfig)
    ensures f.prefix != "" && f.suffix != ""
    ensures prefixInput != "" <==> f.prefix == prefixInput
    ensures suffixInput != "" <==> f.suffix == suffixInput
    ensures prefixInput == "" ==> f.prefix == HeadingRule.DefaultPrefix
    ensures suffixInput == "" ==> f.suffix == HeadingRule.DefaultSuffix
  {
    FilterConfig(
      if prefixInput != "" then prefixInput else HeadingRule.DefaultPrefix,
      if suffixInput != "" then suffixInput else HeadingRule.DefaultSuffix)
  }

  /** The context `main` builds from its inputs (src/main.ts:142-163). It
      always holds a filter, the configured one, so only the changelog path
      and the version can fail the checks of `process`. */
  function MainContext(inputs: Inputs): (ctx: ActionContext)
    ensures ctx.filter == Some(ConfiguredFilter(inputs.headingPrefix, inputs.headingSuffix))
    ensures ctx.version == inputs.version
    ensures ctx.changelog == inputs.changelogFile && ctx.notes == inputs.notesFile
    ensures ValidInputs(ctx) <==> inputs.changelogFile != "" && inputs.version != ""
  {
    ActionContext(
      Some(ConfiguredFilter(inputs.headingPrefix, inputs.headingSuffix)),
      inputs.version, inputs.changelogFile, inputs.notesFile)
  }

  /** `main` (src/main.ts:141-174): runs `process` on the configured context
      and passes its error on. Because empty heading inputs fall back to the
      defaults, `main` never fails for an invalid prefix or suffix. */
  function Main(inputs: Inputs, changelog: seq<string>, test: RegexTest): (r: Result<Written, ProcessError>)
    ensures r.Failure? ==> r.error != InvalidPrefix && r.error != InvalidSuffix
    ensures r.Failure? && r.error.NoReleaseNotes? ==> r.error.version == inputs.version
    ensures r.Success? ==> r.value.notes != [] && IsTrimmed(r.value.notes)
  {
    Process(MainContext(inputs), changelog, test)
  }
}
