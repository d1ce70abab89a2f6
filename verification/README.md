# Release-notes extraction, modelled in Dafny

This project models the core of a GitHub action that cuts the notes of one
release out of a `CHANGELOG.md`. The heart of it is `extract`: a three-state
scanner (`SEARCHING`, `EXTRACTING`, `FINISHED`). It skips lines until the
heading of the requested release, then collects lines verbatim until the
next release heading or the end of the file. Around it, `process` checks its
inputs, joins the collected lines with LF, trims the result and fails when
nothing is left. `main` makes one configuration decision: a heading prefix
or suffix given as input replaces the default only when it is not empty.

Files and modules:

- `wrappers.dfy` (`Wrappers`): `Option` and `Result`.
- `text.dfy` (`Text`): `String.prototype.trim` with the ECMAScript
  whitespace set, `Array.prototype.join('\n')`, and a line split as the
  join's partner.
- `extractor.dfy` (`Extractor`): `ParserState`, one loop step, the loop, and
  `extract`. `Section` is a closed-form reference definition, built from
  "first index whose line matches", and `ExtractIsSection` proves the scanner
  equal to it. `ExtractLines` is the imperative loop with its `break`, proved
  against the same reference.
- `heading_rule.dfy` (`HeadingRule`): the default patterns `^## \[?` and
  `[\] ]`, and what `new RegExp(...).test(line)` answers for them.
- `action.dfy` (`Action`): `FilterConfig`, `ActionContext`, `process` and
  the configuration step of `main`.
- `scenarios.dfy` (`Scenarios`): consequences of the default rule, and
  worked examples over concrete changelogs.

The regular expressions are a parameter `test(pattern, line)`. This keeps
the source's pattern assembly exact: `prefix + version + suffix` by plain
concatenation for the target, and `prefix` alone for any heading. The
version is not escaped (src/main.ts:43), so a `.` in it is a wildcard. The
model keeps that behaviour: `HeadingRule.CharMatches` lets `.` match any
character except a line terminator.

Points where the code behaves differently than a reader might expect:

- `extract` returns only the collected lines. It has no "found" flag or
  line count in its result. The model returns the scanner's final state,
  body and `numLinesProcessed` together (`Extractor.Scan`), so that the
  state and the counter can be stated. `process` uses only the body.
- The version goes into the pattern raw, not escaped.
- `process` also rejects an empty changelog path (src/main.ts:116), besides
  an empty prefix, suffix or version.
- The notes are only written to a file. `core.setOutput` is never called,
  although test/main.test.ts:100-101 expects it
  (the test also imports an `OutputName` that src/constants.ts does not
  declare).

Calling `extract` twice on the same input gives the same result. This holds
by construction, because every operation here is a pure function.

## Model

| member | source | states |
|---|---|---|
| Extractor.Step | src/main.ts:58-79 | One pass of the loop body reads exactly one line. The state only moves forward, one state at a time. While searching it becomes extracting exactly on a target heading. While extracting it finishes exactly on a heading. The body grows only while extracting, and only by the line just read. A line read while extracting that is not a heading is always appended. |
| Extractor.Run | src/main.ts:57-80 | The loop reads lines in order, from where it stands, and never beyond the input. It only appends to the body. It stops in `FINISHED` or at the end of input. Once it is extracting, it never returns to searching. |
| Extractor.Extract | src/main.ts:42-105 | The counter never exceeds the number of lines. The final state is never `EXTRACTING`, because end of input while extracting counts as finished. If the target was not found, every line was read. |
| Extractor.RunSearching | src/main.ts:59-67 | While searching, the scan drops lines up to and including the first target heading, then goes on extracting from the next line. With no target heading it reads everything and stays searching. |
| Extractor.RunExtracting | src/main.ts:69-79 | While extracting, the scan appends each line up to the first heading, then stops just after that heading. That heading is not kept. With no heading it appends every remaining line. |
| Extractor.ExtractIsSection | src/main.ts:57-88 | The scanner's result equals the reference section: the lines strictly between the first target heading and the first later heading (or end of input), with the matching final state and line count. |
| Extractor.ExtractNotFound | src/main.ts:57-67 | Heading absent: the body is empty, the state stays `SEARCHING` and all lines were read. |
| Extractor.ExtractFound | src/main.ts:57-88 | Let `i` be the first target heading and `j` the first heading after it, or the end of input. The body is exactly `lines[i+1..j]`: contiguous, in order and unchanged. The state is `FINISHED`. The counter is `j+1` when a heading stopped the scan, else the input length. |
| Extractor.ExtractLastRelease | src/main.ts:82-88 | Target is the last release: the body is every line after its heading, the state is `FINISHED` and the whole input was read. |
| Extractor.ExtractAdjacentHeadings | src/main.ts:69-75 | A target heading directly followed by another heading gives an empty body, yet the release counts as found. |
| Extractor.ExtractFoundIff | src/main.ts:59-67 | The release is found exactly when some line passes the target test. |
| Extractor.ExtractBodyHasNoHeading | src/main.ts:59-79 | No collected line passes the heading test. When every target heading is also a heading, no collected line is a target heading either. |
| Extractor.ExtractLines | src/main.ts:52-88 | The imperative loop, with its `break` at the next heading and its fix-up after the loop, computes the reference section: the same body, final state and line count. |
| Text.Trim | src/main.ts:121 | The result has no leading or trailing whitespace. It is empty exactly when the input is all whitespace. It is a slice of the input, and only whitespace lies outside that slice. |
| Text.TrimOfPadded | src/main.ts:121 | Trimming whitespace + middle + whitespace gives exactly the middle, when the middle has no surrounding whitespace. With the contract of `Trim`, this pins trim down completely. |
| Text.TrimIdempotent | src/main.ts:121 | Trimming twice is the same as trimming once. |
| Text.SplitJoinLines | src/main.ts:121 | `Text.JoinLines` models `lines.join('\n')`. Take a non-empty list of lines, none containing LF. Joining them and then splitting at LF gives back the same list. |
| Text.JoinSplitLines | src/main.ts:121 | Splitting a text at LF and joining the pieces with `Text.JoinLines` gives back the same text. Together with the row above, the join is a bijection between non-empty LF-free line lists and texts. |
| Text.JoinBlankIff | src/main.ts:121-122 | The joined text is all whitespace exactly when every line is, because the LF the join inserts is whitespace. |
| HeadingRule.PatternTestTarget | src/constants.ts:4-8 | `HeadingRule.PatternTest` models `new RegExp(pattern).test(line)`, and `HeadingRule.DefaultTargetTest` states the default target rule. For a version whose only metacharacter is `.`, the assembled pattern `^## \[?` + version + `[\] ]` accepts a line exactly when these hold: the line starts with `## `, then comes an optional `[`, then the version (with `.` as a wildcard), then `]` or a space. |
| HeadingRule.DefaultAcceptsHeadings | src/constants.ts:4-8 | The default rule accepts both heading shapes, `## v ...` and `## [v]...`. |
| HeadingRule.BracketNotInVersion | src/constants.ts:4-8 | Take a bracketed heading `## [w...` and a version that is a strict prefix of `w` and does not start with `[`. Then the version cannot match starting at the `[` itself. Such a match would force every version character to be a `.`, and then `]` or a space could not follow. |
| HeadingRule.DefaultRejectsVersionPrefix | src/constants.ts:4-8 | Take a version that strictly prefixes a heading's version and does not start with `[`. Say the heading's version goes on with a character other than `]` or space. Then the version does not match that heading, in either shape. A version starting with `.` is covered too. |
| Action.Process | src/main.ts:108-138 | The inputs are checked in the source's order: prefix, suffix, changelog path, version. The first empty one is reported, and all four non-empty means no input error. On success the notes are non-empty and trimmed. They go to a file exactly when a notes path is given. A missing-notes error names the requested version. |
| Action.ProcessSucceedsIff | src/main.ts:119-124 | `process` succeeds exactly when its inputs are valid and the reference section has a non-blank line. The notes are then the trimmed LF-join of that section. |
| Action.ProcessFailsWhenNotFound | src/main.ts:120-124 | With valid inputs, if no line matches the target pattern, `process` fails with the missing-notes error for that version. |
| Action.ProcessFailsOnAdjacentHeadings | src/main.ts:120-124 | With valid inputs, if the first target heading is directly followed by a heading, `process` fails with the missing-notes error, although the release was found. |
| Action.DefaultFilterTests | src/main.ts:43-44 | `Action.TargetTest` assembles `prefix + version + suffix` without escaping, and `Action.HeadingTest` uses the prefix alone. Under the default filter and a plain version, the first accepts exactly the version's default headings (`HeadingRule.DefaultTargetTest`). The second accepts exactly the lines starting with `## ` (`HeadingRule.DefaultHeadingTest`). |
| Action.AbsentFilterIsDefault | src/main.ts:109-111 | `Action.EffectiveFilter` picks the filter `process` uses. A context without a filter uses the default prefix `^## \[?` and suffix `[\] ]`, and `process` then behaves exactly as with a default `FilterConfig` filled in. |
| Action.MainContext | src/main.ts:142-163 | `main` builds its context from the inputs: the version, the two paths and the configured filter. So only an empty changelog path or an empty version can fail the input checks of `process`. |
| Action.ConfiguredFilter | src/main.ts:151-163 | The prefix (and the suffix) is the input exactly when that input is non-empty; otherwise it is the default. Both are therefore never empty. |
| Action.Main | src/main.ts:141-174 | `main` never fails for an invalid prefix or suffix. A missing-notes failure names the input version. Successful notes are non-empty and trimmed. |
| Scenarios.DefaultBodyHasNoHeading | src/main.ts:59-79 | Under the default rule, no collected line is a release heading. In particular, the target heading is never collected. |
| Scenarios.MiddleRelease | src/main.ts:57-88 | For `1.2.0` in the sample changelog, the body is the two lines after its heading, including a blank one. The scan is `FINISHED` after reading six lines. |
| Scenarios.MiddleReleaseNotes | src/main.ts:119-137 | `main` succeeds for `1.2.0` with the notes `- Fixed bug`. The trailing blank line is trimmed away. No file is written because no path was given, so the notes reach no output. |
| Scenarios.AbsentRelease | src/main.ts:57-67 | For `9.9.9`, which has no heading, the body is empty and all seven lines are read. `main` fails for that version. |
| Scenarios.MainRejectsVersionPrefix | test/main.test.ts:105-145 | Asking for `v2.5` from a changelog whose release is `v2.5.0` fails. This holds in both heading shapes of the test changelogs: `## v2.5.0 - *date*` and `## [v2.5.0](.../compare/v2.5.0..HEAD) - *date*`. |

## Left out

- Action.Process: a pattern that does not compile is not modelled. `new RegExp(...)` (src/main.ts:43-44) throws a SyntaxError for an ill-formed assembled pattern, for example version `v1.0(` under the default rule or a user prefix `(`. In the model, `test` answers for every pattern. So with valid inputs, the model's `process` fails only with the missing-notes error, while the source can throw this error as well.
- Action.Process: a failing `fs.open` (src/main.ts:46) is not modelled, for example when the changelog file is missing. That error is thrown before any line is read. The model's changelog is always a sequence of lines.
- Reading the changelog (`fs.open`, `createReadStream`, `readline`) is not modelled, and neither is closing it in `finally` blocks. The changelog is the sequence of lines the reader yields. A read failure while scanning is not modelled either.
- Text.SplitLines is not Node's line reader. It splits at every LF, whereas the reader also ends lines at CR and CRLF. It also keeps an empty last line after a trailing LF (`"a\n"` gives `["a", ""]`), where the reader yields `["a"]`. And it gives one empty line for `""`, where the reader yields none. The split serves only as the join's partner and is not used to feed the scanner.
- Writing the notes (`fs.writeFile`) is reported only as the path written to (`Written.file`). A failing write is not modelled.
- The `core.info`, `core.warning`, `core.error` and `core.setFailed` logging is left out. It never affects control flow.
- `core.getInput` becomes the `Inputs` record, where an input that was not given is "". `core.setOutput` is left out because the source never calls it.
- `process` stores the default filter into the caller's context object (src/main.ts:109-111). The model uses the default without changing the context, since no caller reads it afterwards.
- `main` rethrows the error from `process`. The model returns the same `Result` instead.
- General JavaScript regular expressions are left out. `test(pattern, line)` is a parameter. `HeadingRule.PatternTest` interprets only the default prefix, and the default target pattern for versions whose only metacharacter is `.`. Every other pattern goes to the uninterpreted `other`.
- JavaScript strings are UTF-16 code units; here a `char` is a Unicode scalar value. A `.` in the version facing a character outside the Basic Multilingual Plane would behave differently in the source.
- The `async`/`await` suspension is left out. The scan is modelled as a sequential loop.
- src/index.ts and the test fixture generators (test/changelog.ts, test/utils.ts: random counts, commit hashes, dates) are not part of this model. Scenarios.FixtureChangelog is one fixed changelog with a single release, in either heading shape the generators write (test/changelog.ts:56, 71). Its date and link are fixed. Its release notes are cut down to one `### Features` subheading and one entry. The generators also write commit-linked entries and a closing line pointing to the detailed changelog (test/changelog.ts:27-38). None of those lines starts with `## `, so none of them stops the scan.
