/** The release-section scanner of `extract` (src/main.ts:36-105).

    The two regular expressions the scanner consults are given as line
    predicates: `isTarget` for the heading of the requested release
    (prefix + version + suffix) and `isHeading` for any release heading
    (prefix alone). The changelog is the sequence of lines a line reader
    yields for it. */
module Extractor {

  /** `ParserState` (src/main.ts:36-40). */
  datatype ParserState = Searching | Extracting | Finished

  /** A test of one line: `RegExp.prototype.test` with the pattern fixed. */
  type LineTest = string -> bool

  /** The scanner's variables at one point of the loop: its state, the
      collected body (`lines` in the source) and `numLinesProcessed`. */
  datatype Scan = Scan(state: ParserState, body: seq<string>, processed: nat) {
    /** The target heading was seen: the state left `Searching`. */
    predicate Found() {
      state != Searching
    }
  }

  /** The values the scanner starts from (src/main.ts:45, 52-53). */
  const Start := Scan(Searching, [], 0)

  /** The order in which the states are passed through. */
  function Rank(state: ParserState): nat {
    match state
    case Searching => 0
    case Extracting => 1
    case Finished => 2
  }

  /** One pass of the loop body for `line` (src/main.ts:58-79). While
      searching, the heading line is dropped; while extracting, the next
      heading ends the scan and is dropped as well. The state only moves
      forward, one state at a time, and the body only grows by this line,
      and only while extracting. */
  function Step(isTarget: LineTest, isHeading: LineTest, s: Scan, line: string): (r: Scan)
    requires s.state != Finished
    ensures r.processed == s.processed + 1
    ensures Rank(s.state) <= Rank(r.state) <= Rank(s.state) + 1
    ensures s.state == Searching ==> (r.state == Extracting <==> isTarget(line))
    ensures s.state == Extracting ==> (r.state == Finished <==> isHeading(line))
    ensures r.body == s.body || (s.state == r.state == Extracting && r.body == s.body + [line])
    ensures s.state == Extracting && !isHeading(line) ==> r.body == s.body + [line]
  {
    var s' := s.(processed := s.processed + 1);
    match s.state
    case Searching =>
      if isTarget(line) then s'.(state := Extracting) else s'
    case Extracting =>
      if isHeading(line) then s'.(state := Finished) else s'.(body := s.body + [line])
  }

  /** The `for await` loop with its `break` (src/main.ts:57-80): feeds the
      lines from index `s.processed` on to Step until the input runs out or
      the state becomes `Finished`. */
  function Run(isTarget: LineTest, isHeading: LineTest, lines: seq<string>, s: Scan): (r: Scan)
    requires s.processed <= |lines|
    ensures s.processed <= r.processed <= |lines|
    ensures s.body <= r.body
    ensures r.state == Finished || r.processed == |lines|
    ensures s.state == Extracting ==> r.state != Searching
    decreases |lines| - s.processed
  {
    if s.state == Finished || s.processed == |lines| then s
    else Run(isTarget, isHeading, lines, Step(isTarget, isHeading, s, lines[s.processed]))
  }

  /** `extract` (src/main.ts:42-105) on the lines of the changelog: the scan,
      with running out of input while extracting counted as finished
      (src/main.ts:86-88). The source returns only `body`; the state and the
      counter are kept so that they can be stated. */
  function Extract(isTarget: LineTest, isHeading: LineTest, lines: seq<string>): (r: Scan)
    ensures r.processed <= |lines|
    ensures r.state != Extracting
    ensures r.state == Searching ==> r.processed == |lines|
  {
    var s := Run(isTarget, isHeading, lines, Start);
    if s.state == Extracting then s.(state := Finished) else s
  }

  /** The first index at or after `from` whose line passes `p`, or `|lines|`
      when there is none. */
  function FirstMatch(p: LineTest, lines: seq<string>, from: nat): (r: nat)
    requires from <= |lines|
    ensures from <= r <= |lines|
    ensures r < |lines| ==> p(lines[r])
    ensures forall k :: from <= k < r ==> !p(lines[k])
    decreases |lines| - from
  {
    if from == |lines| || p(lines[from]) then from
    else FirstMatch(p, lines, from + 1)
  }

  /** The release section stated without the state machine: the lines
      strictly between the first target heading and the first heading after
      it (or the end of input), and how many lines that takes to read. */
  function Section(isTarget: LineTest, isHeading: LineTest, lines: seq<string>): Scan
  {
    var i := FirstMatch(isTarget, lines, 0);
    if i == |lines| then Scan(Searching, [], |lines|)
    else
      var j := FirstMatch(isHeading, lines, i + 1);
      Scan(Finished, lines[i + 1..j], if j < |lines| then j + 1 else |lines|)
  }

  /** Once extracting, the run collects every line up to the next heading
      and stops just after it, or collects all remaining lines. */
  lemma {:induction false} RunExtracting(isTarget: LineTest, isHeading: LineTest, lines: seq<string>, s: Scan)
    requires s.state == Extracting && s.processed <= |lines|
    ensures var j := FirstMatch(isHeading, lines, s.processed);
      Run(isTarget, isHeading, lines, s)
        == if j < |lines| then Scan(Finished, s.body + lines[s.processed..j], j + 1)
           else Scan(Extracting, s.body + lines[s.processed..], |lines|)
    decreases |lines| - s.processed
  {
    var p := s.processed;
    if p == |lines| {
      assert s.body + lines[p..] == s.body;
    } else if isHeading(lines[p]) {
      assert s.body + lines[p..p] == s.body;
    } else {
      var s' := Step(isTarget, isHeading, s, lines[p]);
      assert s' == Scan(Extracting, s.body + [lines[p]], p + 1);
      RunExtracting(isTarget, isHeading, lines, s');
      var j := FirstMatch(isHeading, lines, p + 1);
      assert FirstMatch(isHeading, lines, p) == j;
      if j < |lines| {
        assert s.body + [lines[p]] + lines[p + 1..j] == s.body + lines[p..j];
      } else {
        assert s.body + [lines[p]] + lines[p + 1..] == s.body + lines[p..];
      }
    }
  }

  /** While searching, the run skips to the line after the first target
      heading and goes on from there in the `Extracting` state. */
  lemma {:induction false} RunSearching(isTarget: LineTest, isHeading: LineTest, lines: seq<string>, p: nat)
    requires p <= |lines|
    ensures var i := FirstMatch(isTarget, lines, p);
      Run(isTarget, isHeading, lines, Scan(Searching, [], p))
        == if i < |lines| then Run(isTarget, isHeading, lines, Scan(Extracting, [], i + 1))
           else Scan(Searching, [], |lines|)
    decreases |lines| - p
  {
    if p < |lines| && !isTarget(lines[p]) {
      RunSearching(isTarget, isHeading, lines, p + 1);
    }
  }

  /** The scanner computes exactly the release section. */
  lemma {:induction false} ExtractIsSection(isTarget: LineTest, isHeading: LineTest, lines: seq<string>)
    ensures Extract(isTarget, isHeading, lines) == Section(isTarget, isHeading, lines)
  {
    RunSearching(isTarget, isHeading, lines, 0);
    var i := FirstMatch(isTarget, lines, 0);
    if i < |lines| {
      RunExtracting(isTarget, isHeading, lines, Scan(Extracting, [], i + 1));
      var j := FirstMatch(isHeading, lines, i + 1);
      assert [] + lines[i + 1..j] == lines[i + 1..j];
      assert [] + lines[i + 1..] == lines[i + 1..|lines|];
    }
  }

  /** Heading absent: nothing is collected, every line is read and the
      state stays `Searching` (src/main.ts:45, 59-67, 104). */
  lemma {:induction false} ExtractNotFound(isTarget: LineTest, isHeading: LineTest, lines: seq<string>)
    requires forall k :: 0 <= k < |lines| ==> !isTarget(lines[k])
    ensures Extract(isTarget, isHeading, lines) == Scan(Searching, [], |lines|)
  {
    ExtractIsSection(isTarget, isHeading, lines);
  }

  /** Heading found at `i`, the first target heading, and the section ends
      at `j`, the first heading after it or the end of input: the body is
      exactly `lines[i+1..j]`, in order and unchanged, and the counter stops
      one past the stopping heading, or at the end of input
      (src/main.ts:57-88). */
  lemma {:induction false} ExtractFound(isTarget: LineTest, isHeading: LineTest, lines: seq<string>, i: nat, j: nat)
    requires i < j <= |lines|
    requires isTarget(lines[i]) && forall k :: 0 <= k < i ==> !isTarget(lines[k])
    requires forall k :: i < k < j ==> !isHeading(lines[k])
    requires j == |lines| || isHeading(lines[j])
    ensures var r := Extract(isTarget, isHeading, lines);
      && r.state == Finished
      && r.body == lines[i + 1..j]
      && r.processed == (if j < |lines| then j + 1 else |lines|)
  {
    ExtractIsSection(isTarget, isHeading, lines);
    assert FirstMatch(isTarget, lines, 0) == i;
    assert FirstMatch(isHeading, lines, i + 1) == j;
  }

  /** Last release in the file: with no heading after the target, the body
      is every line after the heading and the scan ends `Finished` after
      reading the whole input (src/main.ts:82-88). */
  lemma {:induction false} ExtractLastRelease(isTarget: LineTest, isHeading: LineTest, lines: seq<string>, i: nat)
    requires i < |lines|
    requires isTarget(lines[i]) && forall k :: 0 <= k < i ==> !isTarget(lines[k])
    requires forall k :: i < k < |lines| ==> !isHeading(lines[k])
    ensures Extract(isTarget, isHeading, lines) == Scan(Finished, lines[i + 1..], |lines|)
  {
    ExtractFound(isTarget, isHeading, lines, i, |lines|);
  }

  /** Adjacent headings: a target heading directly followed by another
      heading yields an empty body, although the release was found. */
  lemma {:induction false} ExtractAdjacentHeadings(isTarget: LineTest, isHeading: LineTest, lines: seq<string>, i: nat)
    requires i + 1 < |lines|
    requires isTarget(lines[i]) && forall k :: 0 <= k < i ==> !isTarget(lines[k])
    requires isHeading(lines[i + 1])
    ensures Extract(isTarget, isHeading, lines) == Scan(Finished, [], i + 2)
  {
    ExtractFound(isTarget, isHeading, lines, i, i + 1);
  }

  /** The release is found exactly when some line is a target heading. */
  lemma {:induction false} ExtractFoundIff(isTarget: LineTest, isHeading: LineTest, lines: seq<string>)
    ensures Extract(isTarget, isHeading, lines).Found()
        <==> exists k :: 0 <= k < |lines| && isTarget(lines[k])
  {
    ExtractIsSection(isTarget, isHeading, lines);
  }

  /** No collected line is a heading. When every target heading is also a
      heading, as it is for a pattern that extends the heading prefix, the
      target heading cannot reappear in the body either
      (src/main.ts:61-66, 70-78). */
  lemma {:induction false} ExtractBodyHasNoHeading(isTarget: LineTest, isHeading: LineTest, lines: seq<string>)
    ensures var r := Extract(isTarget, isHeading, lines);
      && (forall k :: 0 <= k < |r.body| ==> !isHeading(r.body[k]))
      && ((forall l :: isTarget(l) ==> isHeading(l)) ==>
            forall k :: 0 <= k < |r.body| ==> !isTarget(r.body[k]))
  {
    ExtractIsSection(isTarget, isHeading, lines);
    var r := Extract(isTarget, isHeading, lines);
    var i := FirstMatch(isTarget, lines, 0);
    if i < |lines| {
      var j := FirstMatch(isHeading, lines, i + 1);
      forall k | 0 <= k < |r.body| ensures !isHeading(r.body[k]) {
        assert r.body[k] == lines[i + 1 + k];
      }
    }
  }

  /** The imperative form of `extract`, with the loop, the `break` at the
      next heading and the post-loop fix-up of the source
      (src/main.ts:52-88). */
  method ExtractLines(isTarget: LineTest, isHeading: LineTest, lines: seq<string>)
    returns (body: seq<string>, state: ParserState, processed: nat)
    ensures Scan(state, body, processed) == Section(isTarget, isHeading, lines)
  {
    body := [];
    state := Searching;
    processed := 0;
    ghost var i := 0;
    while processed < |lines|
      invariant processed <= |lines|
      invariant state != Finished
      invariant state == Searching ==> body == [] && FirstMatch(isTarget, lines, 0) >= processed
      invariant state == Extracting ==>
        && i < processed
        && i == FirstMatch(isTarget, lines, 0)
        && FirstMatch(isHeading, lines, i + 1) >= processed
        && body == lines[i + 1..processed]
    {
      var line := lines[processed];
      processed := processed + 1;
      if state == Searching {
        if isTarget(line) {
          i := processed - 1;
          state := Extracting;
        }
      } else if state == Extracting {
        if isHeading(line) {
          state := Finished;
          break;
        }
        body := body + [line];
      }
    }
    if state == Extracting {
      state := Finished;
    }
  }
}
