/** The two string operations `process` applies to the extracted body:
    `Array.prototype.join('\n')` and `String.prototype.trim()`, together with
    a split at every LF, as the partner of the join. */
module Text {

  /** The characters `String.prototype.trim` removes: the ECMAScript
      WhiteSpace set (TAB, VT, FF, SP, NBSP, ZWNBSP and the Zs category)
      and the LineTerminator set (LF, CR, LS, PS). */
  predicate IsWhitespace(c: char) {
    c in SpaceChars || IsLineTerminator(c)
  }

  /** The ECMAScript WhiteSpace set. */
  const SpaceChars: set<char> := {
    '\t', '\U{000B}', '\U{000C}', ' ', '\U{00A0}', '\U{FEFF}',
    '\U{1680}', '\U{2000}', '\U{2001}', '\U{2002}', '\U{2003}', '\U{2004}',
    '\U{2005}', '\U{2006}', '\U{2007}', '\U{2008}', '\U{2009}', '\U{200A}',
    '\U{202F}', '\U{205F}', '\U{3000}'
  }

  /** The ECMAScript LineTerminator set: LF, CR, LS and PS. */
  const LineTerminators: set<char> := {'\n', '\r', '\U{2028}', '\U{2029}'}

  /** `c` ends a line; a regular-expression `.` does not match it. */
  predicate IsLineTerminator(c: char) {
    c in LineTerminators
  }

  /** Every character of `s` is whitespace (vacuously true of ""). */
  predicate IsBlank(s: string) {
    forall k :: 0 <= k < |s| ==> IsWhitespace(s[k])
  }

  /** `s` neither starts nor ends with whitespace. */
  predicate IsTrimmed(s: string) {
    s == [] || (!IsWhitespace(s[0]) && !IsWhitespace(s[|s| - 1]))
  }

  /** A concatenation is blank exactly when both parts are. */
  lemma {:induction false} BlankConcat(a: string, b: string)
    ensures IsBlank(a + b) <==> IsBlank(a) && IsBlank(b)
  {
    if IsBlank(a + b) {
      forall k | 0 <= k < |a| ensures IsWhitespace(a[k]) {
        assert (a + b)[k] == a[k];
      }
      forall k | 0 <= k < |b| ensures IsWhitespace(b[k]) {
        assert (a + b)[|a| + k] == b[k];
      }
    }
  }

  /** The number of whitespace characters `s` starts with. */
  function LeadingWhitespace(s: string): (n: nat)
    ensures n <= |s|
    ensures forall k :: 0 <= k < n ==> IsWhitespace(s[k])
    ensures n == |s| || !IsWhitespace(s[n])
  {
    if |s| > 0 && IsWhitespace(s[0]) then
      var n := 1 + LeadingWhitespace(s[1..]);
      assert forall k :: 1 <= k < n ==> s[k] == s[1..][k - 1];
      n
    else 0
  }

  /** The index just after the last non-whitespace character of `s`, or 0
      when there is none. */
  function TrailingWhitespaceStart(s: string): (m: nat)
    ensures m <= |s|
    ensures forall k :: m <= k < |s| ==> IsWhitespace(s[k])
    ensures m == 0 || !IsWhitespace(s[m - 1])
  {
    if |s| > 0 && IsWhitespace(s[|s| - 1]) then
      var m := TrailingWhitespaceStart(s[..|s| - 1]);
      assert forall k :: m <= k < |s| - 1 ==> s[k] == s[..|s| - 1][k];
      m
    else |s|
  }

  /** `String.prototype.trim`: the slice of `s` left after removing leading
      and trailing whitespace. */
  function Trim(s: string): (r: string)
    ensures IsTrimmed(r)
    ensures r == [] <==> IsBlank(s)
    ensures exists a :: 0 <= a <= |s| - |r| && s[a..a + |r|] == r
                        && IsBlank(s[..a]) && IsBlank(s[a + |r|..])
  {
    var a := LeadingWhitespace(s);
    if a == |s| then
      assert s[..a] == s;
      assert s[..0] == [] && s[0..] == s;
      []
    else
      var b := TrailingWhitespaceStart(s);
      assert a < b;
      var r := s[a..b];
      assert r[0] == s[a] && r[|r| - 1] == s[b - 1];
      assert IsBlank(s[..a]) by {
        forall k | 0 <= k < a ensures IsWhitespace(s[..a][k]) {
          assert s[..a][k] == s[k];
        }
      }
      assert IsBlank(s[b..]) by {
        forall k | 0 <= k < |s| - b ensures IsWhitespace(s[b..][k]) {
          assert s[b..][k] == s[b + k];
        }
      }
      assert s[a..a + |r|] == r;
      r
  }

  /** Trim is determined by its characterisation: whatever whitespace
      surrounds a trimmed middle, trimming yields exactly that middle. */
  lemma {:induction false} TrimOfPadded(p: string, m: string, q: string)
    requires IsBlank(p) && IsBlank(q) && IsTrimmed(m)
    ensures Trim(p + m + q) == m
  {
    var s := p + m + q;
    if m == [] {
      assert s == p + q;
      BlankConcat(p, q);
    } else {
      var a := LeadingWhitespace(s);
      assert s[|p|] == m[0];
      assert forall k :: 0 <= k < |p| ==> s[k] == p[k];
      assert a == |p|;
      var b := TrailingWhitespaceStart(s);
      assert s[|p| + |m| - 1] == m[|m| - 1];
      assert forall k :: |p| + |m| <= k < |s| ==> s[k] == q[k - |p| - |m|];
      assert b == |p| + |m|;
      assert s[a..b] == m;
    }
  }

  /** Trimming twice is trimming once. */
  lemma {:induction false} TrimIdempotent(s: string)
    ensures Trim(Trim(s)) == Trim(s)
  {
    TrimOfPadded([], Trim(s), []);
    assert [] + Trim(s) + [] == Trim(s);
  }

  /** `lines.join('\n')`: the lines with one LF between neighbours and none
      at either end; the empty array joins to "". */
  function JoinLines(lines: seq<string>): string
  {
    if |lines| == 0 then ""
    else if |lines| == 1 then lines[0]
    else lines[0] + "\n" + JoinLines(lines[1..])
  }

  /** Splits `s` at every LF: the partner of JoinLines. A string without LF
      is one line; "" is one empty line, and a trailing LF leaves an empty
      last line. */
  function SplitLines(s: string): (r: seq<string>)
    ensures |r| >= 1
    ensures forall k :: 0 <= k < |r| ==> '\n' !in r[k]
    decreases |s|
  {
    if |s| == 0 then [""]
    else if s[0] == '\n' then [""] + SplitLines(s[1..])
    else
      var rest := SplitLines(s[1..]);
      [[s[0]] + rest[0]] + rest[1..]
  }

  /** A text without LF is a single line. */
  lemma {:induction false} SplitSingle(x: string)
    requires '\n' !in x
    ensures SplitLines(x) == [x]
    decreases |x|
  {
    if |x| > 0 {
      assert '\n' !in x[1..] by {
        forall k | 0 <= k < |x[1..]| ensures x[1..][k] != '\n' {
          assert x[1..][k] == x[k + 1];
        }
      }
      SplitSingle(x[1..]);
      assert [x[0]] + x[1..] == x;
    }
  }

  /** Splitting `x + "\n" + y` cuts at the LF that ends `x`. */
  lemma {:induction false} SplitAfterLine(x: string, y: string)
    requires '\n' !in x
    ensures SplitLines(x + "\n" + y) == [x] + SplitLines(y)
    decreases |x|
  {
    var s := x + "\n" + y;
    if |x| == 0 {
      assert s == "\n" + y;
      assert s[1..] == y;
    } else {
      assert s[1..] == x[1..] + "\n" + y;
      assert '\n' !in x[1..] by {
        forall k | 0 <= k < |x[1..]| ensures x[1..][k] != '\n' {
          assert x[1..][k] == x[k + 1];
        }
      }
      SplitAfterLine(x[1..], y);
      assert [x[0]] + x[1..] == x;
    }
  }

  /** Round trip: lines that hold no LF come back unchanged from a join
      followed by a split. An empty array does not, because it joins to the
      same "" as the one-line array [""]. */
  lemma {:induction false} SplitJoinLines(lines: seq<string>)
    requires |lines| > 0
    requires forall k :: 0 <= k < |lines| ==> '\n' !in lines[k]
    ensures SplitLines(JoinLines(lines)) == lines
    decreases |lines|
  {
    if |lines| == 1 {
      SplitSingle(lines[0]);
    } else {
      SplitAfterLine(lines[0], JoinLines(lines[1..]));
      SplitJoinLines(lines[1..]);
      assert [lines[0]] + lines[1..] == lines;
    }
  }

  /** Gluing a character onto the first line glues it onto the joined text. */
  lemma {:induction false} JoinGlueFirst(c: char, lines: seq<string>)
    requires |lines| > 0
    ensures JoinLines([[c] + lines[0]] + lines[1..]) == [c] + JoinLines(lines)
  {
    var x := [c] + lines[0];
    var r := [x] + lines[1..];
    if |lines| == 1 {
      assert r == [x];
    } else {
      assert |r| == |lines| && r[0] == x && r[1..] == lines[1..];
      var tail := JoinLines(lines[1..]);
      assert JoinLines(r) == x + "\n" + tail;
      assert x + "\n" + tail == [c] + (lines[0] + "\n" + tail);
    }
  }

  /** Round trip the other way: a split followed by a join restores the text. */
  lemma {:induction false} JoinSplitLines(s: string)
    ensures JoinLines(SplitLines(s)) == s
    decreases |s|
  {
    if |s| > 0 {
      var rest := SplitLines(s[1..]);
      JoinSplitLines(s[1..]);
      if s[0] == '\n' {
        assert ([""] + rest)[1..] == rest;
        assert JoinLines([""] + rest) == "" + "\n" + JoinLines(rest);
        assert s == "\n" + s[1..];
      } else {
        JoinGlueFirst(s[0], rest);
        assert s == [s[0]] + s[1..];
      }
    }
  }

  /** Every line is blank. */
  predicate AllBlank(lines: seq<string>) {
    forall k :: 0 <= k < |lines| ==> IsBlank(lines[k])
  }

  /** The joined text is blank exactly when every line is blank, because the
      LF that the join inserts is itself whitespace. */
  lemma {:induction false} JoinBlankIff(lines: seq<string>)
    ensures IsBlank(JoinLines(lines)) <==> AllBlank(lines)
    decreases |lines|
  {
    if |lines| > 1 {
      var rest := JoinLines(lines[1..]);
      JoinBlankIff(lines[1..]);
      BlankConcat(lines[0], "\n" + rest);
      BlankConcat("\n", rest);
      assert lines[0] + "\n" + rest == lines[0] + ("\n" + rest);
      assert AllBlank(lines) <==> IsBlank(lines[0]) && AllBlank(lines[1..]) by {
        if IsBlank(lines[0]) && AllBlank(lines[1..]) {
          forall k | 0 <= k < |lines| ensures IsBlank(lines[k]) {
            if k > 0 { assert lines[1..][k - 1] == lines[k]; }
          }
        }
        if AllBlank(lines) {
          forall k | 0 <= k < |lines[1..]| ensures IsBlank(lines[1..][k]) {
            assert lines[1..][k] == lines[k + 1];
          }
        }
      }
    }
  }
}
