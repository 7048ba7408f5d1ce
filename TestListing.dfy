/**
 * Test discovery (src/ctest.ts, reloadTests): the standard output of `ctest -N` is
 * split into lines, each line is trimmed, and the lines matching
 * `/^Test\s*#(\d+):\s(.*)/` become tests with the parsed id and the captured name.
 */
module TestListing {
  import opened Wrappers
  import opened JsStrings

  /** A discovered test (`api.Test`). */
  datatype TestInfo = TestInfo(id: nat, name: string)

  /** `/^Test\s*#(\d+):\s(.*)/.exec(l)` mapped to a test.  `\s*` must be followed by
      `#` and `\d+` by `:`, so each takes its whole run; `(.*)` stops at the first line
      terminator. */
  function ParseTestLine(l: string): Option<TestInfo> {
    if !StartsWith(l, "Test") then None
    else
      var a := WhiteSpaceRunEnd(l, 4);
      if !(a < |l| && l[a] == '#') then None
      else
        var d := DigitRunEnd(l, a + 1);
        if !(d > a + 1 && d + 1 < |l| && l[d] == ':' && IsWhiteSpace(l[d + 1])) then None
        else Some(TestInfo(ParseDecimal(l[a + 1..d]), l[d + 2..LineEnd(l, d + 2)]))
  }

  /** `l` is `Test`, white space, `#`, digits, `:`, one white-space character and a
      rest whose text up to the first line terminator is the name of `t`. */
  ghost predicate ListingLine(l: string, t: TestInfo) {
    exists w: string, d: string, c: char, rest: string :: ListingParts(l, t, w, d, c, rest)
  }

  /** The pieces of a line of that shape. */
  predicate ListingParts(l: string, t: TestInfo, w: string, d: string, c: char, rest: string) {
    && l == "Test" + w + "#" + d + ":" + [c] + rest
    && AllWhiteSpace(w) && d != [] && AllDigits(d) && IsWhiteSpace(c)
    && t == TestInfo(ParseDecimal(d), rest[..LineEnd(rest, 0)])
  }

  /** `l` is `Test`, then white space up to `#` at `a`, then digits up to `:` at `e`,
      then a white-space character. */
  predicate Cuts(l: string, a: nat, e: nat) {
    && StartsWith(l, "Test") && 4 <= a && a + 1 < e && e + 1 < |l|
    && (forall k :: 4 <= k < a ==> IsWhiteSpace(l[k]))
    && l[a] == '#'
    && (forall k :: a + 1 <= k < e ==> IsDigit(l[k]))
    && l[e] == ':' && IsWhiteSpace(l[e + 1])
  }

  /** The number and the name the regular expression captures at those cuts. */
  function CutInfo(l: string, a: nat, e: nat): TestInfo
    requires Cuts(l, a, e)
  {
    TestInfo(ParseDecimal(l[a + 1..e]), l[e + 2..LineEnd(l, e + 2)])
  }

  /** The digits between the cuts. */
  lemma CutDigits(l: string, a: nat, e: nat)
    requires Cuts(l, a, e)
    ensures AllDigits(l[a + 1..e])
  {
    SliceDigits(l, a + 1, e);
  }

  /** The regular expression matches with `\s*` spanning `l[4..a]` and `(\d+)`
      spanning `l[a + 1..e]`. */
  lemma ParseTestLineAt(l: string, a: nat, e: nat)
    requires Cuts(l, a, e)
    ensures ParseTestLine(l) == Some(CutInfo(l, a, e))
  {
    WhiteSpaceRunEndAt(l, 4, a);
    DigitRunEndAt(l, a + 1, e);
  }

  /** Every line of that shape is accepted, with the number and name the regular
      expression captures. */
  lemma ParseTestLineComplete(l: string, t: TestInfo, w: string, d: string, c: char, rest: string)
    requires ListingParts(l, t, w, d, c, rest)
    ensures ParseTestLine(l) == Some(t)
  {
    var a := 4 + |w|;
    var e := a + 1 + |d|;
    PartsAt(l, t, w, d, c, rest);
    ParseTestLineAt(l, a, e);
  }

  /** Where the pieces of a line of that shape sit in it, and what the regular
      expression captures there. */
  lemma PartsAt(l: string, t: TestInfo, w: string, d: string, c: char, rest: string)
    requires ListingParts(l, t, w, d, c, rest)
    ensures var a := 4 + |w|; var e := a + 1 + |d|;
            Cuts(l, a, e) && t == CutInfo(l, a, e)
  {
    var a := 4 + |w|;
    var e := a + 1 + |d|;
    PartsCut(l, w, d, c, rest);
    SliceWhiteSpace(l, 4, a);
    SliceDigits(l, a + 1, e);
    PartsCapture(l, t, a, e, d, rest);
  }

  /** The number and the name captured on a line whose digits are `d` and whose text
      after `:` and one white-space character is `rest`. */
  lemma PartsCapture(l: string, t: TestInfo, a: nat, e: nat, d: string, rest: string)
    requires Cuts(l, a, e) && l[a + 1..e] == d && l[e + 2..] == rest
    requires t == TestInfo(ParseDecimal(d), rest[..LineEnd(rest, 0)])
    ensures t == CutInfo(l, a, e)
  {
    NameSpan(l, e + 2, rest);
  }

  /** The slices of `Test`, `w`, `#`, `d`, `:`, `c` and `rest` put together. */
  lemma PartsCut(l: string, w: string, d: string, c: char, rest: string)
    requires l == "Test" + w + "#" + d + ":" + [c] + rest
    ensures var a := 4 + |w|; var e := a + 1 + |d|;
            && |l| == e + 2 + |rest| && l[..4] == "Test"
            && l[4..a] == w && l[a] == '#' && l[a + 1..e] == d && l[e] == ':' && l[e + 1] == c && l[e + 2..] == rest
  {
    assert l == "Test" + (w + "#" + d + ":" + [c] + rest);
  }

  /** `(.*)` from `i` in `l` spans what it spans from the start of `l[i..]`. */
  lemma NameSpan(l: string, i: nat, rest: string)
    requires i <= |l| && l[i..] == rest
    ensures l[i..LineEnd(l, i)] == rest[..LineEnd(rest, 0)]
  {
    var n := LineEnd(rest, 0);
    LineEndSpec(rest, 0);
    forall k | i <= k < i + n
      ensures !IsLineTerminator(l[k])
    {
      assert l[k] == rest[k - i];
    }
    if n < |rest| {
      assert l[i + n] == rest[n];
    }
    LineEndAt(l, i, i + n);
  }

  /** Every accepted line has that shape. */
  lemma ParseTestLineSound(l: string, t: TestInfo)
    requires ParseTestLine(l) == Some(t)
    ensures ListingLine(l, t)
  {
    var a, e := AcceptedLineCuts(l, t);
    LinePieces(l, a, e);
    assert ListingParts(l, t, l[4..a], l[a + 1..e], l[e + 1], l[e + 2..]);
  }

  /** Where `#` and `:` sit on an accepted line. */
  lemma AcceptedLineCuts(l: string, t: TestInfo) returns (a: nat, e: nat)
    requires ParseTestLine(l) == Some(t)
    ensures Cuts(l, a, e) && t == CutInfo(l, a, e)
  {
    a := WhiteSpaceRunEnd(l, 4);
    e := DigitRunEnd(l, a + 1);
    WhiteSpaceRunEndSpec(l, 4);
    DigitRunEndSpec(l, a + 1);
    SliceDigits(l, a + 1, e);
  }

  /** `l` cut at the end of `Test`, at `#` (index `a`) and at `:` (index `e`) into the
      pieces of a listing line. */
  lemma LinePieces(l: string, a: nat, e: nat)
    requires Cuts(l, a, e)
    ensures ListingParts(l, CutInfo(l, a, e), l[4..a], l[a + 1..e], l[e + 1], l[e + 2..])
  {
    var w := l[4..a];
    SliceWhiteSpace(l, 4, a);
    CutDigits(l, a, e);
    assert l[..4] == "Test";
    assert l == l[..4] + w + [l[a]] + l[a + 1..e] + [l[e]] + [l[e + 1]] + l[e + 2..];
    NameSpan(l, e + 2, l[e + 2..]);
  }

  /** Discovery accepts a trimmed line exactly when the regular expression matches it. */
  lemma ParseTestLineIff(l: string, t: TestInfo)
    ensures ParseTestLine(l) == Some(t) <==> ListingLine(l, t)
  {
    if ParseTestLine(l) == Some(t) {
      ParseTestLineSound(l, t);
    }
    if ListingLine(l, t) {
      var w: string, d: string, c: char, rest: string :| ListingParts(l, t, w, d, c, rest);
      ParseTestLineComplete(l, t, w, d, c, rest);
    }
  }

  /** The tests of the trimmed lines that match, in order (the `map`/`filter`/`map`
      chain). */
  function ParsedTests(lines: seq<string>): seq<TestInfo> {
    if lines == [] then [] else TestsOfLine(lines[0]) + ParsedTests(lines[1..])
  }

  /** The test a single line contributes: its own when it matches, none otherwise. */
  function TestsOfLine(l: string): seq<TestInfo> {
    match ParseTestLine(Trim(l))
    case Some(t) => [t]
    case None => []
  }

  /** The tests listed in the standard output of `ctest -N`. */
  function DiscoverTests(stdout: string): seq<TestInfo> {
    ParsedTests(Split(stdout, "\n"[0]))
  }

  /** Discovery keeps the order of the lines: the tests of two runs of lines are those
      of the first followed by those of the second. */
  lemma {:induction false} ParsedTestsAppend(a: seq<string>, b: seq<string>)
    ensures ParsedTests(a + b) == ParsedTests(a) + ParsedTests(b)
  {
    if a == [] {
      assert a + b == b;
    } else {
      var first := TestsOfLine(a[0]);
      assert (a + b)[1..] == a[1..] + b;
      calc {
        ParsedTests(a + b);
        first + ParsedTests(a[1..] + b);
        { ParsedTestsAppend(a[1..], b); }
        first + (ParsedTests(a[1..]) + ParsedTests(b));
        (first + ParsedTests(a[1..])) + ParsedTests(b);
      }
    }
  }

  /** A single line contributes its test when it matches and nothing otherwise. */
  lemma ParsedTestsOne(l: string)
    ensures ParsedTests([l]) == match ParseTestLine(Trim(l)) case Some(t) => [t] case None => []
  {
    assert [l][1..] == [];
    assert TestsOfLine(l) + [] == TestsOfLine(l);
  }

  /** A test is discovered exactly when some line, trimmed, is accepted as it. */
  lemma {:induction false} ParsedTestsMembership(lines: seq<string>, t: TestInfo)
    ensures t in ParsedTests(lines) <==> exists i :: 0 <= i < |lines| && ParseTestLine(Trim(lines[i])) == Some(t)
  {
    if lines != [] {
      ParsedTestsMembership(lines[1..], t);
      if exists i :: 0 <= i < |lines| && ParseTestLine(Trim(lines[i])) == Some(t) {
        var i :| 0 <= i < |lines| && ParseTestLine(Trim(lines[i])) == Some(t);
        if i > 0 {
          assert lines[1..][i - 1] == lines[i];
        }
      }
      if exists i :: 0 <= i < |lines[1..]| && ParseTestLine(Trim(lines[1..][i])) == Some(t) {
        var i :| 0 <= i < |lines[1..]| && ParseTestLine(Trim(lines[1..][i])) == Some(t);
        assert lines[i + 1] == lines[1..][i];
      }
    }
  }

  /** At most one test per line. */
  lemma {:induction false} ParsedTestsBound(lines: seq<string>)
    ensures |ParsedTests(lines)| <= |lines|
  {
    if lines != [] {
      ParsedTestsBound(lines[1..]);
    }
  }

  // ---------------------------------------------------------------------------
  // The listing ctest prints

  /** A name ctest can print on one line and that `trim` leaves whole. */
  predicate PrintableName(name: string) {
    name != [] && NoLineTerminator(name, 0, |name|) && !IsWhiteSpace(name[|name| - 1])
  }

  /** One line of a listing: `  Test  #3: name`. */
  function ListingLineFor(indent: string, pad: string, t: TestInfo): string {
    indent + "Test" + pad + "#" + NatToString(t.id) + ": " + t.name
  }

  /** White space that stays on one line. */
  predicate Blank(s: string) {
    AllWhiteSpace(s) && NoLineTerminator(s, 0, |s|)
  }

  /** A listed test is discovered as itself. */
  lemma ListingLineParses(indent: string, pad: string, t: TestInfo)
    requires Blank(indent) && Blank(pad) && PrintableName(t.name)
    ensures ParseTestLine(Trim(ListingLineFor(indent, pad, t))) == Some(t)
  {
    var digits := NatToString(t.id);
    var core := "Test" + pad + "#" + digits + ":" + [' '] + t.name;
    assert core[0] == 'T' && core[|core| - 1] == t.name[|t.name| - 1];
    assert AllWhiteSpace([]);
    TrimPadded(indent, core, []);
    assert ListingLineFor(indent, pad, t) == indent + core + [];
    LineEndAt(t.name, 0, |t.name|);
    ParseNatToString(t.id);
    assert t.name[..|t.name|] == t.name;
    ParseTestLineComplete(core, t, pad, digits, ' ', t.name);
  }

  lemma NoNewline(s: string)
    requires NoLineTerminator(s, 0, |s|)
    ensures "\n"[0] !in s
  {
    assert forall j :: 0 <= j < |s| ==> !IsLineTerminator(s[j]);
  }

  function ListingLines(indent: string, pad: string, tests: seq<TestInfo>): (lines: seq<string>)
    ensures |lines| == |tests|
  {
    seq(|tests|, i requires 0 <= i < |tests| => ListingLineFor(indent, pad, tests[i]))
  }

  lemma {:induction false} ParsedListingLines(indent: string, pad: string, tests: seq<TestInfo>)
    requires Blank(indent) && Blank(pad)
    requires forall i :: 0 <= i < |tests| ==> PrintableName(tests[i].name)
    ensures ParsedTests(ListingLines(indent, pad, tests)) == tests
  {
    if tests != [] {
      var lines := ListingLines(indent, pad, tests);
      assert lines[1..] == ListingLines(indent, pad, tests[1..]);
      ParsedListingLines(indent, pad, tests[1..]);
      ListingLineParses(indent, pad, tests[0]);
      assert TestsOfLine(lines[0]) == [tests[0]];
      assert ParsedTests(lines) == [tests[0]] + ParsedTests(lines[1..]);
      assert [tests[0]] + tests[1..] == tests;
    }
  }

  /** Discovery on a listing of tests with printable names gives those tests back, in
      order. */
  lemma ListingRoundTrip(indent: string, pad: string, tests: seq<TestInfo>)
    requires Blank(indent) && Blank(pad)
    requires forall i :: 0 <= i < |tests| ==> PrintableName(tests[i].name)
    ensures DiscoverTests(Join(ListingLines(indent, pad, tests), "\n"[0])) == tests
  {
    var lines := ListingLines(indent, pad, tests);
    if tests == [] {
      assert Split([], "\n"[0]) == [[]];
      ParsedTestsOne([]);
      assert Trim([]) == [];
    } else {
      forall k | 0 <= k < |lines| ensures "\n"[0] !in lines[k] {
        NoNewline(indent);
        NoNewline(pad);
        NoNewline(tests[k].name);
        var digits := NatToString(tests[k].id);
        assert "\n"[0] !in digits by {
          assert forall j :: 0 <= j < |digits| ==> IsDigit(digits[j]);
        }
      }
      SplitJoin(lines, "\n"[0]);
      ParsedListingLines(indent, pad, tests);
    }
  }
}
