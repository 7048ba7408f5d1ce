/**
 * The Catch failure scanner (src/ctest.ts, parseCatchTestOutput and parseTestOutput):
 * finds the `<file>:<n>: FAILED:` lines (`<file>(<n>): FAILED:` on Windows) in the
 * captured output of a test, and turns each into a decoration carrying the file, the
 * 0-based line and a fenced hover message made of the lines up to the next section
 * delimiter.
 */
module CatchOutput {
  import opened Wrappers
  import opened JsStrings

  /** One failed assertion located in a source file. */
  datatype Decoration = Decoration(fileName: string, lineNumber: int, hoverMessage: string)

  /** The scan ran past the last line looking for a delimiter: JavaScript throws a
      TypeError when it calls `startsWith` on the missing line. */
  datatype ScanError = ReadPastEnd

  /** What the regular expression captures on a FAILED line. */
  datatype FailedLine = FailedLine(file: string, displayed: nat)

  const BannerHead: string := "is a Catch "
  const BannerTail: string := " host application."
  const FenceOpen: string := "~~~c++\n"
  const FenceClose: string := "\n~~~"

  // ---------------------------------------------------------------------------
  // The gate: /is a Catch .* host application\./

  /** Some `" host application."` starts at or after `k`, with no line terminator
      in between (the `.*` of the pattern). */
  function BannerTailFrom(s: string, k: nat): (found: bool)
    requires k <= |s|
    ensures found <==> exists j :: k <= j <= |s| && NoLineTerminator(s, k, j) && StartsWith(s[j..], BannerTail)
    decreases |s| - k
  {
    if StartsWith(s[k..], BannerTail) then true
    else if k < |s| && !IsLineTerminator(s[k]) then BannerTailFrom(s, k + 1)
    else false
  }

  /** The banner pattern matches somewhere at or after position `i`. */
  function BannerFrom(s: string, i: nat): (found: bool)
    requires i <= |s|
    ensures found <==> exists k :: i <= k && k + |BannerHead| <= |s| && StartsWith(s[k..], BannerHead)
                                   && BannerTailFrom(s, k + |BannerHead|)
    decreases |s| - i
  {
    if i + |BannerHead| > |s| then false
    else if StartsWith(s[i..], BannerHead) && BannerTailFrom(s, i + |BannerHead|) then true
    else BannerFrom(s, i + 1)
  }

  /** `/is a Catch .* host application\./.test(output)`. */
  predicate HasCatchBanner(output: string) {
    BannerFrom(output, 0)
  }

  // ---------------------------------------------------------------------------
  // The FAILED pattern: /^(.*):(\d+): FAILED:/, or /^(.*)\((\d+)\): FAILED:/ on win32

  /** The part of the pattern after `(.*)`, tried at position `k`: the displayed line
      number when it matches there.  The digits must be followed by `:` or `)`, so the
      digit run is the whole run starting after the opening character. */
  function MarkerAt(line: string, k: nat, isWin32: bool): Option<nat>
    requires k <= |line|
  {
    var open := if isWin32 then '(' else ':';
    var close := if isWin32 then "): FAILED:" else ": FAILED:";
    if k < |line| && line[k] == open then
      var d := DigitRunEnd(line, k + 1);
      if d > k + 1 && StartsWith(line[d..], close) then Some(ParseDecimal(line[k + 1..d])) else None
    else None
  }

  /** The regular expression matches `line` with `(.*)` capturing `file` and `(\d+)`
      capturing a number whose value is `n`: `.*` is greedy and cannot cross a line
      terminator, so `file` is the longest such prefix after which the rest matches. */
  ghost predicate RegexMatch(line: string, isWin32: bool, file: string, n: int) {
    && |file| <= |line| && line[..|file|] == file
    && NoLineTerminator(line, 0, |file|)
    && MarkerAt(line, |file|, isWin32) == Some(n)
    && forall q :: |file| < q <= |line| && NoLineTerminator(line, 0, q) ==> MarkerAt(line, q, isWin32).None?
  }

  /** The largest position `p <= k` where the rest of the pattern matches. */
  function LastMarker(line: string, k: nat, isWin32: bool): (p: Option<nat>)
    requires k <= |line|
    ensures p.Some? ==> p.value <= k
    decreases k
  {
    if MarkerAt(line, k, isWin32).Some? then Some(k)
    else if k == 0 then None
    else LastMarker(line, k - 1, isWin32)
  }

  /** The position `LastMarker` reports is one where the rest of the pattern matches. */
  lemma {:induction false} LastMarkerFound(line: string, k: nat, isWin32: bool)
    requires k <= |line|
    ensures LastMarker(line, k, isWin32).Some? ==> MarkerAt(line, LastMarker(line, k, isWin32).value, isWin32).Some?
    decreases k
  {
    if MarkerAt(line, k, isWin32).None? && k > 0 {
      LastMarkerFound(line, k - 1, isWin32);
    }
  }

  /** No position up to `k` where the rest of the pattern matches lies after the one
      `LastMarker` reports. */
  lemma {:induction false} LastMarkerAtLeast(line: string, k: nat, q: nat, isWin32: bool)
    requires q <= k <= |line| && MarkerAt(line, q, isWin32).Some?
    ensures LastMarker(line, k, isWin32).Some? && q <= LastMarker(line, k, isWin32).value
    decreases k
  {
    if MarkerAt(line, k, isWin32).None? {
      LastMarkerAtLeast(line, k - 1, q, isWin32);
    }
  }

  lemma LastMarkerSpec(line: string, k: nat, isWin32: bool)
    requires k <= |line|
    ensures var p := LastMarker(line, k, isWin32);
            && (p.Some? ==> MarkerAt(line, p.value, isWin32).Some?)
            && (p.Some? ==> forall q :: p.value < q <= k ==> MarkerAt(line, q, isWin32).None?)
            && (p.None? ==> forall q :: 0 <= q <= k ==> MarkerAt(line, q, isWin32).None?)
  {
    LastMarkerFound(line, k, isWin32);
    forall q | 0 <= q <= k && MarkerAt(line, q, isWin32).Some?
      ensures LastMarker(line, k, isWin32).Some? && q <= LastMarker(line, k, isWin32).value
    {
      LastMarkerAtLeast(line, k, q, isWin32);
    }
  }

  /** `regex.exec(line)` for the platform's FAILED pattern. */
  function MatchFailure(line: string, isWin32: bool): Option<FailedLine> {
    var p := LastMarker(line, LineEnd(line, 0), isWin32);
    if p.None? then None
    else
      match MarkerAt(line, p.value, isWin32)
      case Some(n) => Some(FailedLine(line[..p.value], n))
      case None => None
  }

  /** The trimmed form of a raw line matches the FAILED pattern. */
  predicate IsFailedLine(rawLine: string, isWin32: bool) {
    MatchFailure(Trim(rawLine), isWin32).Some?
  }

  /** The result of the FAILED pattern on each trimmed line. */
  function FailedLines(lines: seq<string>, isWin32: bool): (ms: seq<Option<FailedLine>>)
    ensures |ms| == |lines|
  {
    seq(|lines|, i requires 0 <= i < |lines| => MatchFailure(Trim(lines[i]), isWin32))
  }

  // ---------------------------------------------------------------------------
  // Hover messages

  /** A line that ends a failure block. */
  predicate IsDelimiter(line: string) {
    StartsWith(line, "======") || StartsWith(line, "------")
  }

  /** The first delimiter line at or after `from`. */
  function FirstDelimiter(lines: seq<string>, from: nat): (e: Option<nat>)
    requires from <= |lines|
    ensures e.Some? ==> from <= e.value < |lines|
    decreases |lines| - from
  {
    if from == |lines| then None
    else if IsDelimiter(lines[from]) then Some(from)
    else FirstDelimiter(lines, from + 1)
  }

  /** `FirstDelimiter` finds the delimiter line nearest to `from`, and finds none
      exactly when there is none. */
  lemma {:induction false} FirstDelimiterSpec(lines: seq<string>, from: nat)
    requires from <= |lines|
    ensures var e := FirstDelimiter(lines, from);
            && (e.Some? ==> IsDelimiter(lines[e.value]))
            && (e.Some? ==> forall j :: from <= j < e.value ==> !IsDelimiter(lines[j]))
            && (e.None? ==> forall j :: from <= j < |lines| ==> !IsDelimiter(lines[j]))
    decreases |lines| - from
  {
    if from < |lines| && !IsDelimiter(lines[from]) {
      FirstDelimiterSpec(lines, from + 1);
    }
  }

  /** The converse: the delimiter line nearest to `from`, or none at all, is what
      `FirstDelimiter` reports. */
  lemma {:induction false} FirstDelimiterIs(lines: seq<string>, from: nat, e: nat)
    requires from <= e <= |lines|
    requires forall j :: from <= j < e ==> !IsDelimiter(lines[j])
    requires e < |lines| ==> IsDelimiter(lines[e])
    ensures FirstDelimiter(lines, from) == if e < |lines| then Some(e) else None
    decreases e - from
  {
    if from < e {
      FirstDelimiterIs(lines, from + 1, e);
    }
  }

  /** Each line followed by a newline, in order. */
  function Block(lines: seq<string>): string {
    if lines == [] then [] else Block(lines[..|lines| - 1]) + lines[|lines| - 1] + "\n"
  }

  /** `hover` is the fenced block of the lines from `c` up to, and without, the first
      delimiter line after it. */
  ghost predicate HoverFor(lines: seq<string>, c: nat, hover: string) {
    exists e :: c <= e < |lines| && IsDelimiter(lines[e]) && (forall j :: c <= j < e ==> !IsDelimiter(lines[j]))
                && hover == FenceOpen + Block(lines[c..e]) + FenceClose
  }

  /** The decoration for the FAILED line at index `c` of the raw lines, whose trimmed
      form the pattern matched as `m`. */
  function DecorationAt(lines: seq<string>, c: nat, m: FailedLine): (d: Decoration)
    requires c < |lines| && FirstDelimiter(lines, c).Some?
    ensures d.fileName == m.file && d.lineNumber == m.displayed - 1
  {
    var e := FirstDelimiter(lines, c).value;
    Decoration(m.file, m.displayed - 1, FenceOpen + Block(lines[c..e]) + FenceClose)
  }

  /** The hover message is the block from the FAILED line up to, and without, the
      nearest delimiter line, inside a C++ code fence. */
  lemma DecorationAtHover(lines: seq<string>, c: nat, m: FailedLine)
    requires c < |lines| && FirstDelimiter(lines, c).Some?
    ensures HoverFor(lines, c, DecorationAt(lines, c, m).hoverMessage)
  {
    FirstDelimiterSpec(lines, c);
    var e := FirstDelimiter(lines, c).value;
    assert c <= e < |lines| && IsDelimiter(lines[e]);
  }

  // ---------------------------------------------------------------------------
  // The scan

  /** `ds` followed by the outcome of the rest of a scan. */
  function Prepend(ds: seq<Decoration>, r: Result<seq<Decoration>, ScanError>): Result<seq<Decoration>, ScanError> {
    match r
    case Success(rest) => Success(ds + rest)
    case Failure(e) => Failure(e)
  }

  /** The outcome of scanning the raw lines from index `c` on, given the pattern's
      result `ms` on every trimmed line. */
  function ScanFrom(lines: seq<string>, ms: seq<Option<FailedLine>>, c: nat): Result<seq<Decoration>, ScanError>
    requires |ms| == |lines| && c <= |lines|
    decreases |lines| - c
  {
    if c == |lines| then Success([])
    else if ms[c].None? then ScanFrom(lines, ms, c + 1)
    else if FirstDelimiter(lines, c).None? then Failure(ReadPastEnd)
    else Prepend([DecorationAt(lines, c, ms[c].value)], ScanFrom(lines, ms, c + 1))
  }

  /** parseCatchTestOutput's outcome on a whole output. */
  function CatchScan(output: string, isWin32: bool): Result<seq<Decoration>, ScanError> {
    var lines := Split(output, '\n');
    ScanFrom(lines, FailedLines(lines, isWin32), 0)
  }

  /** The indices, at or after `c` and in increasing order, of the matched lines. */
  function MatchedIndices(ms: seq<Option<FailedLine>>, c: nat): (idx: seq<nat>)
    requires c <= |ms|
    ensures forall k :: 0 <= k < |idx| ==> c <= idx[k] < |ms| && ms[idx[k]].Some?
    ensures forall k, l :: 0 <= k < l < |idx| ==> idx[k] < idx[l]
    ensures forall j :: c <= j < |ms| && ms[j].Some? ==> j in idx
    decreases |ms| - c
  {
    if c == |ms| then []
    else
      var rest := MatchedIndices(ms, c + 1);
      if ms[c].Some? then [c] + rest else rest
  }

  lemma {:induction false} ScanFromSucceedsIff(lines: seq<string>, ms: seq<Option<FailedLine>>, c: nat)
    requires |ms| == |lines| && c <= |lines|
    ensures ScanFrom(lines, ms, c).Success? <==>
            forall k :: c <= k < |lines| && ms[k].Some? ==> FirstDelimiter(lines, k).Some?
    decreases |lines| - c
  {
    if c < |lines| {
      ScanFromSucceedsIff(lines, ms, c + 1);
    }
  }

  lemma {:induction false} ScanFromOnePerMatch(lines: seq<string>, ms: seq<Option<FailedLine>>, c: nat)
    requires |ms| == |lines| && c <= |lines|
    requires ScanFrom(lines, ms, c).Success?
    ensures var ds := ScanFrom(lines, ms, c).value;
            var idx := MatchedIndices(ms, c);
            && |ds| == |idx|
            && forall k :: 0 <= k < |ds| ==>
                 FirstDelimiter(lines, idx[k]).Some? && ds[k] == DecorationAt(lines, idx[k], ms[idx[k]].value)
    decreases |lines| - c
  {
    if c < |lines| {
      ScanFromOnePerMatch(lines, ms, c + 1);
      var ds := ScanFrom(lines, ms, c).value;
      var idx := MatchedIndices(ms, c);
      var rest := ScanFrom(lines, ms, c + 1).value;
      var restIdx := MatchedIndices(ms, c + 1);
      if ms[c].Some? {
        assert ds == [DecorationAt(lines, c, ms[c].value)] + rest;
        assert idx == [c] + restIdx;
      } else {
        assert idx == restIdx;
      }
    }
  }

  /** The indices of the FAILED lines of an output. */
  function FailedLineIndices(output: string, isWin32: bool): seq<nat> {
    var lines := Split(output, '\n');
    MatchedIndices(FailedLines(lines, isWin32), 0)
  }

  /** Those indices are increasing, and they are exactly the lines whose trimmed form
      the pattern matches. */
  lemma FailedLineIndicesSpec(output: string, isWin32: bool)
    ensures var idx := FailedLineIndices(output, isWin32);
            && (forall k, l :: 0 <= k < l < |idx| ==> idx[k] < idx[l])
            && forall j :: j in idx <==> 0 <= j < |Split(output, '\n')| && IsFailedLine(Split(output, '\n')[j], isWin32)
  {
    var lines := Split(output, '\n');
    var ms := FailedLines(lines, isWin32);
    assert forall j :: 0 <= j < |lines| ==> (ms[j].Some? <==> IsFailedLine(lines[j], isWin32));
  }

  /** The scan fails exactly when some FAILED line has no delimiter line at or after it:
      the source reads past the last line instead of stopping there. */
  lemma CatchScanFailsIff(output: string, isWin32: bool)
    ensures var lines := Split(output, '\n');
            CatchScan(output, isWin32).Failure? <==>
            exists k :: 0 <= k < |lines| && IsFailedLine(lines[k], isWin32) && FirstDelimiter(lines, k).None?
  {
    var lines := Split(output, '\n');
    var ms := FailedLines(lines, isWin32);
    ScanFromSucceedsIff(lines, ms, 0);
    assert forall j :: 0 <= j < |lines| ==> (ms[j].Some? <==> IsFailedLine(lines[j], isWin32));
  }

  /** A successful scan yields exactly one decoration per FAILED line, in the order the
      lines occur: its file is what the pattern captured as `(.*)` on the trimmed line
      and its line number the captured number minus one (`MatchFailureIsRegex` says
      what those captures are). */
  lemma CatchScanOnePerFailedLine(output: string, isWin32: bool)
    requires CatchScan(output, isWin32).Success?
    ensures var lines := Split(output, '\n');
            var ds := CatchScan(output, isWin32).value;
            var idx := FailedLineIndices(output, isWin32);
            && |ds| == |idx|
            && forall k :: 0 <= k < |ds| ==>
                 && idx[k] < |lines|
                 && var m := MatchFailure(Trim(lines[idx[k]]), isWin32);
                    m.Some? && ds[k].fileName == m.value.file && ds[k].lineNumber == m.value.displayed - 1
  {
    var lines := Split(output, '\n');
    var ms := FailedLines(lines, isWin32);
    ScanFromOnePerMatch(lines, ms, 0);
    assert CatchScan(output, isWin32).value == ScanFrom(lines, ms, 0).value;
    assert FailedLineIndices(output, isWin32) == MatchedIndices(ms, 0);
  }

  /** The hover message of the k-th decoration is made of the untrimmed lines from the
      k-th FAILED line up to, and without, the first delimiter line after it, inside a
      C++ code fence. */
  lemma CatchScanHoverBlocks(output: string, isWin32: bool)
    requires CatchScan(output, isWin32).Success?
    ensures var lines := Split(output, '\n');
            var ds := CatchScan(output, isWin32).value;
            var idx := FailedLineIndices(output, isWin32);
            && |ds| == |idx|
            && forall k :: 0 <= k < |ds| ==> HoverFor(lines, idx[k], ds[k].hoverMessage)
  {
    var lines := Split(output, '\n');
    var ms := FailedLines(lines, isWin32);
    ScanFromOnePerMatch(lines, ms, 0);
    var ds := CatchScan(output, isWin32).value;
    var idx := FailedLineIndices(output, isWin32);
    assert ds == ScanFrom(lines, ms, 0).value;
    assert idx == MatchedIndices(ms, 0);
    forall k | 0 <= k < |ds|
      ensures HoverFor(lines, idx[k], ds[k].hoverMessage)
    {
      DecorationAtHover(lines, idx[k], ms[idx[k]].value);
    }
  }

  /** What `regex.exec` returns is what the regular expression's semantics dictate. */
  lemma MatchFailureIsRegex(line: string, isWin32: bool)
    ensures var m := MatchFailure(line, isWin32);
            && (m.Some? ==> RegexMatch(line, isWin32, m.value.file, m.value.displayed))
            && (m.None? ==> forall k :: 0 <= k <= |line| && NoLineTerminator(line, 0, k) ==> MarkerAt(line, k, isWin32).None?)
  {
    var e := LineEnd(line, 0);
    LineEndSpec(line, 0);
    LastMarkerSpec(line, e, isWin32);
    assert e < |line| ==> IsLineTerminator(line[e]);
  }

  lemma PrependNothing(r: Result<seq<Decoration>, ScanError>)
    ensures Prepend([], r) == r
  {
    if r.Success? {
      assert [] + r.value == r.value;
    }
  }

  lemma PrependTwice(ds: seq<Decoration>, d: Decoration, r: Result<seq<Decoration>, ScanError>)
    ensures Prepend(ds, Prepend([d], r)) == Prepend(ds + [d], r)
  {
    if r.Success? {
      assert ds + ([d] + r.value) == (ds + [d]) + r.value;
    }
  }

  /** The inner loop of parseCatchTestOutput: the fenced block of the untrimmed lines
      from `from` up to the first delimiter line, or the error of reading past the last
      line when there is no such delimiter. */
  method CollectHover(linesWithWs: seq<string>, from: nat) returns (r: Result<string, ScanError>)
    requires from < |linesWithWs|
    ensures FirstDelimiter(linesWithWs, from).None? <==> r == Failure(ReadPastEnd)
    ensures FirstDelimiter(linesWithWs, from).Some? ==>
              r == Success(FenceOpen + Block(linesWithWs[from..FirstDelimiter(linesWithWs, from).value]))
  {
    var message := FenceOpen;
    var i := 0;
    while true
      invariant from + i <= |linesWithWs|
      invariant forall j :: from <= j < from + i ==> !IsDelimiter(linesWithWs[j])
      invariant message == FenceOpen + Block(linesWithWs[from..from + i])
      decreases |linesWithWs| - from - i
    {
      if from + i == |linesWithWs| {
        FirstDelimiterIs(linesWithWs, from, from + i);
        return Failure(ReadPastEnd);
      }
      var exprLine := linesWithWs[from + i];
      if IsDelimiter(exprLine) {
        break;
      }
      assert linesWithWs[from..from + i + 1][..i] == linesWithWs[from..from + i];
      message := message + exprLine + "\n";
      i := i + 1;
    }
    FirstDelimiterIs(linesWithWs, from, from + i);
    return Success(message);
  }

  /** What the scan does at index `c`: nothing at a line the pattern did not match,
      otherwise the decoration for it, or the error of reading past the last line. */
  function LineStep(lines: seq<string>, c: nat, m: Option<FailedLine>): Result<Option<Decoration>, ScanError>
    requires c < |lines|
  {
    if m.None? then Success(None)
    else if FirstDelimiter(lines, c).None? then Failure(ReadPastEnd)
    else Success(Some(DecorationAt(lines, c, m.value)))
  }

  /** The scan from `c`, after the decorations `ds`, is the step at `c` followed by the
      scan from `c + 1`. */
  lemma ScanStep(lines: seq<string>, ms: seq<Option<FailedLine>>, c: nat, ds: seq<Decoration>)
    requires |ms| == |lines| && c < |lines|
    ensures match LineStep(lines, c, ms[c])
            case Failure(e) => Prepend(ds, ScanFrom(lines, ms, c)) == Failure(e)
            case Success(None) => Prepend(ds, ScanFrom(lines, ms, c)) == Prepend(ds, ScanFrom(lines, ms, c + 1))
            case Success(Some(d)) => Prepend(ds, ScanFrom(lines, ms, c)) == Prepend(ds + [d], ScanFrom(lines, ms, c + 1))
  {
    if ms[c].Some? && FirstDelimiter(lines, c).Some? {
      PrependTwice(ds, DecorationAt(lines, c, ms[c].value), ScanFrom(lines, ms, c + 1));
    }
  }

  /** The body of parseCatchTestOutput's cursor loop at line `c`, given what the
      pattern found on the trimmed line: nothing when it found nothing, otherwise the
      line's decoration, or the error of reading past the last line. */
  method DecorationForLine(linesWithWs: seq<string>, c: nat, res: Option<FailedLine>) returns (r: Result<Option<Decoration>, ScanError>)
    requires c < |linesWithWs|
    ensures r == LineStep(linesWithWs, c, res)
  {
    if res.None? {
      return Success(None);
    }
    var file := res.value.file;
    var lineno := res.value.displayed - 1;
    var hover := CollectHover(linesWithWs, c);
    if hover.Failure? {
      return Failure(hover.error);
    }
    return Success(Some(Decoration(file, lineno, hover.value + FenceClose)));
  }

  /** parseCatchTestOutput: split into lines, then the cursor loop over the trimmed lines
      (each trimmed as the cursor reaches it), collecting a failure block from the
      untrimmed lines at each FAILED line. */
  method ParseCatchTestOutput(output: string, isWin32: bool) returns (r: Result<seq<Decoration>, ScanError>)
    ensures r == CatchScan(output, isWin32)
  {
    var linesWithWs := Split(output, '\n');
    ghost var ms := FailedLines(linesWithWs, isWin32);
    var decorations: seq<Decoration> := [];
    var cursor := 0;
    PrependNothing(ScanFrom(linesWithWs, ms, 0));
    while cursor < |linesWithWs|
      invariant 0 <= cursor <= |linesWithWs|
      invariant ScanFrom(linesWithWs, ms, 0) == Prepend(decorations, ScanFrom(linesWithWs, ms, cursor))
    {
      var line := Trim(linesWithWs[cursor]);
      var res := MatchFailure(line, isWin32);
      assert ms[cursor] == res;
      var step := DecorationForLine(linesWithWs, cursor, res);
      ScanStep(linesWithWs, ms, cursor, decorations);
      match step {
        case Failure(e) =>
          return Failure(e);
        case Success(found) =>
          if found.Some? {
            decorations := decorations + [found.value];
          }
      }
      cursor := cursor + 1;
    }
    assert decorations + [] == decorations;
    return Success(decorations);
  }

  /** The decorations the scanner yields for a test's output, or its failure. */
  function TestOutputDecorations(output: string, isWin32: bool): Result<seq<Decoration>, ScanError> {
    if HasCatchBanner(output) then CatchScan(output, isWin32) else Success([])
  }

  /** parseTestOutput: only output carrying the Catch banner is scanned. */
  method ParseTestOutput(output: string, isWin32: bool) returns (r: Result<seq<Decoration>, ScanError>)
    ensures !HasCatchBanner(output) ==> r == Success([])
    ensures HasCatchBanner(output) ==> r == CatchScan(output, isWin32)
    ensures r == TestOutputDecorations(output, isWin32)
  {
    if HasCatchBanner(output) {
      r := ParseCatchTestOutput(output, isWin32);
    } else {
      r := Success([]);
    }
  }
}
