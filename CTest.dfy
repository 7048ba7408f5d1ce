/**
 * The CTest driver (src/ctest.ts, CTestDriver): test discovery, the results reload
 * with its decoration update, the `testResults` setter's summary, and a CTest run.
 *
 * The file system is a map from path to content; the `ctest` processes, the XML
 * parser, Node's buffers and paths, and the platform are parameters.  Every event an
 * emitter fires and every command the driver starts is appended to a log.  A thrown
 * error is a `Failure`: the state changes made before it stay in place.
 */
module CTest {
  import opened Wrappers
  import opened JsStrings
  import opened CatchOutput
  import opened ResultsXml
  import opened TestListing
  import opened Decorations

  /** `BasicTestResults`. */
  datatype Summary = Summary(passing: nat, total: nat)

  /** What the driver's emitters fire. */
  datatype Event =
    | TestingEnabledChanged(enabled: bool)
    | TestsChanged(tests: seq<TestInfo>)
    | ResultsChanged(summary: Option<Summary>)

  /** A child process the driver starts. */
  datatype Command = Command(program: string, args: seq<string>, cwd: string, environment: Option<map<string, string>>)

  /** What a child process ends with: `retc` is `null` when it was terminated. */
  datatype ProcessResult = ProcessResult(retc: Option<int>, stdout: string)

  /** What the driver reads from the CMake driver. */
  datatype Build = Build(binaryDir: string, sourceDir: string, buildType: string)

  /** The extension settings a run reads. */
  datatype CTestConfig = CTestConfig(ctestPath: string, numJobs: nat, args: seq<string>, environment: map<string, string>)

  /** The world outside the driver. */
  datatype Host = Host(
    files: map<string, string>,
    /** What `ctest -N` ends with. */
    listing: ProcessResult,
    /** `xml2js.parseString`, `None` when it reports an error. */
    parseXml: string -> Option<MessyResults>,
    codecs: Codecs,
    paths: PathOps,
    isWin32: bool)

  datatype DriverError = XmlParseFailed | CleanupFailed(cleanup: CleanupError) | ScanFailed(scan: ScanError)

  /** The driver's fields and its decoration manager's, as one value. */
  datatype DriverState = DriverState(
    testingEnabled: bool,
    tests: seq<TestInfo>,
    testResults: Option<CTestResults>,
    binaryDir: string,
    decorations: seq<Decoration>,
    events: seq<Event>,
    commands: seq<Command>)

  const Initial := DriverState(false, [], None, [], [], [], [])

  // ---------------------------------------------------------------------------
  // The results summary

  predicate IsPassed(t: Test) {
    t.status == Some("passed")
  }

  /** `tests.reduce((acc, test) => acc + (test.Status === 'passed' ? 1 : 0), 0)`. */
  function Passing(tests: seq<Test>): nat {
    if tests == [] then 0 else Passing(tests[..|tests| - 1]) + (if IsPassed(tests[|tests| - 1]) then 1 else 0)
  }

  lemma {:induction false} PassingAppend(a: seq<Test>, b: seq<Test>)
    ensures Passing(a + b) == Passing(a) + Passing(b)
    decreases |b|
  {
    if b != [] {
      PassingAppend(a, b[..|b| - 1]);
      assert (a + b)[..|a + b| - 1] == a + b[..|b| - 1];
    } else {
      assert a + b == a;
    }
  }

  /** The passing count is at most the number of results, and reaches it exactly when
      every result passed. */
  lemma {:induction false} PassingBound(tests: seq<Test>)
    ensures Passing(tests) <= |tests|
    ensures Passing(tests) == |tests| <==> forall i :: 0 <= i < |tests| ==> IsPassed(tests[i])
    ensures Passing(tests) == 0 <==> forall i :: 0 <= i < |tests| ==> !IsPassed(tests[i])
  {
    if tests != [] {
      PassingBound(tests[..|tests| - 1]);
    }
  }

  /** What the `testResults` setter fires: no summary for no results; otherwise the
      passing results counted against the number of discovered tests. */
  function SummaryOf(results: Option<CTestResults>, tests: seq<TestInfo>): Option<Summary> {
    match results
    case None => None
    case Some(r) => Some(Summary(Passing(r.site.testing.test), |tests|))
  }

  // ---------------------------------------------------------------------------
  // The setters, as steps on the state

  function WithTestingEnabled(s: DriverState, v: bool): DriverState {
    s.(testingEnabled := v, events := s.events + [TestingEnabledChanged(v)])
  }

  function WithTests(s: DriverState, v: seq<TestInfo>): DriverState {
    s.(tests := v, events := s.events + [TestsChanged(v)])
  }

  function WithTestResults(s: DriverState, v: Option<CTestResults>): DriverState {
    s.(testResults := v, events := s.events + [ResultsChanged(SummaryOf(v, s.tests))])
  }

  function WithCommand(s: DriverState, c: Command): DriverState {
    s.(commands := s.commands + [c])
  }

  // ---------------------------------------------------------------------------
  // Reloading results

  predicate IsFailed(t: Test) {
    t.status == Some("failed")
  }

  /** `tests.filter(t => t.Status === 'failed')`. */
  function FailedTests(tests: seq<Test>): seq<Test> {
    if tests == [] then [] else FailedTests(tests[..|tests| - 1]) + (if IsFailed(tests[|tests| - 1]) then [tests[|tests| - 1]] else [])
  }

  lemma {:induction false} FailedTestsMembership(tests: seq<Test>, t: Test)
    ensures t in FailedTests(tests) <==> t in tests && IsFailed(t)
  {
    if tests != [] {
      FailedTestsMembership(tests[..|tests| - 1], t);
      assert tests == tests[..|tests| - 1] + [tests[|tests| - 1]];
    }
  }

  /** The filter keeps the order of the results: the failed tests of two runs of
      results are those of the first, then those of the second. */
  lemma {:induction false} FailedTestsAppend(a: seq<Test>, b: seq<Test>)
    ensures FailedTests(a + b) == FailedTests(a) + FailedTests(b)
    decreases |b|
  {
    if b == [] {
      assert a + b == a;
    } else {
      FailedTestsAppend(a, b[..|b| - 1]);
      assert (a + b)[..|a + b| - 1] == a + b[..|b| - 1];
    }
  }

  /** Results of a run of scans concatenated in order; the first failure is thrown. */
  function ConcatResults(rs: seq<Result<seq<Decoration>, ScanError>>): Result<seq<Decoration>, ScanError> {
    if rs == [] then Success([])
    else
      var init :- ConcatResults(rs[..|rs| - 1]);
      var last :- rs[|rs| - 1];
      Success(init + last)
  }

  /** The scan of each test's output. */
  function Scans(tests: seq<Test>, isWin32: bool): (rs: seq<Result<seq<Decoration>, ScanError>>)
    ensures |rs| == |tests|
  {
    seq(|tests|, i requires 0 <= i < |tests| => TestOutputDecorations(tests[i].output, isWin32))
  }

  /** `for (const t of failing) new_decors.push(...await parseTestOutput(t.Output))`:
      the decorations of the tests' outputs, concatenated in order. */
  function FailingDecorations(tests: seq<Test>, isWin32: bool): Result<seq<Decoration>, ScanError> {
    ConcatResults(Scans(tests, isWin32))
  }

  /** Concatenating two runs of results concatenates the first and then the second,
      and a failure in the first is the one thrown. */
  lemma {:induction false} ConcatResultsAppend(a: seq<Result<seq<Decoration>, ScanError>>, b: seq<Result<seq<Decoration>, ScanError>>)
    ensures var ra := ConcatResults(a);
            var rb := ConcatResults(b);
            ConcatResults(a + b) == if ra.Failure? then ra else if rb.Failure? then rb else Success(ra.value + rb.value)
    decreases |b|
  {
    if b == [] {
      assert a + b == a;
      var ra := ConcatResults(a);
      if ra.Success? {
        assert ra.value + [] == ra.value;
      }
    } else {
      var b' := b[..|b| - 1];
      ConcatResultsAppend(a, b');
      assert (a + b)[..|a + b| - 1] == a + b';
      assert (a + b)[|a + b| - 1] == b[|b| - 1];
      var ra := ConcatResults(a);
      var rb' := ConcatResults(b');
      var last := b[|b| - 1];
      if ra.Success? && rb'.Success? && last.Success? {
        assert ra.value + rb'.value + last.value == ra.value + (rb'.value + last.value);
      }
    }
  }

  /** One more result after a successful prefix: its failure is the one thrown, and
      otherwise its decorations follow those of the prefix. */
  lemma ConcatStep(rs: seq<Result<seq<Decoration>, ScanError>>, i: nat, acc: seq<Decoration>)
    requires i < |rs| && ConcatResults(rs[..i]) == Success(acc)
    ensures rs[i].Failure? ==> ConcatResults(rs) == Failure(rs[i].error)
    ensures rs[i].Success? ==> ConcatResults(rs[..i + 1]) == Success(acc + rs[i].value)
  {
    assert rs[..i + 1][..i] == rs[..i];
    if rs[i].Failure? {
      ConcatResultsAppend(rs[..i + 1], rs[i + 1..]);
      assert rs[..i + 1] + rs[i + 1..] == rs;
    }
  }

  /** Decorating two runs of tests decorates the first and then the second. */
  lemma FailingDecorationsAppend(a: seq<Test>, b: seq<Test>, isWin32: bool)
    ensures var ra := FailingDecorations(a, isWin32);
            var rb := FailingDecorations(b, isWin32);
            FailingDecorations(a + b, isWin32) ==
              if ra.Failure? then ra else if rb.Failure? then rb else Success(ra.value + rb.value)
  {
    ScansAppend(a, b, isWin32);
    ConcatResultsAppend(Scans(a, isWin32), Scans(b, isWin32));
  }

  lemma ScansAppend(a: seq<Test>, b: seq<Test>, isWin32: bool)
    ensures Scans(a + b, isWin32) == Scans(a, isWin32) + Scans(b, isWin32)
  {
    var l := Scans(a + b, isWin32);
    var r := Scans(a, isWin32) + Scans(b, isWin32);
    forall i | 0 <= i < |l| ensures l[i] == r[i] {
      if i < |a| {
        assert (a + b)[i] == a[i];
      } else {
        assert (a + b)[i] == b[i - |a|];
      }
    }
  }

  /** Output without the Catch banner adds no decoration. */
  lemma {:induction false} ConcatWithoutBanner(tests: seq<Test>, isWin32: bool)
    requires forall i :: 0 <= i < |tests| ==> !HasCatchBanner(tests[i].output)
    ensures ConcatResults(Scans(tests, isWin32)) == Success([])
  {
    if tests != [] {
      var init := tests[..|tests| - 1];
      ConcatWithoutBanner(init, isWin32);
      assert Scans(tests, isWin32)[..|tests| - 1] == Scans(init, isWin32);
      assert Scans(tests, isWin32)[|tests| - 1] == Success([]);
      var none: seq<Decoration> := [];
      assert none + none == none;
    }
  }

  /** Failed tests whose output lacks the Catch banner add no decoration. */
  lemma FailingDecorationsWithoutBanner(tests: seq<Test>, isWin32: bool)
    requires forall i :: 0 <= i < |tests| ==> !HasCatchBanner(tests[i].output)
    ensures FailingDecorations(tests, isWin32) == Success([])
  {
    ConcatWithoutBanner(tests, isWin32);
  }

  /** _reloadTestResults, after `fs.exists(resultsFile)`: read, parse and clean the
      results, store them, clear the decorations, and set them to those of the failed
      tests' outputs. */
  function LoadResultsStep(s: DriverState, resultsFile: string, host: Host): (DriverState, Result<(), DriverError>)
    requires resultsFile in host.files
  {
    match host.parseXml(host.files[resultsFile])
    case None => (s, Failure(XmlParseFailed))
    case Some(messy) =>
      match CleanupResultsXml(messy, host.codecs)
      case Failure(e) => (s, Failure(CleanupFailed(e)))
      case Success(clean) =>
        var s1 := WithTestResults(s, Some(clean)).(decorations := []);
        match FailingDecorations(FailedTests(clean.site.testing.test), host.isWin32)
        case Failure(e) => (s1, Failure(ScanFailed(e)))
        case Success(ds) => (s1.(decorations := ds), Success(()))
  }

  // ---------------------------------------------------------------------------
  // Reloading tests

  const TestFileName := "CTestTestfile.cmake"

  /** The `ctest -N` listing command. */
  function ListCommand(build: Build): Command {
    Command("ctest", ["-N", "-C", build.buildType], build.binaryDir, None)
  }

  /** `binaryDir/Testing/<first line of TAG, trimmed>/Test.xml`, when the TAG file
      exists and that line is not empty. */
  function ResultsFile(build: Build, host: Host): Option<string> {
    var testing := host.paths.join(build.binaryDir, "Testing");
    var tagFile := host.paths.join(testing, "TAG");
    if tagFile !in host.files then None
    else
      var tag := Trim(Split(host.files[tagFile], '\n')[0]);
      if tag == [] then None
      else Some(host.paths.join(host.paths.join(testing, tag), "Test.xml"))
  }

  /** reloadTests. */
  function ReloadStep(s: DriverState, build: Build, host: Host): (DriverState, Result<seq<TestInfo>, DriverError>) {
    if host.paths.join(build.binaryDir, TestFileName) !in host.files then
      (WithTests(WithTestingEnabled(s, false), []), Success([]))
    else
      var s1 := WithCommand(WithTestingEnabled(s.(binaryDir := build.binaryDir), true), ListCommand(build));
      if host.listing.retc != Some(0) then (WithTests(s1, []), Success([]))
      else
        var tests := DiscoverTests(host.listing.stdout);
        var s2 := WithTests(s1, tests);
        var resultsFile := ResultsFile(build, host);
        if resultsFile.Some? && resultsFile.value in host.files then
          var (s3, r) := LoadResultsStep(s2, resultsFile.value, host);
          (s3, if r.Failure? then Failure(r.error) else Success(tests))
        else (WithTestResults(s2, None), Success(tests))
  }

  // ---------------------------------------------------------------------------
  // Running CTest

  /** The command line of a run. */
  function RunCommand(build: Build, config: CTestConfig): Command {
    Command(config.ctestPath,
            ["-j" + NatToString(config.numJobs), "-C", build.buildType, "-T", "test", "--output-on-failure"] + config.args,
            build.binaryDir, Some(config.environment))
  }

  /** runCTest: clear the decorations, run, reload the tests whatever the run ended
      with, and return the exit code, -1 when the run was terminated. */
  function RunStep(s: DriverState, build: Build, config: CTestConfig, run: ProcessResult, host: Host): (DriverState, Result<int, DriverError>) {
    var s1 := WithCommand(s.(decorations := []), RunCommand(build, config));
    var (s2, r) := ReloadStep(s1, build, host);
    (s2, if r.Failure? then Failure(r.error) else Success(if run.retc.None? then -1 else run.retc.value))
  }

  // ---------------------------------------------------------------------------
  // What reloading and running promise

  /** Without `CTestTestfile.cmake`, testing is disabled and the test list emptied;
      nothing else changes. */
  lemma ReloadWithoutTestFile(s: DriverState, build: Build, host: Host)
    requires host.paths.join(build.binaryDir, TestFileName) !in host.files
    ensures var (s', r) := ReloadStep(s, build, host);
            && r == Success([])
            && !s'.testingEnabled && s'.tests == []
            && s'.testResults == s.testResults && s'.decorations == s.decorations && s'.binaryDir == s.binaryDir
            && s'.commands == s.commands
            && s'.events == s.events + [TestingEnabledChanged(false), TestsChanged([])]
  {
  }

  /** When `ctest -N` fails or is terminated, testing is enabled but the test list is
      emptied, and the results and decorations are left as they were. */
  lemma ReloadWhenListingFails(s: DriverState, build: Build, host: Host)
    requires host.paths.join(build.binaryDir, TestFileName) in host.files
    requires host.listing.retc != Some(0)
    ensures var (s', r) := ReloadStep(s, build, host);
            && r == Success([])
            && s'.testingEnabled && s'.tests == [] && s'.binaryDir == build.binaryDir
            && s'.testResults == s.testResults && s'.decorations == s.decorations
            && s'.commands == s.commands + [ListCommand(build)]
            && s'.events == s.events + [TestingEnabledChanged(true), TestsChanged([])]
  {
  }

  /** Loading results keeps the commands, the test list, the testing flag and the
      build directory, and only appends events. */
  lemma LoadResultsOnlyAppends(s: DriverState, resultsFile: string, host: Host)
    requires resultsFile in host.files
    ensures var s' := LoadResultsStep(s, resultsFile, host).0;
            && s'.commands == s.commands && s'.tests == s.tests
            && s'.testingEnabled == s.testingEnabled && s'.binaryDir == s.binaryDir
            && |s'.events| >= |s.events| && s'.events[..|s.events|] == s.events
  {
    var s' := LoadResultsStep(s, resultsFile, host).0;
    assert s'.events[..|s.events|] == s.events;
  }

  /** A reload only appends to the logs of events and commands. */
  lemma ReloadOnlyAppends(s: DriverState, build: Build, host: Host)
    ensures var s' := ReloadStep(s, build, host).0;
            && |s'.commands| >= |s.commands| && s'.commands[..|s.commands|] == s.commands
            && |s'.events| >= |s.events| && s'.events[..|s.events|] == s.events
  {
    var s' := ReloadStep(s, build, host).0;
    if host.paths.join(build.binaryDir, TestFileName) in host.files && host.listing.retc == Some(0) {
      var s2 := WithTests(WithCommand(WithTestingEnabled(s.(binaryDir := build.binaryDir), true), ListCommand(build)),
                          DiscoverTests(host.listing.stdout));
      var resultsFile := ResultsFile(build, host);
      if resultsFile.Some? && resultsFile.value in host.files {
        LoadResultsOnlyAppends(s2, resultsFile.value, host);
        assert s'.events[..|s2.events|] == s2.events;
      }
      assert s'.events[..|s.events|] == s.events;
    } else {
      assert s'.events[..|s.events|] == s.events;
    }
    assert s'.commands[..|s.commands|] == s.commands;
  }

  /** Otherwise the test list is exactly the tests of the listing's lines that match,
      in order, and it is what reloadTests returns unless loading results throws. */
  lemma ReloadDiscovers(s: DriverState, build: Build, host: Host)
    requires host.paths.join(build.binaryDir, TestFileName) in host.files
    requires host.listing.retc == Some(0)
    ensures var (s', r) := ReloadStep(s, build, host);
            && s'.testingEnabled && s'.binaryDir == build.binaryDir
            && s'.tests == DiscoverTests(host.listing.stdout)
            && (r.Success? ==> r.value == s'.tests)
            && |s'.events| >= |s.events| + 2
            && s'.events[..|s.events| + 2] == s.events + [TestingEnabledChanged(true), TestsChanged(s'.tests)]
  {
    var tests := DiscoverTests(host.listing.stdout);
    var s1 := WithCommand(WithTestingEnabled(s.(binaryDir := build.binaryDir), true), ListCommand(build));
    var s2 := WithTests(s1, tests);
    assert s2.events == s.events + [TestingEnabledChanged(true), TestsChanged(tests)];
    var resultsFile := ResultsFile(build, host);
    if resultsFile.Some? && resultsFile.value in host.files {
      LoadResultsOnlyAppends(s2, resultsFile.value, host);
    } else {
      assert WithTestResults(s2, None).events[..|s2.events|] == s2.events;
    }
  }

  /** Without a TAG file, with an empty first TAG line, or without the results file,
      the results become null, a null summary is fired, and the decorations stay. */
  lemma ReloadWithoutResults(s: DriverState, build: Build, host: Host)
    requires host.paths.join(build.binaryDir, TestFileName) in host.files
    requires host.listing.retc == Some(0)
    requires ResultsFile(build, host).None? || ResultsFile(build, host).value !in host.files
    ensures var (s', r) := ReloadStep(s, build, host);
            && r == Success(DiscoverTests(host.listing.stdout))
            && s'.testResults.None?
            && s'.decorations == s.decorations
            && s'.events[|s'.events| - 1] == ResultsChanged(None)
  {
  }

  /** The results file is `Test.xml` in the directory named by the first line of the
      TAG file, trimmed, under `binaryDir/Testing`. */
  lemma ResultsFileIsTagged(build: Build, host: Host)
    requires ResultsFile(build, host).Some?
    ensures var testing := host.paths.join(build.binaryDir, "Testing");
            var tagFile := host.paths.join(testing, "TAG");
            && tagFile in host.files
            && var tag := Trim(Split(host.files[tagFile], '\n')[0]);
               && tag != [] && IsTrimmed(tag)
               && ResultsFile(build, host) == Some(host.paths.join(host.paths.join(testing, tag), "Test.xml"))
  {
    var testing := host.paths.join(build.binaryDir, "Testing");
    var tagFile := host.paths.join(testing, "TAG");
    TrimSpec(Split(host.files[tagFile], '\n')[0]);
  }

  /** A successful results load stores the cleaned results, fires a summary whose
      total is the number of discovered tests (not of results), and replaces the
      decorations, whatever they were, by those of the failed tests' outputs. */
  lemma ReloadWithResults(s: DriverState, build: Build, host: Host)
    requires host.paths.join(build.binaryDir, TestFileName) in host.files
    requires host.listing.retc == Some(0)
    requires ResultsFile(build, host).Some? && ResultsFile(build, host).value in host.files
    ensures var (s', r) := ReloadStep(s, build, host);
            var file := ResultsFile(build, host).value;
            r.Success? ==>
              && host.parseXml(host.files[file]).Some?
              && var clean := CleanupResultsXml(host.parseXml(host.files[file]).value, host.codecs);
                 && clean.Success?
                 && s'.testResults == Some(clean.value)
                 && var failed := FailedTests(clean.value.site.testing.test);
                    && FailingDecorations(failed, host.isWin32).Success?
                    && s'.decorations == FailingDecorations(failed, host.isWin32).value
                    && s'.events[|s'.events| - 1] ==
                         ResultsChanged(Some(Summary(Passing(clean.value.site.testing.test), |DiscoverTests(host.listing.stdout)|)))
  {
  }

  /** A results load that throws after the results were stored has already cleared
      the decorations: they are not left as they were. */
  lemma ReloadScanFailureClears(s: DriverState, build: Build, host: Host)
    requires host.paths.join(build.binaryDir, TestFileName) in host.files
    requires host.listing.retc == Some(0)
    requires ResultsFile(build, host).Some? && ResultsFile(build, host).value in host.files
    ensures var (s', r) := ReloadStep(s, build, host);
            r.Failure? && r.error.ScanFailed? ==> s'.decorations == [] && s'.testResults.Some?
  {
  }

  /** What loading the results file yields whatever the driver's state: the cleaned
      results and the failed tests' decorations, or the error thrown. */
  function LoadOutcome(resultsFile: string, host: Host): Result<(CTestResults, seq<Decoration>), DriverError>
    requires resultsFile in host.files
  {
    match host.parseXml(host.files[resultsFile])
    case None => Failure(XmlParseFailed)
    case Some(messy) =>
      match CleanupResultsXml(messy, host.codecs)
      case Failure(e) => Failure(CleanupFailed(e))
      case Success(clean) =>
        match FailingDecorations(FailedTests(clean.site.testing.test), host.isWin32)
        case Failure(e) => Failure(ScanFailed(e))
        case Success(ds) => Success((clean, ds))
  }

  /** A reload that finds the results file returns the discovered tests unless the
      load throws, and after a successful load holds what was loaded, whatever it held
      before. */
  lemma ReloadResultsOutcome(s: DriverState, build: Build, host: Host)
    requires host.paths.join(build.binaryDir, TestFileName) in host.files
    requires host.listing.retc == Some(0)
    requires ResultsFile(build, host).Some? && ResultsFile(build, host).value in host.files
    ensures var (s', r) := ReloadStep(s, build, host);
            var outcome := LoadOutcome(ResultsFile(build, host).value, host);
            && r == (if outcome.Failure? then Failure(outcome.error) else Success(DiscoverTests(host.listing.stdout)))
            && (outcome.Success? ==> s'.testResults == Some(outcome.value.0) && s'.decorations == outcome.value.1)
  {
  }

  /** Reloading twice in the same world leaves the driver as one reload does, apart
      from the events and commands logged. */
  lemma ReloadIdempotent(s: DriverState, build: Build, host: Host)
    ensures var (s1, r1) := ReloadStep(s, build, host);
            var (s2, r2) := ReloadStep(s1, build, host);
            && r2 == r1
            && s2.testingEnabled == s1.testingEnabled && s2.tests == s1.tests
            && s2.testResults == s1.testResults && s2.decorations == s1.decorations
            && s2.binaryDir == s1.binaryDir
  {
    var s1 := ReloadStep(s, build, host).0;
    if host.paths.join(build.binaryDir, TestFileName) !in host.files {
      ReloadWithoutTestFile(s, build, host);
      ReloadWithoutTestFile(s1, build, host);
    } else if host.listing.retc != Some(0) {
      ReloadWhenListingFails(s, build, host);
      ReloadWhenListingFails(s1, build, host);
    } else {
      ReloadDiscovers(s, build, host);
      ReloadDiscovers(s1, build, host);
      if ResultsFile(build, host).None? || ResultsFile(build, host).value !in host.files {
        ReloadWithoutResults(s, build, host);
        ReloadWithoutResults(s1, build, host);
      } else {
        ReloadResultsOutcome(s, build, host);
        ReloadResultsOutcome(s1, build, host);
      }
    }
  }

  /** A run clears the decorations before reloading, logs its own command first, and
      returns the exit code, or -1 when the run was terminated. */
  lemma RunClearsAndReloads(s: DriverState, build: Build, config: CTestConfig, run: ProcessResult, host: Host)
    ensures var (s', r) := RunStep(s, build, config, run, host);
            var cleared := WithCommand(s.(decorations := []), RunCommand(build, config));
            var (s2, r2) := ReloadStep(cleared, build, host);
            && s' == s2
            && (r.Failure? <==> r2.Failure?)
            && (r.Failure? ==> r.error == r2.error)
            && (r.Success? ==> r.value == if run.retc.None? then -1 else run.retc.value)
            && |s'.commands| > |s.commands| && s'.commands[|s.commands|] == RunCommand(build, config)
  {
    var cleared := WithCommand(s.(decorations := []), RunCommand(build, config));
    ReloadOnlyAppends(cleared, build, host);
    var s2 := ReloadStep(cleared, build, host).0;
    assert s2.commands[|s.commands|] == s2.commands[..|cleared.commands|][|s.commands|];
  }

  /** After a successful run no decoration survives from before the run: there are
      none, or they are exactly those of the failed tests of the results now held. */
  lemma RunReplacesDecorations(s: DriverState, build: Build, config: CTestConfig, run: ProcessResult, host: Host)
    ensures var (s', r) := RunStep(s, build, config, run, host);
            r.Success? ==>
              || s'.decorations == []
              || (&& s'.testResults.Some?
                  && FailingDecorations(FailedTests(s'.testResults.value.site.testing.test), host.isWin32) == Success(s'.decorations))
  {
  }

  // ---------------------------------------------------------------------------
  // The driver

  class CTestDriver {
    const decorationManager: DecorationManager
    var testingEnabled: bool
    var tests: seq<TestInfo>
    var testResults: Option<CTestResults>
    /** What the emitters fired, oldest first. */
    var events: seq<Event>
    /** The child processes started, oldest first. */
    var commands: seq<Command>

    function State(): DriverState
      reads this, decorationManager
    {
      DriverState(testingEnabled, tests, testResults, decorationManager.binaryDir,
                  decorationManager.failingTestDecorations, events, commands)
    }

    constructor()
      ensures State() == Initial && fresh(decorationManager)
    {
      decorationManager := new DecorationManager();
      testingEnabled := false;
      tests := [];
      testResults := None;
      events := [];
      commands := [];
    }

    method SetTestingEnabled(v: bool)
      modifies this
      ensures State() == WithTestingEnabled(old(State()), v)
    {
      testingEnabled := v;
      events := events + [TestingEnabledChanged(v)];
    }

    method SetTests(v: seq<TestInfo>)
      modifies this
      ensures State() == WithTests(old(State()), v)
    {
      tests := v;
      events := events + [TestsChanged(v)];
    }

    /** The `testResults` setter. */
    method SetTestResults(v: Option<CTestResults>)
      modifies this
      ensures State() == WithTestResults(old(State()), v)
    {
      testResults := v;
      if v.Some? {
        var total := |tests|;
        var passing := Passing(v.value.site.testing.test);
        events := events + [ResultsChanged(Some(Summary(passing, total)))];
      } else {
        events := events + [ResultsChanged(None)];
      }
    }

    /** The loop of _reloadTestResults over the failed tests. */
    method CollectDecorations(failing: seq<Test>, isWin32: bool) returns (r: Result<seq<Decoration>, ScanError>)
      ensures r == FailingDecorations(failing, isWin32)
    {
      ghost var rs := Scans(failing, isWin32);
      var newDecors: seq<Decoration> := [];
      var i := 0;
      while i < |failing|
        invariant 0 <= i <= |failing|
        invariant ConcatResults(rs[..i]) == Success(newDecors)
      {
        var ds := ParseTestOutput(failing[i].output, isWin32);
        assert ds == rs[i];
        ConcatStep(rs, i, newDecors);
        if ds.Failure? {
          return Failure(ds.error);
        }
        newDecors := newDecors + ds.value;
        i := i + 1;
      }
      assert rs[..i] == rs;
      return Success(newDecors);
    }

    /** _reloadTestResults. */
    method ReloadTestResults(resultsFile: string, host: Host) returns (r: Result<(), DriverError>)
      requires resultsFile in host.files
      modifies this, decorationManager
      ensures (State(), r) == LoadResultsStep(old(State()), resultsFile, host)
    {
      var messy := host.parseXml(host.files[resultsFile]);
      if messy.None? {
        return Failure(XmlParseFailed);
      }
      var clean := CleanupResultsXml(messy.value, host.codecs);
      if clean.Failure? {
        return Failure(CleanupFailed(clean.error));
      }
      SetTestResults(Some(clean.value));
      var failing := FailedTests(clean.value.site.testing.test);
      decorationManager.ClearFailingTestDecorations();
      var newDecors := CollectDecorations(failing, host.isWin32);
      if newDecors.Failure? {
        return Failure(ScanFailed(newDecors.error));
      }
      decorationManager.SetFailingTestDecorations(newDecors.value);
      return Success(());
    }

    /** reloadTests. */
    method ReloadTests(build: Build, host: Host) returns (r: Result<seq<TestInfo>, DriverError>)
      modifies this, decorationManager
      ensures (State(), r) == ReloadStep(old(State()), build, host)
    {
      var ctestFile := host.paths.join(build.binaryDir, TestFileName);
      if ctestFile !in host.files {
        SetTestingEnabled(false);
        SetTests([]);
        return Success([]);
      }
      decorationManager.SetBinaryDir(build.binaryDir);
      SetTestingEnabled(true);
      commands := commands + [ListCommand(build)];
      var result := host.listing;
      if result.retc != Some(0) {
        SetTests([]);
        return Success([]);
      }
      var discovered := DiscoverTests(result.stdout);
      var resultsFile := ResultsFile(build, host);
      SetTests(discovered);
      if resultsFile.Some? && resultsFile.value in host.files {
        var loaded := ReloadTestResults(resultsFile.value, host);
        if loaded.Failure? {
          return Failure(loaded.error);
        }
      } else {
        SetTestResults(None);
      }
      return Success(discovered);
    }

    /** runCTest. */
    method RunCTest(build: Build, config: CTestConfig, run: ProcessResult, host: Host) returns (r: Result<int, DriverError>)
      modifies this, decorationManager
      ensures (State(), r) == RunStep(old(State()), build, config, run, host)
    {
      decorationManager.ClearFailingTestDecorations();
      commands := commands + [RunCommand(build, config)];
      var reloaded := ReloadTests(build, host);
      if reloaded.Failure? {
        return Failure(reloaded.error);
      }
      if run.retc.None? {
        return Success(-1);
      }
      return Success(run.retc.value);
    }
  }
}
