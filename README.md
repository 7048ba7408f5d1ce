# CTest integration of CMake Tools, in Dafny

This project models the CTest core of the CMake Tools extension for VS Code, plus two smaller
components of the extension.

- **Test discovery.** `reloadTests` runs `ctest -N` and turns each listed line into a test
  with a numeric id and a name.
- **Results loading.** `_reloadTestResults` reads `Testing/<tag>/Test.xml`.
  `cleanupResultsXML` and `decodeOutputMeasurement` unwrap the xml2js tree of that file
  into clean results.
- **Results summary.** The `testResults` setter fires a passing/total summary.
- **Failure scanning.** The Catch scanner (`parseTestOutput`, `parseCatchTestOutput`) turns
  each `file:line: FAILED:` block of a failed test's output into an editor decoration.
- **Decoration list.** `DecorationManager` keeps the list of decorations. It picks the ones
  an editor shows by resolving each decoration's file against the build directory.
- **Running.** `runCTest` clears the decorations, runs `ctest -T test` and reloads.
- **Hover text.** `getToolTipForText` in `intellisensedata.ts` finds the hover text of a
  CMake command or variable.
- **Installer output.** The `output` and `error` methods of the CMake installer's output
  consumer filter what reaches the output channel.

Modules:

| module | contents |
|---|---|
| `Wrappers` | `Option` and `Result`. A thrown JavaScript error is a `Failure`. |
| `JsStrings` | The JavaScript string operations the core relies on: `trim`, `split` on one character, `startsWith`, the classes `\s`, `\d` and `.`, and `parseInt` on digits. |
| `ResultsXml` | The xml2js tree of `Test.xml`, `decodeOutputMeasurement` and `cleanupResultsXML`. |
| `TestListing` | The `ctest -N` line pattern `/^Test\s*#(\d+):\s(.*)/`, and discovery over a whole listing. |
| `CatchOutput` | The Catch banner test, the `FAILED:` patterns for Windows and other platforms, the hover blocks, and the scanner as a function (`CatchScan`) and as the source's cursor loop (`ParseCatchTestOutput`). |
| `Decorations` | The `DecorationManager` class and its path matching. |
| `CTest` | The `CTestDriver` class (details below). |
| `Intellisense` | `getToolTipForText` on JSON values. |
| `InstallerOutput` | The `CMakeInstallerOutputConsumer` class. |

In `CTest`, the driver's fields and those of its decoration manager are also one
`DriverState` value. `ReloadStep` and `RunStep` are step functions on that value, and each
method of the class ensures that its new `State()` is the step applied to the old one. The
lemmas about the driver are stated on the step functions. Every event an emitter fires and
every child process the driver starts is appended to a log. The file system is a map from
path to content.

## Model

| member | source | states |
|---|---|---|
| JsStrings.Split | src/ctest.ts:170 | `split` on one character gives at least one piece, and no piece contains the separator |
| JsStrings.JoinSplit | src/ctest.ts:170 | joining the pieces of a split with the separator gives the original text |
| JsStrings.SplitJoin | src/ctest.ts:402 | splitting pieces joined with a separator they lack gives the pieces back |
| JsStrings.TrimSpec | src/ctest.ts:171 | `trim` leaves no white space at either end, never lengthens, and leaves nothing exactly when the text is all white space |
| JsStrings.TrimPadded | src/ctest.ts:403 | `trim` removes exactly the white space around a trimmed core |
| JsStrings.TrimIdempotent | src/ctest.ts:403 | trimming twice is trimming once |
| JsStrings.ParseNatToString | src/ctest.ts:406 | `parseInt` of a number's decimal rendering gives the number back |
| ResultsXml.PlainOutputPassesThrough | src/ctest.ts:131-138 | with no truthy `encoding` or `compression`, the measurement text comes back unchanged (given that UTF-8 round-trips) |
| ResultsXml.EncodingPicksBuffer | src/ctest.ts:132-133 | the encoding attribute alone decides how the text becomes a buffer: a truthy one is passed as is, otherwise UTF-8. A buffer that cannot be made is the error thrown |
| ResultsXml.EncodedOutputIsDecodedThenUnzipped | src/ctest.ts:134-137 | once the text is a buffer, the compression attribute alone decides whether it is unzipped (any truthy value unzips) before the UTF-8 rendering. An unzip failure is the error thrown |
| ResultsXml.CleanTests | src/ctest.ts:146-155 | a successful cleanup of the tests yields one test per raw test |
| ResultsXml.CleanTestList | src/ctest.ts:145 | a successful cleanup of the test list yields one name per entry |
| ResultsXml.CleanTestSucceedsIff | src/ctest.ts:147-155 | one test cleans up exactly when FullName, FullCommandLine, Name, Path and the first measurement value are present and the output decodes |
| ResultsXml.CleanTestFields | src/ctest.ts:147-155 | a clean test carries the first FullName, FullCommandLine, Name and Path, the Status attribute, no measurements and the decoded output |
| ResultsXml.CleanTestsSucceedsIff | src/ctest.ts:146-155 | the tests clean up exactly when every raw test is well formed |
| ResultsXml.CleanTestsInOrder | src/ctest.ts:146-155 | the i-th clean test is the cleanup of the i-th raw test |
| ResultsXml.CleanTestListSucceedsIff | src/ctest.ts:145 | the test list cleans up exactly when every entry has a Test child |
| ResultsXml.CleanTestListInOrder | src/ctest.ts:145 | the i-th name is the first Test of the i-th TestList entry |
| ResultsXml.CleanupSucceedsIff | src/ctest.ts:140-159 | cleanup succeeds exactly when there is a Site with a Testing child that has TestList and Test children and every entry and test is well formed |
| ResultsXml.CleanupContents | src/ctest.ts:140-159 | a successful cleanup keeps the Site attributes and yields the first Testing's test list and tests, in order |
| ResultsXml.CleanTestsHaveNoMeasurements | src/ctest.ts:153 | every clean test has an empty measurement map |
| TestListing.ParseTestLineIff | src/ctest.ts:404-406 | a trimmed line is accepted as test `t` exactly when it is `Test`, white space, `#`, digits, `:`, one white-space character and a name, with `t`'s id parsed from the digits and its name the rest of the line |
| TestListing.ParseTestLineSound | src/ctest.ts:404-406 | every accepted line has that shape |
| TestListing.ParseTestLineComplete | src/ctest.ts:404-406 | every line built from those pieces is accepted with the id and name the pattern captures |
| TestListing.ParseTestLineAt | src/ctest.ts:404-406 | with `#` at `a` and `:` at `e`, the line yields the digits between them and the text after `: ` up to a line terminator |
| TestListing.ParsedTestsAppend | src/ctest.ts:402-406 | discovery keeps the order of the lines |
| TestListing.ParsedTestsMembership | src/ctest.ts:402-406 | a test is discovered exactly when some line, trimmed, is accepted as that test |
| TestListing.ParsedTestsBound | src/ctest.ts:402-406 | there are never more tests than lines |
| TestListing.ListingLineParses | src/ctest.ts:402-406 | a line `Test #<id>: <name>` with any indentation and padding is discovered as that test |
| TestListing.ParsedListingLines | src/ctest.ts:403-406 | the listing lines of a sequence of tests are discovered as exactly those tests |
| TestListing.ListingRoundTrip | src/ctest.ts:402-406 | discovery on a printed listing of tests with printable names gives the tests back, in order |
| CatchOutput.BannerTailFrom | src/ctest.ts:201 | `.* host application\.` matches from `k` exactly when ` host application.` starts at or after `k` with no line terminator between |
| CatchOutput.BannerFrom | src/ctest.ts:201 | the banner pattern matches exactly when `is a Catch ` occurs and the tail matches after it |
| CatchOutput.LastMarker | src/ctest.ts:175-176 | the position found for the greedy `(.*)` is at most the end of the line |
| CatchOutput.LastMarkerFound | src/ctest.ts:175-176 | at that position the rest of the FAILED pattern matches |
| CatchOutput.LastMarkerAtLeast | src/ctest.ts:175-176 | any position where the rest of the pattern matches is found, or one further right is |
| CatchOutput.LastMarkerSpec | src/ctest.ts:175-176 | the greedy `(.*)` ends at the rightmost position where the rest matches, and nowhere when there is none |
| CatchOutput.MatchFailureIsRegex | src/ctest.ts:175-180 | `regex.exec` succeeds exactly when the platform's pattern matches, and captures the longest file and the digits after it |
| CatchOutput.FailedLines | src/ctest.ts:170-176 | the pattern is applied to every trimmed line, one result per line |
| CatchOutput.FirstDelimiter | src/ctest.ts:182-188 | a delimiter found lies at or after the start and within the lines |
| CatchOutput.FirstDelimiterSpec | src/ctest.ts:182-188 | the inner loop stops at the nearest `======` or `------` line, and no earlier line is one |
| CatchOutput.FirstDelimiterIs | src/ctest.ts:182-188 | the nearest delimiter line, or none at all, is what is found |
| CatchOutput.DecorationAt | src/ctest.ts:178-194 | a decoration carries the captured file and the captured line minus one |
| CatchOutput.DecorationAtHover | src/ctest.ts:181-193 | its hover is `~~~c++`, the untrimmed lines from the FAILED line up to the delimiter, a blank line and `~~~` |
| CatchOutput.MatchedIndices | src/ctest.ts:173-177 | the matched line indices are increasing and are exactly the matched lines |
| CatchOutput.ScanFromSucceedsIff | src/ctest.ts:173-196 | the scan from a line succeeds exactly when every later FAILED line has a delimiter at or after it |
| CatchOutput.ScanFromOnePerMatch | src/ctest.ts:173-196 | a successful scan yields one decoration per matched line, in order, at that line |
| CatchOutput.FailedLineIndicesSpec | src/ctest.ts:170-177 | the FAILED line indices are increasing and are exactly the lines whose trimmed form matches |
| CatchOutput.CatchScanFailsIff | src/ctest.ts:169-198 | parseCatchTestOutput throws exactly when some FAILED line has no delimiter line at or after it |
| CatchOutput.CatchScanOnePerFailedLine | src/ctest.ts:169-198 | on success there is exactly one decoration per FAILED line, in line order, with that line's file and line number minus one |
| CatchOutput.CatchScanHoverBlocks | src/ctest.ts:181-193 | the k-th hover message is the block of untrimmed lines from the k-th FAILED line to its delimiter |
| CatchOutput.ScanStep | src/ctest.ts:173-196 | the scan from a line is that line's step (nothing, one decoration, or the throw) followed by the scan from the next line |
| CatchOutput.CollectHover | src/ctest.ts:181-189 | the inner loop fails exactly when no delimiter follows, and otherwise builds the block up to the delimiter |
| CatchOutput.DecorationForLine | src/ctest.ts:177-195 | the body of the cursor loop at one line performs that line's step |
| CatchOutput.ParseCatchTestOutput | src/ctest.ts:169-198 | the cursor loop yields exactly the scan of the whole output, so every property above holds of it |
| CatchOutput.ParseTestOutput | src/ctest.ts:200-204 | output without the Catch banner yields no decoration, and output with it is scanned |
| Decorations.DecorationsForMembership | src/ctest.ts:255-264 | a decoration is collected for an editor exactly when it is in the list and its resolved file normalises to the editor's file |
| Decorations.DecorationsForAppend | src/ctest.ts:258-274 | the decorations shown for two lists are those of the first, then those of the second |
| Decorations.AbsoluteIgnoresBinaryDir | src/ctest.ts:259-261 | a decoration with an absolute file shows in the same editors whatever the build directory |
| Decorations.DecorationsForShown | src/ctest.ts:258-274 | every decoration shown comes from the list and resolves to the editor's file |
| Decorations.DecorationManager.constructor | src/ctest.ts:227 | a new manager has an empty build directory and no decorations |
| Decorations.DecorationManager.SetBinaryDir | src/ctest.ts:229-232 | the build directory changes and the list does not |
| Decorations.DecorationManager.ClearFailingTestDecorations | src/ctest.ts:279 | the list is emptied and the build directory kept |
| Decorations.DecorationManager.AddFailingTestDecoration | src/ctest.ts:280-283 | the decoration is appended at the end of the list |
| Decorations.DecorationManager.SetFailingTestDecorations | src/ctest.ts:285-288 | the list is replaced by the new one |
| Decorations.DecorationManager.EditorDecorations | src/ctest.ts:255-274 | the refresh loop collects the decorations in the list whose resolved file normalises to the editor's file, in list order |
| CTest.PassingAppend | src/ctest.ts:343-344 | the passing count of two runs of results is the sum of their counts |
| CTest.PassingBound | src/ctest.ts:343-344 | the passing count is at most the number of results, equals it exactly when all passed, and is zero exactly when none passed |
| CTest.FailedTestsAppend | src/ctest.ts:428 | the filter keeps the order and the multiplicity of the results: the failed tests of two runs of results are those of the first, then those of the second |
| CTest.FailedTestsMembership | src/ctest.ts:428 | a test is among the failing exactly when it is a result with status `failed` |
| CTest.Scans | src/ctest.ts:431-433 | each failed test's output is scanned once |
| CTest.ConcatResultsAppend | src/ctest.ts:430-433 | collecting two runs of scans collects the first and then the second, and a failure in the first is the one thrown |
| CTest.ConcatStep | src/ctest.ts:431-433 | one more scan after a successful prefix is either the failure thrown or more decorations appended |
| CTest.ScansAppend | src/ctest.ts:431-433 | the scans of two runs of tests are the scans of each, in order |
| CTest.FailingDecorationsAppend | src/ctest.ts:430-433 | the decorations of two runs of failed tests are those of the first, then those of the second |
| CTest.ConcatWithoutBanner | src/ctest.ts:431-433 | outputs without the Catch banner add no decoration |
| CTest.FailingDecorationsWithoutBanner | src/ctest.ts:428-433 | failed tests whose output lacks the Catch banner add no decoration |
| CTest.ReloadWithoutTestFile | src/ctest.ts:381-385 | without `CTestTestfile.cmake`, testing is disabled, the list is emptied, both changes are fired, and nothing else changes |
| CTest.ReloadWhenListingFails | src/ctest.ts:386-401 | when `ctest -N` fails, testing is enabled, the listing command is logged, and the list is emptied while results and decorations stay |
| CTest.LoadResultsOnlyAppends | src/ctest.ts:425-435 | loading results keeps the commands, tests, testing flag and build directory, and only appends events |
| CTest.ReloadOnlyAppends | src/ctest.ts:380-422 | a reload only appends to the event and command logs |
| CTest.ReloadDiscovers | src/ctest.ts:386-413 | after a successful listing, the tests are exactly those discovered, they are what is returned, and the enabled and tests events come first |
| CTest.ReloadWithoutResults | src/ctest.ts:407-419 | without a TAG file, with an empty tag, or without `Test.xml`, the results become null, a null summary is fired, and the decorations stay |
| CTest.ResultsFileIsTagged | src/ctest.ts:407-412 | the results file is `Test.xml` under `Testing/<first TAG line, trimmed>`, and that tag is non-empty |
| CTest.ReloadWithResults | src/ctest.ts:414-416 | a successful load stores the cleaned results and replaces the decorations by those of the failed tests. The summary it fires counts the passed results out of the discovered tests |
| CTest.ReloadScanFailureClears | src/ctest.ts:427-432 | a scan that throws leaves the new results stored and the decorations cleared |
| CTest.ReloadResultsOutcome | src/ctest.ts:414-416 | with the results file present, the reload returns the tests unless the load throws, and after a load holds what was loaded, whatever it held before |
| CTest.ReloadIdempotent | src/ctest.ts:380-422 | reloading twice in the same world returns the same result and leaves the same flag, tests, results, decorations and build directory as one reload, whether the first reload succeeded or threw |
| CTest.RunClearsAndReloads | src/ctest.ts:354-375 | a run clears the decorations, logs its command first, reloads, and returns the exit code (-1 when terminated) or the reload's error |
| CTest.RunReplacesDecorations | src/ctest.ts:354-367 | after a successful run no decoration survives from before the run: there are none, or they are exactly the decorations of the failed tests of the results now held |
| CTest.CTestDriver.constructor | src/ctest.ts:306-337 | a new driver has testing disabled, no tests, no results, no decorations and empty logs |
| CTest.CTestDriver.SetTestingEnabled | src/ctest.ts:309-313 | the flag is set and its new value fired |
| CTest.CTestDriver.SetTests | src/ctest.ts:328-332 | the tests are set and fired |
| CTest.CTestDriver.SetTestResults | src/ctest.ts:337-349 | the results are set, and the summary fired is null for null results and passed results out of the tests otherwise |
| CTest.CTestDriver.CollectDecorations | src/ctest.ts:430-433 | the loop over the failed tests yields the concatenation of their scans, or the first scan's throw |
| CTest.CTestDriver.ReloadTestResults | src/ctest.ts:425-435 | the method performs the results-load step on the driver's state |
| CTest.CTestDriver.ReloadTests | src/ctest.ts:380-422 | the method performs the reload step on the driver's state |
| CTest.CTestDriver.RunCTest | src/ctest.ts:354-375 | the method performs the run step on the driver's state |
| Intellisense.CommandShadowsVariable | src/intellisensedata.ts:45 | a command entry that is present and not null hides any variable of the same name |
| Intellisense.VariableWhenNoCommand | src/intellisensedata.ts:45 | without a command entry, or with a null one, only the variables decide |
| Intellisense.UnknownWordIsEmpty | src/intellisensedata.ts:45-49 | a word documented nowhere has the empty tooltip |
| Intellisense.UnnamedEntryIsEmpty | src/intellisensedata.ts:51-58 | an entry without a truthy name or description has the empty tooltip |
| Intellisense.ToolTipFailsIff | src/intellisensedata.ts:52-60 | the lookup throws exactly when a named entry's truthy description is not a string |
| Intellisense.PlainDescriptionShown | src/intellisensedata.ts:56-67 | a description that is not a `loc_` key is shown unchanged |
| Intellisense.LocalizedDescriptionShown | src/intellisensedata.ts:60-67 | a `loc_` key is replaced by its localised string, or by `undefined` when the loaded strings lack it, and is kept when no strings are loaded |
| Intellisense.NonEmptyToolTipIsDescription | src/intellisensedata.ts:40-68 | a non-empty tooltip is the entry's description or that description's localised string |
| InstallerOutput.KeptShape | src/cmake/cmakeInstallerOutputConsumer.ts:11-19 | every line shown is trimmed and begins with a letter, and none holds a carriage return when no piece did |
| InstallerOutput.KeptMembership | src/cmake/cmakeInstallerOutputConsumer.ts:11-19 | a line is shown exactly when it begins with a letter and some piece trims to it |
| InstallerOutput.KeptAppend | src/cmake/cmakeInstallerOutputConsumer.ts:12-19 | the pieces are handled one after the other, in order |
| InstallerOutput.SingleSegment | src/cmake/cmakeInstallerOutputConsumer.ts:9-20 | output without a carriage return shows its trimmed text when that begins with a letter, and nothing otherwise |
| InstallerOutput.BlankOutputShowsNothing | src/cmake/cmakeInstallerOutputConsumer.ts:14-18 | pieces that are only white space show nothing |
| InstallerOutput.CMakeInstallerOutputConsumer.constructor | src/cmake/cmakeInstallerOutputConsumer.ts:7-8 | a new consumer has an empty channel and no logged errors, and remembers whether it has a logger |
| InstallerOutput.CMakeInstallerOutputConsumer.Output | src/cmake/cmakeInstallerOutputConsumer.ts:9-20 | the kept pieces are appended to the channel in order, and nothing is logged |
| InstallerOutput.CMakeInstallerOutputConsumer.Error | src/cmake/cmakeInstallerOutputConsumer.ts:21-24 | the error is logged when there is a logger and is always appended to the channel |

## Left out

The model follows the code as written in these places:

- **Scanner without a delimiter.** A FAILED block with no `======`/`------` line after it
  makes `parseCatchTestOutput` read past the last line and throw. The model returns
  `Failure(ReadPastEnd)`; it does not stop at the end of the output.
- **Missing result nodes.** A missing `Results`, `Measurement` or `Value` node makes the
  cleanup throw (`Failure(Missing(..))`). No empty output is substituted.
- **Thrown errors propagate.** XML, cleanup and scan errors propagate out of `reloadTests`
  and `runCTest`. The state changes made before the throw stay in place.
- **No busy flag, atomic steps.** A run is not rejected while another runs; the source has
  no flag for it. Each of `reloadTests`, `_reloadTestResults` and `runCTest` is modelled as
  one atomic step. Concurrent calls that interleave at their `await`s are not modelled. An
  example is a reload that stores results and decorations from an older results file after a
  later run has cleared them. `CTest.RunReplacesDecorations` and `CTest.ReloadIdempotent`
  hold only for steps that do not interleave.
- **Summary total.** The summary's total is the number of discovered tests, not the number
  of results.
- **Empty tag.** A TAG file whose first line trims to nothing gives null results.

Other things not modelled, and assumptions made:

- **Lines outside the document.** `lineAt` throws for a matching decoration whose line lies
  outside the document. That includes the -1 that a displayed line 0 produces. The throw
  aborts the refresh before `setDecorations`, so the editor shows none of the decorations.
  `Decorations.DecorationManager.EditorDecorations` gives the decorations collected before
  that point and does not model the throw.
- **Editor rendering.** The decoration type, `lineAt` ranges, `setDecorations` and editor
  refreshes (`_refreshActiveEditorDecorations`, `_refreshAllEditorDecorations`,
  `onDidChangeActiveTextEditor`) are rendering and are not modelled. `showCoverageData` and
  the coverage comments are not modelled either.
- **Logging and showing the log.** `log.info`, `log.showChannel`, `console.error` and
  `console.assert` are not modelled. The lines a run writes through `CTestOutputLogger` are
  not kept.
- **Child processes.** The processes are parameters: a run's result and the `ctest -N`
  result are given. `dispose` is not modelled.
- **CMake driver and settings.** `CMakeDriver` and `config` are not part of this model. The
  `Build` and `CTestConfig` values stand for what the driver reads from them, and
  `driver.executeCommand` is the `Command` appended to the log.
- **File system.** The file system is a map from path to content. `fs.exists` is key
  membership and `fs.readFile` is a lookup.
- **Paths and utilities as parameters.** These are not part of this model, so they are
  parameters (`PathOps`) and `path.join` with three arguments is two nested joins:
  - `path.join` and `path.isAbsolute` from Node;
  - `util.normalizePath`.
- **XML parsing.** `xml2js.parseString` is a parameter that yields the raw tree or reports
  an error.
  - An absent child element is written as an empty sequence.
  - A `<Value>` without attributes is its bare text, whose `$` is `undefined`, so reading
    `$.encoding` throws.
- **Encoding and decompression.** `Buffer` decoding, `zlib.unzipSync` and the UTF-8
  rendering are parameters (`Codecs`). The model does not interpret any encoding or
  compression format.
- **Deprecated buffers.** `new Buffer` with an unknown encoding is the codec's failure.
- **Line numbers.** `parseInt` on a run of digits is exact. JavaScript rounds numbers above
  2^53, so `CatchOutput.DecorationAt` and `TestListing.ParseTestLine` give the exact value
  where the source would give a rounded one.
- **Platform.** `process.platform === 'win32'` is the `isWin32` parameter.
- **Strings.** Strings are sequences of Unicode scalar values. JavaScript's UTF-16 code
  units and surrogate pairs are not modelled.
- **JSON for hover text.** For `getToolTipForText`:
  - Parsed JSON is a `Json` value, and numbers are reals.
  - Properties inherited from `Object.prototype` (such as a word `constructor`) and index
    keys of a top-level array are not modelled.
  - `parseJsonFile`'s fallback `[]` is an empty map, so the model misses what indexing an
    array gives. That includes `length` (0, which is not nullish, so `??` never consults the
    variables and the tooltip is empty) and the members inherited from `Array.prototype`.
  - `getExtensionLocalizedStrings` is the `localized` parameter.
  - The `CancellationToken` and the unused `syntax_examples` and `targets` fields are not
    modelled.
- **Installer consumer.** The output channel is the sequence of appended lines. The optional
  `Logger` is a flag plus the sequence of logged errors. The unused `orig` variable has no
  counterpart.
- CatchOutput.CatchScanOnePerFailedLine: states the file and line number through the
  result of `regex.exec`, not the regular expression itself. `CatchOutput.MatchFailureIsRegex`
  gives that result its regular-expression meaning.
