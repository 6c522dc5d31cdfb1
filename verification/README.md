# R test adapter run engine, modelled in Dafny

This project models the run engine of a VS Code test adapter for R's testthat
package: `src/testthat/runner.ts`. Given a test item (a test file or a single
test case), the runner does five things:

- it checks that devtools is at least version 2.3.2;
- it derives the worker's working directory from the file path;
- it starts Rscript and splits the worker's stdout into lines;
- it decodes each line as a reporter event or as plain text, and correlates
  each event with an item of the test tree, driving that item's run state;
- on exit it rejects the run when the output holds `Execution halted`, and
  resolves it with the transcript otherwise.

Modules, one per component:

- `Common` (common.dfy): `Option`, the rejection reasons `RunError`, and
  `Contains` (substring test).
- `TestTree` (test_tree.dfy): the item tree, node paths, and
  `findTestRecursively`, written both as a function and as the loop the source
  runs.
- `Versions` (versions.dfy): the devtools version gate.
- `WorkDir` (work_dir.dfy): backslash normalisation and the
  `(.+?)\/tests\/testthat.+?` match (flag `i`) that yields the working directory.
- `Wire` (wire.dfy): reporter events, the line decoder, and `JSON.stringify`
  applied to strings.
- `Correlator` (correlator.dfy): the pure `Step`/`Steps` specification of the
  "data" handler, and the class `RunCorrelator`. That class holds the
  transcript, start times, item states, output and rejection, and its methods
  `OnData` and `OnExit` update them in place.
- `Runner` (runner.dfy): the checks made before spawning, `runTest`'s choice
  between file mode and single-test mode, and the whole run as a method
  (`RunTest`) proved equal to its specification (`RunTestSpec`).

Modelling choices:

- An item is identified by its path of child indices from the run's target.
  The source keys its start-time map and run state by item object, and this
  path plays that role.
- The clock (`Date.now()`) is an integer reading attached to each stdout line.
- The following come from code this model does not include, so they are
  function parameters:
  - the node-id encoder (`encodeNodeId`, in `src/testthat/util`);
  - `JSON.parse`, which yields, for a parsed non-string value, the fields the
    handler reads together with `JSON.stringify` of the whole value;
  - the test-file parser (`src/testthat/parser`).
- The results of the Rscript lookup, the version probe and the workspace lookup
  are inputs.
- The spawned process is given as its stdout lines and the text left buffered
  on stderr, or as a spawn error.

Details of the code the model keeps, which are easy to misread:

- If no start time was recorded for an item, the duration is absent. In the
  code, `Date.now() - undefined` gives NaN. It is not zero.
- A line that parses as a JSON string literal is forwarded as it is, without
  `"\r\n"`.
- The transcript holds `JSON.stringify` of each stream item. For a text line,
  that is the quoted and escaped string, not the raw text.
- When nothing is buffered on stderr, `stderr.read()` returns null, and the
  text `null` is appended to the transcript.
- The working directory comes from a regular-expression match on the
  slash-normalised path, not from walking up the directory tree. Its first
  group keeps forward slashes.

## Model

| member | source | states |
|---|---|---|
| TestTree.FindAmongSpec | src/testthat/runner.ts:185-196 | after the first n children, the search result is a matching proper descendant under one of them, nothing is returned only when none matches, and no matching node comes before the result in pre-order |
| TestTree.FindIsFirstMatch | src/testthat/runner.ts:185-196 | `findTestRecursively` returns the first proper descendant in depth-first pre-order whose id equals the target id; it returns nothing exactly when no proper descendant has that id |
| TestTree.FindTestRecursively | src/testthat/runner.ts:185-196 | the forEach loop, which updates its result only while nothing has been found, computes exactly `Find` |
| Versions.GateIsLexicographic | src/testthat/runner.ts:61-68 | the three-disjunct check rejects exactly the versions lexicographically below (2, 3, 2) |
| Versions.GateIsMonotone | src/testthat/runner.ts:61 | every version at or above an accepted version is accepted too, so everything at or above 2.3.2 passes |
| WorkDir.Normalise | src/testthat/runner.ts:57 | the cleaned path has the same length and no backslash; every backslash becomes `/` and every other character stays in place |
| WorkDir.ShortestGroup | src/testthat/runner.ts:58 | a lazy group found at a start position ends at least 16 characters before the end of the path, room for `/tests/testthat` and one more character |
| WorkDir.ShortestGroupSpec | src/testthat/runner.ts:58 | at a fixed start, the lazy `(.+?)` yields the shortest group free of line breaks that `/tests/testthat` (any case) and one more character follow, or nothing when there is none |
| WorkDir.LeftmostGroup | src/testthat/runner.ts:58 | a returned match lies inside the path and has a non-empty group |
| WorkDir.LeftmostGroupSpec | src/testthat/runner.ts:58 | the match has the leftmost start and, at that start, the shortest group; there is no match exactly when the pattern matches nowhere |
| WorkDir.WorkingDirectoryRule | src/testthat/runner.ts:57-81 | the working directory is the first group of the leftmost shortest match on the slash-normalised path, or the workspace folder when nothing matches |
| WorkDir.SingleLinePathGivesShortestPrefix | src/testthat/runner.ts:58 | on a path without line breaks, a match exists whenever `/tests/testthat` plus one character follows a non-empty prefix, and the directory is the shortest such prefix |
| Wire.EscapeKeepsPlainText | src/testthat/runner.ts:98 | JSON escaping keeps every run of characters that need no escape |
| Wire.QuoteKeepsPlainText | src/testthat/runner.ts:98 | `JSON.stringify` of a string that contains plain text such as `Execution halted` still contains that text |
| Correlator.OutcomeStatus | src/testthat/runner.ts:139-167 | the outcome table is defined exactly for success, warning, failure, error and skip, and never yields the started state |
| Correlator.ExitOutcome | src/testthat/runner.ts:172-178 | the run is rejected exactly when an earlier rejection exists or the transcript contains `Execution halted`; an earlier rejection is the one the run keeps, since a promise settles once; the marker alone gives a rejection carrying the transcript; otherwise the run resolves with the transcript |
| Correlator.RunCorrelator.constructor | src/testthat/runner.ts:85-86 | a run starts with an empty transcript, no start times, no item states, no output and no rejection |
| Correlator.RunCorrelator.Lookup | src/testthat/runner.ts:106-111 | a test name resolves to the target in single-test mode, and through `findTestRecursively` on the encoded id in file mode |
| Correlator.RunCorrelator.Reject | src/testthat/runner.ts:112-118 | a name that does not resolve rejects the run, naming the encoded id; only the first rejection takes effect |
| Correlator.RunCorrelator.OnData | src/testthat/runner.ts:97-171 | the "data" handler changes the run state exactly as `Step` does |
| Correlator.RunCorrelator.OnExit | src/testthat/runner.ts:172-178 | on exit, the stderr text (or `null`) is appended to the transcript and the run settles by `ExitOutcome` |
| Correlator.RejectionIsSticky | src/testthat/runner.ts:112-118 | once rejected, a run keeps the same rejection whatever lines follow |
| Correlator.OnlyMissingTestsReject | src/testthat/runner.ts:97-171 | during streaming, the only rejection is a test that cannot be found |
| Correlator.TouchedItemsResolve | src/testthat/runner.ts:104-137 | every item given a start time or a state is the target in single-test mode and a proper descendant of the target in file mode; single-test runs are never rejected for a missing test |
| Correlator.UnresolvedLabelRejects | src/testthat/runner.ts:112-137 | in file mode, a start_test or add_result event whose encoded id matches no descendant rejects the run with that id and changes no item state |
| Correlator.ResolvedStartRecordsTime | src/testthat/runner.ts:104-121 | a start_test whose name resolves records the current time for that item and marks it started; nothing else changes but the transcript |
| Correlator.IncompleteEventsOnlyTranscribe | src/testthat/runner.ts:103-124 | a start_test without a test name, an add_result without a test name or a result, and a value of any other type only add their serialisation to the transcript |
| Correlator.UnparsedLinesOnlyEcho | src/testthat/runner.ts:89-101 | lines that do not parse become their text plus `"\r\n"`, in order, on the target's output; no item state, start time or rejection arises |
| Correlator.AddResultFollowsTable | src/testthat/runner.ts:123-167 | success and warning give passed, failure gives failed, error gives errored (each with the message and the duration since the recorded start), skip gives skipped; for success, warning and skip a non-empty message is appended to that item's output, otherwise the output is unchanged; start times and the rejection stay as they were and the transcript grows by the event's serialisation; any other result changes nothing but the transcript |
| Correlator.StartThenSuccessPasses | src/testthat/runner.ts:104-146 | a start_test line and then a success line for the same name leave that item passed, with the time between the two lines as its duration |
| Correlator.TranscriptIsConcatenation | src/testthat/runner.ts:97-98 | after any lines, the transcript is the earlier transcript followed by `JSON.stringify` of every decoded line, in order, whatever else the handler does |
| Correlator.MarkerInUnparsedLineReachesTranscript | src/testthat/runner.ts:89-98 | an unparsed line that contains `Execution halted` puts the marker into the concatenated transcript, because quoting keeps it intact |
| Runner.Prepare | src/testthat/runner.ts:50-81 | the run proceeds exactly when the path, Rscript, a detected version and the workspace are all present and the version passes the gate; it fails with VersionTooOld exactly when the version is below 2.3.2 and the earlier checks pass; it then uses the working-directory rule |
| Runner.RunTest | src/testthat/runner.ts:19-213 | the run as performed, one correlator fed line by line and then the exit handler, gives exactly `RunTestSpec` |
| Runner.OldVersionRejectsBeforeSpawn | src/testthat/runner.ts:59-68 | once the path and Rscript are present, the run is rejected with VersionTooOld exactly when the version is below 2.3.2; then nothing is spawned, nothing is transcribed and no item is touched |
| Runner.FatalMarkerRejects | src/testthat/runner.ts:172-177 | a worker that exits normally but prints `Execution halted`, on stderr or in a non-JSON stdout line, still rejects the run |
| Runner.CleanExitResolves | src/testthat/runner.ts:172-178 | without the marker and without a missing test, the run resolves with the whole transcript: every stdout item as `JSON.stringify` writes it, in order, then stderr |
| Runner.ModeDecidesResolution | src/testthat/runner.ts:27-41 | a test case runs in single-test mode, where every event lands on the test case and no missing-test rejection occurs; a file runs in file mode, where events land only on proper descendants of the parsed file |

## Left out

- Spawning Rscript, piping streams and the command string built from the reporter path, workspace folder, file path and test label (lines 74-78, 84-88) are not modelled. The process is given as its stdout lines and its buffered stderr.
- The line splitting done by split2 is not modelled: the lines are given. The model assumes every stdout line is handled before the "exit" event fires.
- `getRscriptCommand` (lines 215-271) is I/O: configuration, PATH, file-system and registry lookups with a module-level cache. Only its result is an input: a command, or none, which rejects the run.
- `getDevtoolsVersion` (lines 273-303) runs a subprocess and then uses a regular expression and `parseInt`. Its result is an input: three natural numbers, the probe output when no version was found, or the error when the probe fails to spawn (lines 299-301), which rejects the run with that error. The case where `\d*` matches nothing and `parseInt` gives NaN (which passes every comparison of the gate) is not modelled.
- The implementations of `encodeNodeId` and of the test-file parser are in files that are not part of this model. They are function parameters.
- `JSON.parse` is a function parameter, and so is `JSON.stringify` of a parsed non-string value, which the parser delivers with the value. Parsed fields are modelled as strings or absent. Fields of other JSON types, and a line that reads `null` (the handler then throws on `data.type`), are not modelled.
- After an unresolved test name, the source goes on to use an undefined item (`testStartDates.set` or `run.passed` with `undefined`), which throws inside the handler. The model records the rejection, skips the rest of that event, and keeps handling later lines. What the stream does after that exception depends on split2 and Node's stream error handling, which are not modelled.
- `Runner.RunTestSpec`: when a single-test run is rejected, the source passes the error object to `run.appendOutput`. The model appends the error's message text instead.
- `Runner.RunTest`: a spawn error is modelled as happening before any stdout line arrives.
- Log messages, cancellation, and the `vscode.TestRun` API itself are not modelled. The API is reduced to a map of item states and a list of output lines.
- `src/main.ts` (activation, run profiles, R entry-point scripts) and `src/util.ts` (types only) contain no run logic. Only `ItemType` is mirrored.
