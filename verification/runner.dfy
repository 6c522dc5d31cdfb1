/** `runTest` and `runSingleTestFile` (src/testthat/runner.ts): choose file or
    single-test mode, check the environment, derive the working directory, run
    the worker's stdout lines through the correlator and settle on exit. */
module Runner {
  import opened Common
  import opened TestTree
  import opened Versions
  import opened WorkDir
  import opened Wire
  import opened Correlator

  /** What the devtools version probe reported: a version, output without a
      version in it, or a failure to spawn the probe. */
  datatype VersionProbe = Detected(version: Version) | Undetected(output: string) | ProbeFailed(reason: string)

  /** What became of the worker process: it failed to spawn, or it exited after
      writing `lines` to stdout and leaving `stderr` buffered (absent when
      nothing is buffered). */
  datatype Process = SpawnError(reason: string) | Exited(lines: seq<Line>, stderr: Option<string>)

  /** One call of `runTest`. The environment lookups are given as their results:
      the Rscript command, the version probe and the first workspace folder. */
  datatype RunRequest = RunRequest(
    target: TestItem,
    kind: ItemType,
    filePath: Option<string>,
    rscript: Option<string>,
    probe: VersionProbe,
    workspaceFolder: Option<string>,
    process: Process)

  /** Code outside the model: the node id encoder, the JSON codec and the test
      file parser that fills in a file item's children. */
  datatype Collaborators = Collaborators(
    encodeNodeId: (string, string) -> string,
    codec: Codec,
    parseTestFile: TestItem -> TestItem)

  /** The outcome of a run: how its promise settled, the run state it left, and
      the working directory the worker was started in, if it was started. */
  datatype RunOutcome = RunOutcome(settled: Settled, state: RunState, cwd: Option<string>)

  /** The message a rejection carries. */
  function Message(e: RunError): string {
    match e
    case FilePathMissing => "Could not get the current test path"
    case RscriptMissing => "Rscript could not be found in PATH, cannot run the tests."
    case VersionUndetected(output) => "devtools version could not be detected. Output:\n" + output
    case VersionTooOld =>
      "Devtools version too old. RTestAdapter requires devtools>=2.3.2" +
      "to be installed in the Rscript environment"
    case WorkspaceMissing => "Could not get the current workspace folder"
    case SpawnFailed(reason) => reason
    case TestNotFound(id) => "Test with id " + id + " could not be found. Please report this."
    case ExecutionHalted(transcript) => transcript
  }

  /** The checks `runSingleTestFile` makes before it spawns anything, in order,
      and the working directory it then uses. */
  function Prepare(filePath: Option<string>, rscript: Option<string>, probe: VersionProbe,
                   workspaceFolder: Option<string>): (r: Result<string>)
    ensures r.Ok? <==>
      filePath.Some? && rscript.Some? && probe.Detected? && !TooOld(probe.version) && workspaceFolder.Some?
    ensures r == Err(VersionTooOld) <==>
      filePath.Some? && rscript.Some? && probe.Detected? && TooOld(probe.version)
    ensures r.Ok? ==> r.value == WorkingDirectory(filePath.value, workspaceFolder.value)
  {
    if filePath.None? then Err(FilePathMissing)
    else if rscript.None? then Err(RscriptMissing)
    else if probe.Undetected? then Err(VersionUndetected(probe.output))
    else if probe.ProbeFailed? then Err(SpawnFailed(probe.reason))
    else if TooOld(probe.version) then Err(VersionTooOld)
    else if workspaceFolder.None? then Err(WorkspaceMissing)
    else Ok(WorkingDirectory(filePath.value, workspaceFolder.value))
  }

  /** A file item without children is parsed before it runs. */
  function ItemToRun(req: RunRequest, env: Collaborators): TestItem {
    if req.kind == File && |req.target.children| == 0 then env.parseTestFile(req.target) else req.target
  }

  function ConfigFor(req: RunRequest, env: Collaborators): RunConfig
    requires req.filePath.Some?
  {
    RunConfig(ItemToRun(req, env), req.kind == TestCase, req.filePath.value, env.encodeNodeId, env.codec)
  }

  /** `runSingleTestFile`: preparation, then the worker's lines, then exit. */
  function RunFile(req: RunRequest, env: Collaborators): RunOutcome {
    match Prepare(req.filePath, req.rscript, req.probe, req.workspaceFolder)
    case Err(e) => RunOutcome(Rejected(e), Initial, None)
    case Ok(cwd) =>
      match req.process
      case SpawnError(reason) => RunOutcome(Rejected(SpawnFailed(reason)), Initial, Some(cwd))
      case Exited(lines, stderr) =>
        var s := Steps(ConfigFor(req, env), Initial, lines);
        var s' := s.(transcript := s.transcript + StderrText(stderr));
        RunOutcome(ExitOutcome(s'.rejection, s'.transcript), s', Some(cwd))
  }

  /** `runTest`: a file item runs as a whole; a test case runs in single-test
      mode, which also appends the transcript or the error to the run output. */
  function RunTestSpec(req: RunRequest, env: Collaborators): RunOutcome {
    var o := RunFile(req, env);
    if req.kind == File then o
    else
      var text := match o.settled case Resolved(t) => t case Rejected(e) => Message(e);
      o.(state := o.state.(output := o.state.output + [OutputLine(None, text)]))
  }

  /** The run as the runner performs it: one correlator, fed line by line. */
  method RunTest(req: RunRequest, env: Collaborators) returns (outcome: RunOutcome)
    ensures outcome == RunTestSpec(req, env)
  {
    var prepared := Prepare(req.filePath, req.rscript, req.probe, req.workspaceFolder);
    if prepared.Err? {
      outcome := RunOutcome(Rejected(prepared.error), Initial, None);
    } else if req.process.SpawnError? {
      outcome := RunOutcome(Rejected(SpawnFailed(req.process.reason)), Initial, Some(prepared.value));
    } else {
      var cfg := ConfigFor(req, env);
      var correlator := new RunCorrelator(cfg);
      var lines := req.process.lines;
      var i := 0;
      while i < |lines|
        invariant 0 <= i <= |lines|
        invariant correlator.config == cfg
        invariant correlator.State() == Steps(cfg, Initial, lines[..i])
      {
        StepsExtend(cfg, Initial, lines, i);
        correlator.OnData(DecodeLine(cfg.codec, lines[i].text), lines[i].time);
        i := i + 1;
      }
      assert lines[..|lines|] == lines;
      var settled := correlator.OnExit(req.process.stderr);
      outcome := RunOutcome(settled, correlator.State(), Some(prepared.value));
    }
    if req.kind == TestCase {
      var text := if outcome.settled.Resolved? then outcome.settled.transcript else Message(outcome.settled.error);
      outcome := outcome.(state := outcome.state.(output := outcome.state.output + [OutputLine(None, text)]));
    }
  }

  // Properties of whole runs.

  /** A version below 2.3.2 rejects the run before any process is spawned: no
      working directory, no transcript, no item touched. */
  lemma OldVersionRejectsBeforeSpawn(req: RunRequest, env: Collaborators)
    requires req.filePath.Some? && req.rscript.Some? && req.probe.Detected?
    ensures var o := RunTestSpec(req, env);
      (o.settled == Rejected(VersionTooOld) <==> TooOld(req.probe.version)) &&
      (TooOld(req.probe.version) ==>
        o.cwd.None? && o.state.transcript == "" && o.state.statuses == map[] && o.state.startTimes == map[])
  {
    if !TooOld(req.probe.version) && req.workspaceFolder.Some? && req.process.Exited? {
      OnlyMissingTestsReject(ConfigFor(req, env), req.process.lines);
    }
  }

  /** The fatal marker in the output of a normally exiting worker rejects the run:
      in stderr, or in any stdout line that is not JSON. */
  lemma {:induction false} FatalMarkerRejects(req: RunRequest, env: Collaborators)
    requires Prepare(req.filePath, req.rscript, req.probe, req.workspaceFolder).Ok?
    requires req.process.Exited?
    requires Contains(StderrText(req.process.stderr), FatalMarker) ||
      exists i :: 0 <= i < |req.process.lines| &&
        env.codec.parseJson(req.process.lines[i].text).None? &&
        Contains(req.process.lines[i].text, FatalMarker)
    ensures RunTestSpec(req, env).settled.Rejected?
  {
    var cfg := ConfigFor(req, env);
    var s := Steps(cfg, Initial, req.process.lines);
    if Contains(StderrText(req.process.stderr), FatalMarker) {
      ContainsInSuffix(s.transcript, StderrText(req.process.stderr), FatalMarker);
    } else {
      var i :| 0 <= i < |req.process.lines| &&
        env.codec.parseJson(req.process.lines[i].text).None? &&
        Contains(req.process.lines[i].text, FatalMarker);
      MarkerInUnparsedLineReachesTranscript(env.codec, req.process.lines, i);
      TranscriptIsConcatenation(cfg, Initial, req.process.lines);
      assert "" + Transcript(env.codec, req.process.lines) == Transcript(env.codec, req.process.lines);
      assert s.transcript == Transcript(env.codec, req.process.lines);
      ContainsInPrefix(s.transcript, StderrText(req.process.stderr), FatalMarker);
    }
  }

  /** Without the marker and without an unresolved test, a worker that exits
      resolves the run with its whole transcript: every stdout item as
      JSON.stringify writes it, in order, then stderr. */
  lemma CleanExitResolves(req: RunRequest, env: Collaborators)
    requires Prepare(req.filePath, req.rscript, req.probe, req.workspaceFolder).Ok?
    requires req.process.Exited?
    requires Steps(ConfigFor(req, env), Initial, req.process.lines).rejection.None?
    requires !Contains(Transcript(env.codec, req.process.lines) + StderrText(req.process.stderr), FatalMarker)
    ensures RunTestSpec(req, env).settled ==
      Resolved(Transcript(env.codec, req.process.lines) + StderrText(req.process.stderr))
  {
    TranscriptIsConcatenation(ConfigFor(req, env), Initial, req.process.lines);
    assert "" + Transcript(env.codec, req.process.lines) == Transcript(env.codec, req.process.lines);
  }

  /** A test case runs in single-test mode: every event lands on the test case
      itself and the run is never rejected for a missing test. A file runs in
      file mode: events land only on proper descendants of the (parsed) file. */
  lemma {:induction false} ModeDecidesResolution(req: RunRequest, env: Collaborators)
    requires Prepare(req.filePath, req.rscript, req.probe, req.workspaceFolder).Ok?
    requires req.process.Exited?
    ensures var s := RunTestSpec(req, env).state;
      forall p :: p in s.statuses || p in s.startTimes ==>
        if req.kind == TestCase then p == [] else IsDescendant(ItemToRun(req, env), p)
    ensures req.kind == TestCase ==>
      RunTestSpec(req, env).settled.Rejected? ==> !RunTestSpec(req, env).settled.error.TestNotFound?
  {
    TouchedItemsResolve(ConfigFor(req, env), req.process.lines);
  }
}
