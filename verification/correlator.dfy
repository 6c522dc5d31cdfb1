/** The per-run result correlator: the "data" and "exit" handlers of
    `runSingleTestFile` (src/testthat/runner.ts). Each stream item is added to
    the transcript, then raw text goes to the target item's output and reporter
    events drive the run state of the item their testName resolves to. */
module Correlator {
  import opened Common
  import opened TestTree
  import opened Wire

  /** The state of an item as the test run last reported it. A duration is
      absent when no start time was recorded for the item (NaN in the runner). */
  datatype Status =
    | Started
    | Passed(duration: Option<int>)
    | Failed(message: Option<string>, duration: Option<int>)
    | Errored(message: Option<string>, duration: Option<int>)
    | Skipped

  /** A piece of run output, attached to an item when `item` is present. */
  datatype OutputLine = OutputLine(item: Option<NodePath>, text: string)

  /** Everything one run accumulates: the transcript ("stdout"), the start times
      (testStartDates), the per-item states and output, and the first rejection. */
  datatype RunState = RunState(
    transcript: string,
    startTimes: map<NodePath, int>,
    statuses: map<NodePath, Status>,
    output: seq<OutputLine>,
    rejection: Option<RunError>)

  const Initial := RunState("", map[], map[], [], None)

  /** What a run is about: the target item, whether it runs a single test (then
      every event belongs to the target), the item's file path, and the
      collaborators the model takes as given. */
  datatype RunConfig = RunConfig(
    target: TestItem,
    singleTest: bool,
    filePath: string,
    encodeNodeId: (string, string) -> string,
    codec: Codec)

  /** One line of worker stdout and the clock reading when it is handled. */
  datatype Line = Line(text: string, time: int)

  /** A promise settles once; later calls to reject are ignored. */
  function Settle(current: Option<RunError>, e: RunError): Option<RunError> {
    if current.Some? then current else Some(e)
  }

  /** The item a test name stands for. */
  function Resolve(cfg: RunConfig, testName: string): Option<NodePath> {
    if cfg.singleTest then Some([]) else Find(cfg.encodeNodeId(cfg.filePath, testName), cfg.target)
  }

  function NotFound(cfg: RunConfig, s: RunState, testName: string): RunState {
    s.(rejection := Settle(s.rejection, TestNotFound(cfg.encodeNodeId(cfg.filePath, testName))))
  }

  const KnownResults: set<string> := {"success", "warning", "failure", "error", "skip"}

  /** The outcome table of "add_result". */
  function OutcomeStatus(result: string, message: Option<string>, duration: Option<int>): (st: Option<Status>)
    ensures st.None? <==> result !in KnownResults
    ensures st.Some? ==> !st.value.Started?
  {
    if result == "success" || result == "warning" then Some(Passed(duration))
    else if result == "failure" then Some(Failed(message, duration))
    else if result == "skip" then Some(Skipped)
    else if result == "error" then Some(Errored(message, duration))
    else None
  }

  /** Passed and skipped items also get a non-empty message as output. */
  function Note(p: NodePath, result: string, message: Option<string>): seq<OutputLine> {
    if result in {"success", "warning", "skip"} && message.Some? && message.value != ""
    then [OutputLine(Some(p), message.value)]
    else []
  }

  function StartTest(cfg: RunConfig, s: RunState, testName: string, now: int): RunState {
    match Resolve(cfg, testName)
    case None => NotFound(cfg, s, testName)
    case Some(p) => s.(startTimes := s.startTimes[p := now], statuses := s.statuses[p := Started])
  }

  function AddResult(cfg: RunConfig, s: RunState, testName: string, result: string,
                     message: Option<string>, now: int): RunState
  {
    match Resolve(cfg, testName)
    case None => NotFound(cfg, s, testName)
    case Some(p) =>
      var duration := if p in s.startTimes then Some(now - s.startTimes[p]) else None;
      match OutcomeStatus(result, message, duration)
      case None => s
      case Some(status) =>
        s.(statuses := s.statuses[p := status], output := s.output + Note(p, result, message))
  }

  /** The "data" handler applied to one stream item at time `now`. */
  function Step(cfg: RunConfig, s: RunState, data: Data, now: int): RunState {
    var s' := s.(transcript := s.transcript + Stringify(data));
    match data
    case Text(text) => s'.(output := s'.output + [OutputLine(Some([]), text)])
    case Value(e, _) =>
      if e.eventType == Some("start_test") then
        if e.test.None? then s' else StartTest(cfg, s', e.test.value, now)
      else if e.eventType == Some("add_result") then
        if e.result.None? || e.test.None? then s'
        else AddResult(cfg, s', e.test.value, e.result.value, e.message, now)
      else s'
  }

  /** The handler applied to every line of stdout in order. */
  function Steps(cfg: RunConfig, s: RunState, lines: seq<Line>): RunState
    decreases |lines|
  {
    if lines == [] then s
    else
      var last := lines[|lines| - 1];
      Step(cfg, Steps(cfg, s, lines[..|lines| - 1]), DecodeLine(cfg.codec, last.text), last.time)
  }

  /** What reading stderr at exit appends: its text, or "null" when nothing is buffered. */
  function StderrText(stderr: Option<string>): string {
    match stderr
    case Some(t) => t
    case None => "null"
  }

  /** The fatal marker R prints when a script fails. */
  const FatalMarker := "Execution halted"

  /** How the run's promise settles on exit, given the complete transcript. */
  datatype Settled = Resolved(transcript: string) | Rejected(error: RunError)

  function ExitOutcome(rejection: Option<RunError>, transcript: string): (r: Settled)
    ensures r.Rejected? <==> rejection.Some? || Contains(transcript, FatalMarker)
    ensures r.Resolved? ==> r.transcript == transcript
    ensures rejection.None? && Contains(transcript, FatalMarker) ==> r == Rejected(ExecutionHalted(transcript))
    ensures rejection.Some? ==> r == Rejected(rejection.value)
  {
    if rejection.Some? then Rejected(rejection.value)
    else if Contains(transcript, FatalMarker) then Rejected(ExecutionHalted(transcript))
    else Resolved(transcript)
  }

  /** The correlator as the runner keeps it: the closure variables of the
      "data" and "exit" handlers and the run's per-item state. */
  class RunCorrelator {
    const config: RunConfig
    var transcript: string
    var startTimes: map<NodePath, int>
    var statuses: map<NodePath, Status>
    var output: seq<OutputLine>
    var rejection: Option<RunError>

    function State(): RunState
      reads this
    {
      RunState(transcript, startTimes, statuses, output, rejection)
    }

    constructor (config: RunConfig)
      ensures this.config == config && State() == Initial
    {
      this.config := config;
      transcript, startTimes, statuses, output, rejection := "", map[], map[], [], None;
    }

    /** Marks the item of `testName` as not found; only the first rejection counts. */
    method Reject(testName: string)
      modifies this
      ensures State() == NotFound(config, old(State()), testName)
    {
      if rejection == None {
        rejection := Some(TestNotFound(config.encodeNodeId(config.filePath, testName)));
      }
    }

    method Lookup(testName: string) returns (item: Option<NodePath>)
      ensures item == Resolve(config, testName)
    {
      if config.singleTest {
        item := Some([]);
      } else {
        item := FindTestRecursively(config.encodeNodeId(config.filePath, testName), config.target);
      }
    }

    /** The "data" handler. */
    method OnData(data: Data, now: int)
      modifies this
      ensures State() == Step(config, old(State()), data, now)
    {
      transcript := transcript + Stringify(data);
      if data.Text? {
        output := output + [OutputLine(Some([]), data.text)];
        return;
      }
      var e := data.event;
      if e.eventType == Some("start_test") {
        if e.test.Some? {
          var item := Lookup(e.test.value);
          if item.None? {
            Reject(e.test.value);
          } else {
            startTimes := startTimes[item.value := now];
            statuses := statuses[item.value := Started];
          }
        }
      } else if e.eventType == Some("add_result") {
        if e.result.Some? && e.test.Some? {
          var item := Lookup(e.test.value);
          if item.None? {
            Reject(e.test.value);
          } else {
            var p := item.value;
            var duration := if p in startTimes then Some(now - startTimes[p]) else None;
            var result, message := e.result.value, e.message;
            var status := OutcomeStatus(result, message, duration);
            if status.Some? {
              statuses := statuses[p := status.value];
              if result in {"success", "warning", "skip"} && message.Some? && message.value != "" {
                output := output + [OutputLine(Some(p), message.value)];
              }
            }
          }
        }
      }
    }

    /** The "exit" handler: appends what stderr holds, then settles the run. */
    method OnExit(stderr: Option<string>) returns (settled: Settled)
      modifies this
      ensures State() == old(State()).(transcript := old(transcript) + StderrText(stderr))
      ensures settled == ExitOutcome(rejection, transcript)
    {
      transcript := transcript + StderrText(stderr);
      settled := ExitOutcome(rejection, transcript);
    }
  }

  // Properties of a whole run of lines.

  /** Once rejected, a run stays rejected with the same reason. */
  lemma {:induction false} RejectionIsSticky(cfg: RunConfig, s: RunState, lines: seq<Line>)
    requires s.rejection.Some?
    ensures Steps(cfg, s, lines).rejection == s.rejection
    decreases |lines|
  {
    if lines != [] {
      RejectionIsSticky(cfg, s, lines[..|lines| - 1]);
    }
  }

  /** The stream can reject a run only for a test it cannot find. */
  lemma {:induction false} OnlyMissingTestsReject(cfg: RunConfig, lines: seq<Line>)
    ensures Steps(cfg, Initial, lines).rejection.Some? ==> Steps(cfg, Initial, lines).rejection.value.TestNotFound?
    decreases |lines|
  {
    if lines != [] {
      OnlyMissingTestsReject(cfg, lines[..|lines| - 1]);
    }
  }

  /** Every item a run touches is the target in single-test mode and a proper
      descendant of the target in file mode; a single-test run is never
      rejected for a missing item. */
  lemma {:induction false} TouchedItemsResolve(cfg: RunConfig, lines: seq<Line>)
    ensures var s := Steps(cfg, Initial, lines);
      forall p :: p in s.statuses || p in s.startTimes ==>
        if cfg.singleTest then p == [] else IsDescendant(cfg.target, p)
    ensures cfg.singleTest ==> Steps(cfg, Initial, lines).rejection.None?
    decreases |lines|
  {
    if lines != [] {
      var prefix := lines[..|lines| - 1];
      TouchedItemsResolve(cfg, prefix);
      var last := lines[|lines| - 1];
      var data := DecodeLine(cfg.codec, last.text);
      if !cfg.singleTest && data.Value? && data.event.test.Some? {
        FindIsFirstMatch(cfg.encodeNodeId(cfg.filePath, data.event.test.value), cfg.target);
      }
    }
  }

  /** In file mode, an event whose test name resolves to no descendant rejects the
      run (if it was not rejected already) with the encoded id it looked for. */
  lemma UnresolvedLabelRejects(cfg: RunConfig, s: RunState, e: TestResult, json: string, now: int)
    requires !cfg.singleTest && e.test.Some? && s.rejection.None?
    requires e.eventType == Some("start_test") || (e.eventType == Some("add_result") && e.result.Some?)
    requires forall q :: IsDescendant(cfg.target, q) ==>
      NodeAt(cfg.target, q).id != cfg.encodeNodeId(cfg.filePath, e.test.value)
    ensures Step(cfg, s, Value(e, json), now).rejection ==
      Some(TestNotFound(cfg.encodeNodeId(cfg.filePath, e.test.value)))
    ensures Step(cfg, s, Value(e, json), now).statuses == s.statuses
  {
    FindIsFirstMatch(cfg.encodeNodeId(cfg.filePath, e.test.value), cfg.target);
  }

  /** A "start_test" whose test name resolves records the current time for that
      item and marks it started; nothing else changes but the transcript. */
  lemma ResolvedStartRecordsTime(cfg: RunConfig, s: RunState, e: TestResult, json: string, now: int)
    requires e.eventType == Some("start_test") && e.test.Some?
    requires Resolve(cfg, e.test.value).Some?
    ensures var p := Resolve(cfg, e.test.value).value;
      Step(cfg, s, Value(e, json), now) ==
        s.(transcript := s.transcript + json,
           startTimes := s.startTimes[p := now],
           statuses := s.statuses[p := Started])
  {
  }

  /** A "start_test" without a test name, an "add_result" without a test name or
      a result, and a value of any other type only add to the transcript. */
  lemma IncompleteEventsOnlyTranscribe(cfg: RunConfig, s: RunState, e: TestResult, json: string, now: int)
    requires
      || (e.eventType == Some("start_test") && e.test.None?)
      || (e.eventType == Some("add_result") && (e.test.None? || e.result.None?))
      || (e.eventType != Some("start_test") && e.eventType != Some("add_result"))
    ensures Step(cfg, s, Value(e, json), now) == s.(transcript := s.transcript + json)
  {
  }

  /** Steps over one more line is one more Step. */
  lemma StepsExtend(cfg: RunConfig, s: RunState, lines: seq<Line>, i: nat)
    requires i < |lines|
    ensures Steps(cfg, s, lines[..i + 1]) ==
      Step(cfg, Steps(cfg, s, lines[..i]), DecodeLine(cfg.codec, lines[i].text), lines[i].time)
  {
    assert lines[..i + 1][..i] == lines[..i];
  }

  /** A text item goes to the target item's output and nowhere else. */
  lemma TextOnlyEchoes(cfg: RunConfig, s: RunState, text: string, now: int)
    ensures Step(cfg, s, Text(text), now) ==
      s.(transcript := s.transcript + QuoteJson(text), output := s.output + [OutputLine(Some([]), text)])
  {
  }

  /** `s` is what echoing `lines` as text leaves: each line plus "\r\n" on the
      target item's output, in order, and no item state, start time or rejection. */
  predicate OnlyEchoed(s: RunState, lines: seq<Line>) {
    s.statuses == map[] && s.startTimes == map[] && s.rejection.None? && |s.output| == |lines| &&
    forall i :: 0 <= i < |lines| ==> s.output[i] == OutputLine(Some([]), lines[i].text + "\r\n")
  }

  lemma EchoOneMore(before: RunState, after: RunState, lines: seq<Line>)
    requires |lines| > 0 && OnlyEchoed(before, lines[..|lines| - 1])
    requires after == before.(transcript := after.transcript,
                              output := before.output + [OutputLine(Some([]), lines[|lines| - 1].text + "\r\n")])
    ensures OnlyEchoed(after, lines)
  {
    var prefix := lines[..|lines| - 1];
    forall i | 0 <= i < |lines|
      ensures after.output[i] == OutputLine(Some([]), lines[i].text + "\r\n")
    {
      if i < |prefix| {
        assert prefix[i] == lines[i];
      }
    }
  }

  /** Lines that do not parse only echo: each becomes its text plus "\r\n" on the
      target item's output, in order, and no item's state changes. */
  lemma {:induction false} UnparsedLinesOnlyEcho(cfg: RunConfig, lines: seq<Line>)
    requires forall i :: 0 <= i < |lines| ==> cfg.codec.parseJson(lines[i].text).None?
    ensures OnlyEchoed(Steps(cfg, Initial, lines), lines)
    decreases |lines|
  {
    if lines != [] {
      var n := |lines| - 1;
      var last := lines[n];
      UnparsedLinesOnlyEcho(cfg, lines[..n]);
      assert cfg.codec.parseJson(last.text).None?;
      var before := Steps(cfg, Initial, lines[..n]);
      StepsExtend(cfg, Initial, lines, n);
      assert lines[..n + 1] == lines;
      TextOnlyEchoes(cfg, before, last.text + "\r\n", last.time);
      EchoOneMore(before, Steps(cfg, Initial, lines), lines);
    }
  }

  /** The outcome table at work: an "add_result" for a resolved item sets the
      state the table gives; passed and skipped items also get a non-empty
      message as output; start times and the rejection stay as they were; a
      result outside the table changes nothing but the transcript. */
  lemma AddResultFollowsTable(cfg: RunConfig, s: RunState, e: TestResult, json: string, now: int)
    requires e.eventType == Some("add_result") && e.test.Some? && e.result.Some?
    requires Resolve(cfg, e.test.value).Some?
    ensures var p := Resolve(cfg, e.test.value).value;
      var s' := Step(cfg, s, Value(e, json), now);
      var duration := if p in s.startTimes then Some(now - s.startTimes[p]) else None;
      var r := e.result.value;
      var noted := e.message.Some? && e.message.value != "";
      s'.transcript == s.transcript + json && s'.startTimes == s.startTimes && s'.rejection == s.rejection &&
      (r == "success" || r == "warning" ==> s'.statuses == s.statuses[p := Passed(duration)]) &&
      (r == "failure" ==> s'.statuses == s.statuses[p := Failed(e.message, duration)]) &&
      (r == "error" ==> s'.statuses == s.statuses[p := Errored(e.message, duration)]) &&
      (r == "skip" ==> s'.statuses == s.statuses[p := Skipped]) &&
      (r in {"success", "warning", "skip"} && noted ==>
        s'.output == s.output + [OutputLine(Some(p), e.message.value)]) &&
      (r in {"success", "warning", "skip"} && !noted ==> s'.output == s.output) &&
      (r in {"failure", "error"} ==> s'.output == s.output) &&
      (r !in KnownResults ==> s' == s.(transcript := s.transcript + json))
  {
  }

  /** A reporter "start_test" then "add_result" with result "success" for the
      same test name marks the item passed, with the time between the two lines. */
  lemma StartThenSuccessPasses(cfg: RunConfig, testName: string, l0: Line, l1: Line, j0: string, j1: string)
    requires Resolve(cfg, testName).Some?
    requires cfg.codec.parseJson(l0.text) == Some(Value(TestResult(Some("start_test"), Some(testName), None, None), j0))
    requires cfg.codec.parseJson(l1.text) == Some(Value(TestResult(Some("add_result"), Some(testName), Some("success"), None), j1))
    ensures var p := Resolve(cfg, testName).value;
      Steps(cfg, Initial, [l0, l1]).statuses == map[p := Passed(Some(l1.time - l0.time))]
  {
    var p := Resolve(cfg, testName).value;
    assert [l0, l1][..1] == [l0] && [l0][..0] == [];
    var s0 := Steps(cfg, Initial, [l0]);
    assert Steps(cfg, Initial, [l0][..0]) == Initial;
    assert s0 == Step(cfg, Initial, DecodeLine(cfg.codec, l0.text), l0.time);
    assert s0.startTimes == map[p := l0.time] && s0.statuses == map[p := Started];
    assert Steps(cfg, Initial, [l0, l1]) == Step(cfg, s0, DecodeLine(cfg.codec, l1.text), l1.time);
  }

  /** The transcript of a run: JSON.stringify of every decoded stdout line, in order. */
  function Transcript(codec: Codec, lines: seq<Line>): string
    decreases |lines|
  {
    if lines == [] then ""
    else Transcript(codec, lines[..|lines| - 1]) + Stringify(DecodeLine(codec, lines[|lines| - 1].text))
  }

  /** Every stream item is added to the transcript, in order, whatever else the
      handler does with it. */
  lemma {:induction false} TranscriptIsConcatenation(cfg: RunConfig, s: RunState, lines: seq<Line>)
    ensures Steps(cfg, s, lines).transcript == s.transcript + Transcript(cfg.codec, lines)
    decreases |lines|
  {
    if lines == [] {
      assert s.transcript + "" == s.transcript;
    } else {
      TranscriptIsConcatenation(cfg, s, lines[..|lines| - 1]);
    }
  }

  /** Text containing the fatal marker in any unparsed line puts the marker in
      the transcript, because quoting keeps it intact. */
  lemma {:induction false} MarkerInUnparsedLineReachesTranscript(codec: Codec, lines: seq<Line>, i: nat)
    requires i < |lines|
    requires codec.parseJson(lines[i].text).None? && Contains(lines[i].text, FatalMarker)
    ensures Contains(Transcript(codec, lines), FatalMarker)
    decreases |lines|
  {
    var prefix := lines[..|lines| - 1];
    var last := lines[|lines| - 1];
    var data := DecodeLine(codec, last.text);
    var before := Transcript(codec, prefix);
    if i == |lines| - 1 {
      ContainsInPrefix(last.text, "\r\n", FatalMarker);
      QuoteKeepsPlainText(last.text + "\r\n", FatalMarker);
      ContainsInSuffix(before, Stringify(data), FatalMarker);
    } else {
      assert prefix[i] == lines[i];
      MarkerInUnparsedLineReachesTranscript(codec, prefix, i);
      ContainsInPrefix(before, Stringify(data), FatalMarker);
    }
  }
}
