/**
 * What the speed-test listener promises: each callback writes a fixed set of
 * fields with values taken from the callback alone, failures leave the
 * snapshot untouched, a new test start forgets all history, and the
 * `initialized`/`finished` flags only rise within a run.
 */
module SpeedTestProperties {
  import opened Options
  import opened NetworkModel
  import opened SpeedTest
  import Distinct

  /**
   * The write table: the value callback `e` gives field `f`, or None when
   * `e` leaves `f` alone. No entry depends on the current snapshot.
   */
  function Write(e: SpeedTestEvent, f: Field): Option<FieldValue> {
    match e
    case TestStarted => Some(ZeroValue(f))
    case FindingBestServerStarted => if f == Initialized then Some(Flag(true)) else None
    case TestFinished(result) =>
      (match f
       case UploadInProgress | DownloadInProgress | OnPingInProgress => Some(Flag(false))
       case ServerUrl => Some(Text(ServerDomain(result)))
       case Finished => Some(Flag(true))
       case _ => None)
    case PingStarted => if f == OnPingInProgress then Some(Flag(true)) else None
    case PingFinished(p, j) =>
      (match f
       case OnPingInProgress => Some(Flag(false))
       case Ping => Some(Number(p))
       case Jitter => Some(Number(j))
       case _ => None)
    case DownloadTestStarted => if f == DownloadInProgress then Some(Flag(true)) else None
    case DownloadTestProgress(v) => if f == DownloadSpeed then Some(Number(v)) else None
    case DownloadTestFinished(v) =>
      (match f
       case DownloadInProgress => Some(Flag(false))
       case DownloadSpeed => Some(Number(v))
       case _ => None)
    case UploadTestStarted => if f == UploadInProgress then Some(Flag(true)) else None
    case UploadTestProgress(v) => if f == UploadSpeed then Some(Number(v)) else None
    case UploadTestFinished(v) =>
      (match f
       case UploadInProgress => Some(Flag(false))
       case UploadSpeed => Some(Number(v))
       case _ => None)
    case FetchServerFailed(_) => None
    case TestWarning(_) => None
    case TestFatalError(_) => None
    case TestInterrupted(_) => None
  }

  /** Every callback changes exactly the fields its row of the write table names, to the values it gives. */
  lemma StepMatchesWriteTable(s: Snapshot, e: SpeedTestEvent)
    ensures forall f :: Get(Step(s, e).state, f) == Write(e, f).GetOr(Get(s, f))
  {
  }

  /** A test start makes the all-default snapshot current and sends it, whatever came before. */
  lemma TestStartedResets(s: Snapshot)
    ensures Step(s, TestStarted).state == DefaultSnapshot
    ensures Step(s, TestStarted).emitted == Testing(DefaultSnapshot)
    ensures forall f :: Get(Step(s, TestStarted).state, f) == ZeroValue(f)
  {
  }

  /** A failure callback sends its message and leaves the current snapshot as it was. */
  lemma FailureKeepsSnapshot(s: Snapshot, e: SpeedTestEvent)
    requires IsFailureEvent(e)
    ensures Step(s, e) == Transition(s, Failure(FailureMessage(e)))
    ensures e.FetchServerFailed? ==> FailureMessage(e) == "Failed to fetch server"
    ensures e.TestWarning? ==> FailureMessage(e) == "Warning: " + Interpolate(e.message)
    ensures e.TestFatalError? ==> FailureMessage(e) == "Fatal error: " + Interpolate(e.message)
    ensures e.TestInterrupted? ==> FailureMessage(e) == "Test interrupted: " + Interpolate(e.message)
  {
  }

  /**
   * `initialized` and `finished` are cleared only by a test start;
   * `initialized` is raised only by the best-server search and `finished`
   * only by the end of the test.
   */
  lemma FlagsOnlyRise(s: Snapshot, e: SpeedTestEvent)
    ensures s.initialized && !Step(s, e).state.initialized ==> e == TestStarted
    ensures s.finished && !Step(s, e).state.finished ==> e == TestStarted
    ensures !s.initialized && Step(s, e).state.initialized ==> e == FindingBestServerStarted
    ensures !s.finished && Step(s, e).state.finished ==> e.TestFinished?
  {
  }

  /** Folding a concatenation is folding the second part from where the first left off. */
  lemma {:induction false} FoldAppend(s: Snapshot, a: seq<SpeedTestEvent>, b: seq<SpeedTestEvent>)
    ensures Fold(s, a + b)
         == Run(Fold(Fold(s, a).state, b).state, Fold(s, a).emitted + Fold(Fold(s, a).state, b).emitted)
    decreases |a|
  {
    if |a| > 0 {
      assert (a + b)[0] == a[0];
      assert (a + b)[1..] == a[1..] + b;
      FoldAppend(Step(s, a[0]).state, a[1..], b);
    } else {
      assert a + b == b;
    }
  }

  /** Callback i sends exactly one value: the one its step sends from the snapshot the earlier callbacks left. */
  lemma EmittedAt(s: Snapshot, events: seq<SpeedTestEvent>, i: int)
    requires 0 <= i < |events|
    ensures Fold(s, events).emitted[i] == Step(Fold(s, events[..i]).state, events[i]).emitted
    ensures Fold(s, events).emitted[i].Failure? <==> IsFailureEvent(events[i])
  {
    FoldAppend(s, events[..i], events[i..]);
    assert events[..i] + events[i..] == events;
  }

  /**
   * Reference definition of a field after a run: the value the last callback
   * that writes it gave, or its value at the start when none does.
   */
  function LastWrite(s: Snapshot, events: seq<SpeedTestEvent>, f: Field): FieldValue
    decreases |events|
  {
    if |events| == 0 then Get(s, f)
    else Write(events[|events| - 1], f).GetOr(LastWrite(s, events[..|events| - 1], f))
  }

  /** Last write wins, field by field, whatever order the callbacks arrive in. */
  lemma {:induction false} LastWriteWins(s: Snapshot, events: seq<SpeedTestEvent>, f: Field)
    ensures Get(Fold(s, events).state, f) == LastWrite(s, events, f)
    decreases |events|
  {
    if |events| > 0 {
      var init := events[..|events| - 1];
      var e := events[|events| - 1];
      LastWriteWins(s, init, f);
      FoldAppend(s, init, [e]);
      assert init + [e] == events;
      StepMatchesWriteTable(Fold(s, init).state, e);
    }
  }

  predicate NoRestart(events: seq<SpeedTestEvent>) {
    forall i :: 0 <= i < |events| ==> events[i] != TestStarted
  }

  /**
   * Within a run (no test start), `initialized` and `finished` never fall:
   * not in the final snapshot, and not between any two snapshots sent.
   */
  lemma {:induction false} FlagsMonotonicWithinRun(s: Snapshot, events: seq<SpeedTestEvent>)
    requires NoRestart(events)
    ensures s.initialized ==> Fold(s, events).state.initialized
    ensures s.finished ==> Fold(s, events).state.finished
    ensures forall i :: 0 <= i < |events| && Fold(s, events).emitted[i].Testing? ==>
              (s.initialized ==> Fold(s, events).emitted[i].snapshot.initialized)
              && (s.finished ==> Fold(s, events).emitted[i].snapshot.finished)
    ensures forall i, j ::
              (0 <= i < j < |events|
               && Fold(s, events).emitted[i].Testing? && Fold(s, events).emitted[j].Testing?) ==>
              (Fold(s, events).emitted[i].snapshot.initialized ==> Fold(s, events).emitted[j].snapshot.initialized)
              && (Fold(s, events).emitted[i].snapshot.finished ==> Fold(s, events).emitted[j].snapshot.finished)
    decreases |events|
  {
    if |events| > 0 {
      var t := Step(s, events[0]);
      assert events[0] != TestStarted;
      FlagsOnlyRise(s, events[0]);
      FlagsMonotonicWithinRun(t.state, events[1..]);
      var out := Fold(s, events).emitted;
      var rest := Fold(t.state, events[1..]).emitted;
      assert out == [t.emitted] + rest;
      forall i | 0 < i < |events|
        ensures out[i] == rest[i - 1]
      {
      }
    }
  }

  /**
   * After a test start, nothing of the earlier history survives: the rest of
   * the flow is what a fresh listener would send for the same callbacks.
   */
  lemma RestartForgetsHistory(s: Snapshot, history: seq<SpeedTestEvent>, run: seq<SpeedTestEvent>)
    ensures Fold(s, history + [TestStarted] + run).state == Fold(DefaultSnapshot, run).state
    ensures Fold(s, history + [TestStarted] + run).emitted
         == Fold(s, history).emitted + Emissions([TestStarted] + run)
  {
    FoldAppend(s, history + [TestStarted], run);
    FoldSnoc(s, history, TestStarted);
    FoldCons(DefaultSnapshot, TestStarted, run);
  }

  /** The callbacks with every failure callback removed. */
  function WithoutFailures(events: seq<SpeedTestEvent>): (r: seq<SpeedTestEvent>)
    ensures forall i :: 0 <= i < |r| ==> !IsFailureEvent(r[i])
    ensures Distinct.IsSubsequence(r, events)
    ensures forall e :: !IsFailureEvent(e) ==> multiset(r)[e] == multiset(events)[e]
    decreases |events|
  {
    if |events| == 0 then []
    else
      var rest := WithoutFailures(events[1..]);
      assert events == [events[0]] + events[1..];
      if IsFailureEvent(events[0]) then rest
      else
        assert ([events[0]] + rest)[1..] == rest;
        [events[0]] + rest
  }

  /** The snapshots among the sent values, in order. */
  function Snapshots(results: seq<NetworkTestResult>): seq<Snapshot>
    decreases |results|
  {
    if |results| == 0 then []
    else if results[0].Failure? then Snapshots(results[1..])
    else [results[0].snapshot] + Snapshots(results[1..])
  }

  /**
   * Failures are transparent to the snapshot: a run with its failure
   * callbacks removed ends in the same snapshot and sends the same snapshots.
   */
  lemma {:induction false} FailuresAreTransparent(s: Snapshot, events: seq<SpeedTestEvent>)
    ensures Fold(s, events).state == Fold(s, WithoutFailures(events)).state
    ensures Snapshots(Fold(s, events).emitted) == Snapshots(Fold(s, WithoutFailures(events)).emitted)
    decreases |events|
  {
    if |events| > 0 {
      var t := Step(s, events[0]);
      FailuresAreTransparent(t.state, events[1..]);
      var rest := Fold(t.state, events[1..]).emitted;
      assert ([t.emitted] + rest)[1..] == rest;
      if !IsFailureEvent(events[0]) {
        var kept := [events[0]] + WithoutFailures(events[1..]);
        assert kept[0] == events[0];
        assert kept[1..] == WithoutFailures(events[1..]);
        var keptRest := Fold(t.state, WithoutFailures(events[1..])).emitted;
        assert ([t.emitted] + keptRest)[1..] == keptRest;
      }
    }
  }

  /** The four kinds of failure the flow reports, and the text after the kind's prefix. */
  datatype FailureKind = ServerFetch | Warning | FatalError | Interrupted
  datatype FailureReport = FailureReport(kind: FailureKind, detail: string)

  function Report(e: SpeedTestEvent): FailureReport
    requires IsFailureEvent(e)
  {
    match e
    case FetchServerFailed(_) => FailureReport(ServerFetch, "")
    case TestWarning(m) => FailureReport(Warning, Interpolate(m))
    case TestFatalError(m) => FailureReport(FatalError, Interpolate(m))
    case TestInterrupted(m) => FailureReport(Interrupted, Interpolate(m))
  }

  /** Recovers the kind of a failure from its message prefix. */
  function ParseFailure(message: string): Option<FailureReport> {
    if message == FetchServerFailedText then Some(FailureReport(ServerFetch, ""))
    else if WarningPrefix <= message then Some(FailureReport(Warning, message[|WarningPrefix|..]))
    else if FatalErrorPrefix <= message then Some(FailureReport(FatalError, message[|FatalErrorPrefix|..]))
    else if InterruptedPrefix <= message then Some(FailureReport(Interrupted, message[|InterruptedPrefix|..]))
    else None
  }

  /** The failure messages are unambiguous: kind and detail can be read back from every one. */
  lemma FailureMessageRoundTrip(e: SpeedTestEvent)
    requires IsFailureEvent(e)
    ensures ParseFailure(FailureMessage(e)) == Some(Report(e))
  {
  }

  /** Folding one more callback applies its step to where the run left off. */
  lemma FoldSnoc(s: Snapshot, events: seq<SpeedTestEvent>, e: SpeedTestEvent)
    ensures Fold(s, events + [e]).state == Step(Fold(s, events).state, e).state
    ensures Fold(s, events + [e]).emitted == Fold(s, events).emitted + [Step(Fold(s, events).state, e).emitted]
  {
    FoldAppend(s, events, [e]);
  }

  /** Folding from the front: the first callback's step, then the rest. */
  lemma FoldCons(s: Snapshot, e: SpeedTestEvent, rest: seq<SpeedTestEvent>)
    ensures Fold(s, [e] + rest).state == Fold(Step(s, e).state, rest).state
    ensures Fold(s, [e] + rest).emitted == [Step(s, e).emitted] + Fold(Step(s, e).state, rest).emitted
  {
    assert ([e] + rest)[0] == e;
    assert ([e] + rest)[1..] == rest;
  }

  /** The callbacks of each stage of a test, in the order the SDK raises them. */
  const OpeningStage: seq<SpeedTestEvent> := [TestStarted, FindingBestServerStarted]

  function PingStage(ping: int, jitter: int): seq<SpeedTestEvent> {
    [PingStarted, PingFinished(ping, jitter)]
  }

  /** One download progress callback per reported value, in order. */
  function DownloadProgress(values: seq<int>): (r: seq<SpeedTestEvent>)
    ensures |r| == |values|
  {
    if |values| == 0 then []
    else DownloadProgress(values[..|values| - 1]) + [DownloadTestProgress(values[|values| - 1])]
  }

  /** One upload progress callback per reported value, in order. */
  function UploadProgress(values: seq<int>): (r: seq<SpeedTestEvent>)
    ensures |r| == |values|
  {
    if |values| == 0 then []
    else UploadProgress(values[..|values| - 1]) + [UploadTestProgress(values[|values| - 1])]
  }

  function DownloadStage(progress: seq<int>, speed: int): seq<SpeedTestEvent> {
    [DownloadTestStarted] + DownloadProgress(progress) + [DownloadTestFinished(speed)]
  }

  function UploadStage(progress: seq<int>, speed: int): seq<SpeedTestEvent> {
    [UploadTestStarted] + UploadProgress(progress) + [UploadTestFinished(speed)]
  }

  /** A run of download progress callbacks changes only the download speed, to the last value reported. */
  lemma {:induction false} DownloadProgressResult(s: Snapshot, values: seq<int>)
    ensures Fold(s, DownloadProgress(values)).state
         == if |values| == 0 then s else s.(downloadSpeed := values[|values| - 1])
  {
    if |values| > 0 {
      var init := values[..|values| - 1];
      DownloadProgressResult(s, init);
      FoldSnoc(s, DownloadProgress(init), DownloadTestProgress(values[|values| - 1]));
    }
  }

  /** A run of upload progress callbacks changes only the upload speed, to the last value reported. */
  lemma {:induction false} UploadProgressResult(s: Snapshot, values: seq<int>)
    ensures Fold(s, UploadProgress(values)).state
         == if |values| == 0 then s else s.(uploadSpeed := values[|values| - 1])
  {
    if |values| > 0 {
      var init := values[..|values| - 1];
      UploadProgressResult(s, init);
      FoldSnoc(s, UploadProgress(init), UploadTestProgress(values[|values| - 1]));
    }
  }

  /** A test start and the server search leave a fresh snapshot marked initialized. */
  lemma OpeningStageResult(s: Snapshot)
    ensures Fold(s, OpeningStage).state == DefaultSnapshot.(initialized := true)
  {
    FoldCons(s, TestStarted, [FindingBestServerStarted]);
    FoldCons(DefaultSnapshot, FindingBestServerStarted, []);
    assert [FindingBestServerStarted] + [] == [FindingBestServerStarted];
  }

  /** A completed ping stage is no longer in progress and holds the measured ping and jitter. */
  lemma PingStageResult(s: Snapshot, ping: int, jitter: int)
    ensures Fold(s, PingStage(ping, jitter)).state
         == s.(onPingInProgress := false, ping := ping, jitter := jitter)
  {
    FoldCons(s, PingStarted, [PingFinished(ping, jitter)]);
    FoldCons(s.(onPingInProgress := true), PingFinished(ping, jitter), []);
    assert [PingFinished(ping, jitter)] + [] == [PingFinished(ping, jitter)];
  }

  /**
   * A completed download stage keeps the final speed, whatever progress
   * values came before it.
   */
  lemma DownloadStageResult(s: Snapshot, progress: seq<int>, speed: int)
    ensures Fold(s, DownloadStage(progress, speed)).state
         == s.(downloadInProgress := false, downloadSpeed := speed)
  {
    var started := s.(downloadInProgress := true);
    FoldSnoc(s, [DownloadTestStarted] + DownloadProgress(progress), DownloadTestFinished(speed));
    FoldCons(s, DownloadTestStarted, DownloadProgress(progress));
    DownloadProgressResult(started, progress);
  }

  /**
   * A completed upload stage is no longer in progress and holds the final
   * speed, whatever progress values came before it.
   */
  lemma UploadStageResult(s: Snapshot, progress: seq<int>, speed: int)
    ensures Fold(s, UploadStage(progress, speed)).state
         == s.(uploadInProgress := false, uploadSpeed := speed)
  {
    var started := s.(uploadInProgress := true);
    FoldSnoc(s, [UploadTestStarted] + UploadProgress(progress), UploadTestFinished(speed));
    FoldCons(s, UploadTestStarted, UploadProgress(progress));
    UploadProgressResult(started, progress);
  }

  /**
   * Every callback of a successful test, in order: start, server search,
   * ping, download and upload (each with any number of progress reports),
   * then the finish.
   */
  function CompleteRun(ping: int, jitter: int, downloadProgress: seq<int>, download: int,
                       uploadProgress: seq<int>, upload: int,
                       result: Option<SpeedTestResult>): seq<SpeedTestEvent>
  {
    OpeningStage + PingStage(ping, jitter) + DownloadStage(downloadProgress, download)
    + UploadStage(uploadProgress, upload) + [TestFinished(result)]
  }

  /**
   * Whatever came before, a successful test sends one value per callback,
   * the last of which holds every final measurement, the server domain, no
   * stage in progress, and both `initialized` and `finished`.
   */
  lemma CompleteRunResult(s: Snapshot, ping: int, jitter: int, downloadProgress: seq<int>, download: int,
                          uploadProgress: seq<int>, upload: int, result: Option<SpeedTestResult>)
    ensures var run := CompleteRun(ping, jitter, downloadProgress, download, uploadProgress, upload, result);
            |Fold(s, run).emitted| == 9 + |downloadProgress| + |uploadProgress|
    ensures var run := CompleteRun(ping, jitter, downloadProgress, download, uploadProgress, upload, result);
            Fold(s, run).emitted[8 + |downloadProgress| + |uploadProgress|]
            == Testing(Snapshot(ServerDomain(result), true, false, false, upload, download, false, ping, jitter, true))
  {
    var a := OpeningStage;
    var b := a + PingStage(ping, jitter);
    var c := b + DownloadStage(downloadProgress, download);
    var d := c + UploadStage(uploadProgress, upload);
    OpeningStageResult(s);
    var sa := DefaultSnapshot.(initialized := true);
    FoldAppend(s, a, PingStage(ping, jitter));
    PingStageResult(sa, ping, jitter);
    var sb := sa.(onPingInProgress := false, ping := ping, jitter := jitter);
    FoldAppend(s, b, DownloadStage(downloadProgress, download));
    DownloadStageResult(sb, downloadProgress, download);
    var sc := sb.(downloadInProgress := false, downloadSpeed := download);
    FoldAppend(s, c, UploadStage(uploadProgress, upload));
    UploadStageResult(sc, uploadProgress, upload);
    FoldSnoc(s, d, TestFinished(result));
  }

  /**
   * The worked example: ping 20 ms with jitter 3, download 80 (after one
   * progress report of 50), upload 30 (with no progress report), server
   * "x.com".
   */
  lemma WorkedExample()
    ensures var out := Emissions(CompleteRun(20, 3, [50], 80, [], 30, Some(SpeedTestResult(Some(Server(Some("x.com")))))));
            |out| == 10
            && out[9] == Testing(Snapshot("x.com", true, false, false, 30, 80, false, 20, 3, true))
  {
    CompleteRunResult(DefaultSnapshot, 20, 3, [50], 80, [], 30, Some(SpeedTestResult(Some(Server(Some("x.com"))))));
  }
}
