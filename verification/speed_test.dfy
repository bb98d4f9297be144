/**
 * The speed-test flow: the listener holds one current snapshot and, on each
 * callback of the speed-test SDK, either replaces it with an updated copy
 * and sends that copy, or sends a `Failure` and keeps the snapshot as it is.
 */
module SpeedTest {
  import opened Options
  import opened NetworkModel

  /** The server part of the SDK's test result; `Domain` may be null. */
  datatype Server = Server(domain: Option<string>)

  /** The SDK's test result; its server may be null. */
  datatype SpeedTestResult = SpeedTestResult(server: Option<Server>)

  /**
   * One SDK listener callback. Progress callbacks carry the `Int` argument
   * the listener stores; the finished callbacks carry their `Double`
   * argument already converted with `toInt()`.
   */
  datatype SpeedTestEvent =
    | TestStarted
    | FetchServerFailed(code: Option<int>)
    | FindingBestServerStarted
    | TestFinished(result: Option<SpeedTestResult>)
    | PingStarted
    | PingFinished(ping: int, jitter: int)
    | DownloadTestStarted
    | DownloadTestProgress(value: int)
    | DownloadTestFinished(speed: int)
    | UploadTestStarted
    | UploadTestProgress(value: int)
    | UploadTestFinished(speed: int)
    | TestWarning(message: Option<string>)
    | TestFatalError(message: Option<string>)
    | TestInterrupted(message: Option<string>)

  /** The callbacks that send a `Failure` instead of a snapshot. */
  predicate IsFailureEvent(e: SpeedTestEvent) {
    e.FetchServerFailed? || e.TestWarning? || e.TestFatalError? || e.TestInterrupted?
  }

  /** Kotlin string interpolation of a `String?`: null renders as "null". */
  function Interpolate(message: Option<string>): (text: string)
    ensures message.Some? ==> text == message.value
    ensures message.None? ==> text == "null"
  {
    message.GetOr("null")
  }

  /**
   * The server domain of a finished test, following the result, its server
   * and the server's domain, each of which may be missing; empty when any is.
   */
  function ServerDomain(result: Option<SpeedTestResult>): (domain: string)
    ensures result.None? || result.value.server.None? || result.value.server.value.domain.None?
            ==> domain == ""
    ensures result.Some? && result.value.server.Some? && result.value.server.value.domain.Some?
            ==> domain == result.value.server.value.domain.value
  {
    match result
    case None => ""
    case Some(r) =>
      match r.server
      case None => ""
      case Some(srv) => srv.domain.GetOr("")
  }

  const FetchServerFailedText: string := "Failed to fetch server"
  const WarningPrefix: string := "Warning: "
  const FatalErrorPrefix: string := "Fatal error: "
  const InterruptedPrefix: string := "Test interrupted: "

  /** The message of the `Failure` a failure callback sends. */
  function FailureMessage(e: SpeedTestEvent): (msg: string)
    requires IsFailureEvent(e)
    ensures e.FetchServerFailed? <==> msg == FetchServerFailedText
    ensures e.TestWarning? <==> WarningPrefix <= msg
    ensures e.TestFatalError? <==> FatalErrorPrefix <= msg
    ensures e.TestInterrupted? <==> InterruptedPrefix <= msg
    ensures e.TestWarning? ==> msg[|WarningPrefix|..] == Interpolate(e.message)
    ensures e.TestFatalError? ==> msg[|FatalErrorPrefix|..] == Interpolate(e.message)
    ensures e.TestInterrupted? ==> msg[|InterruptedPrefix|..] == Interpolate(e.message)
  {
    match e
    case FetchServerFailed(_) =>
      assert !(WarningPrefix <= FetchServerFailedText) by { assert FetchServerFailedText[0] != WarningPrefix[0]; }
      assert !(FatalErrorPrefix <= FetchServerFailedText) by { assert FetchServerFailedText[2] != FatalErrorPrefix[2]; }
      assert !(InterruptedPrefix <= FetchServerFailedText) by { assert FetchServerFailedText[0] != InterruptedPrefix[0]; }
      FetchServerFailedText
    case TestWarning(m) =>
      var msg := WarningPrefix + Interpolate(m);
      assert msg[0] == 'W';
      assert !(FatalErrorPrefix <= msg) by { assert msg[0] != FatalErrorPrefix[0]; }
      assert !(InterruptedPrefix <= msg) by { assert msg[0] != InterruptedPrefix[0]; }
      msg
    case TestFatalError(m) =>
      var msg := FatalErrorPrefix + Interpolate(m);
      assert msg[2] == 't';
      assert !(WarningPrefix <= msg) by { assert msg[0] != WarningPrefix[0]; }
      assert !(InterruptedPrefix <= msg) by { assert msg[0] != InterruptedPrefix[0]; }
      msg
    case TestInterrupted(m) =>
      var msg := InterruptedPrefix + Interpolate(m);
      assert msg[0] == 'T';
      assert !(WarningPrefix <= msg) by { assert msg[0] != WarningPrefix[0]; }
      assert !(FatalErrorPrefix <= msg) by { assert msg[0] != FatalErrorPrefix[0]; }
      msg
  }

  /** The listener's new current snapshot and the one value it sends. */
  datatype Transition = Transition(state: Snapshot, emitted: NetworkTestResult)

  /** Replace the current snapshot and send the new one. */
  function Emit(next: Snapshot): Transition {
    Transition(next, Testing(next))
  }

  /** One listener callback. */
  function Step(s: Snapshot, e: SpeedTestEvent): (t: Transition)
    ensures t.emitted.Failure? <==> IsFailureEvent(e)
    ensures t.emitted.Testing? ==> t.emitted.snapshot == t.state
    ensures t.emitted.Failure? ==> t.state == s
  {
    match e
    case TestStarted => Emit(DefaultSnapshot)
    case FindingBestServerStarted => Emit(s.(initialized := true))
    case TestFinished(result) =>
      Emit(s.(uploadInProgress := false, downloadInProgress := false, onPingInProgress := false,
              serverUrl := ServerDomain(result), finished := true))
    case PingStarted => Emit(s.(onPingInProgress := true))
    case PingFinished(p, j) => Emit(s.(onPingInProgress := false, ping := p, jitter := j))
    case DownloadTestStarted => Emit(s.(downloadInProgress := true))
    case DownloadTestProgress(v) => Emit(s.(downloadSpeed := v))
    case DownloadTestFinished(v) => Emit(s.(downloadInProgress := false, downloadSpeed := v))
    case UploadTestStarted => Emit(s.(uploadInProgress := true))
    case UploadTestProgress(v) => Emit(s.(uploadSpeed := v))
    case UploadTestFinished(v) => Emit(s.(uploadInProgress := false, uploadSpeed := v))
    case FetchServerFailed(_) => Transition(s, Failure(FailureMessage(e)))
    case TestWarning(_) => Transition(s, Failure(FailureMessage(e)))
    case TestFatalError(_) => Transition(s, Failure(FailureMessage(e)))
    case TestInterrupted(_) => Transition(s, Failure(FailureMessage(e)))
  }

  /** The listener's final snapshot and everything it sent. */
  datatype Run = Run(state: Snapshot, emitted: seq<NetworkTestResult>)

  /** A sequence of callbacks, in order, from snapshot `s`. */
  function Fold(s: Snapshot, events: seq<SpeedTestEvent>): (r: Run)
    ensures |r.emitted| == |events|
    decreases |events|
  {
    if |events| == 0 then Run(s, [])
    else
      var t := Step(s, events[0]);
      var rest := Fold(t.state, events[1..]);
      Run(rest.state, [t.emitted] + rest.emitted)
  }

  /** What the flow sends for a sequence of callbacks; the initial `Testing()` is held, not sent. */
  function Emissions(events: seq<SpeedTestEvent>): (out: seq<NetworkTestResult>)
    ensures |out| == |events|
    ensures |events| > 0 ==> out[0] == Step(DefaultSnapshot, events[0]).emitted
    ensures forall i :: 0 <= i < |events| ==> (out[i].Failure? <==> IsFailureEvent(events[i]))
  {
    FailuresSentWhereRaised(DefaultSnapshot, events);
    Fold(DefaultSnapshot, events).emitted
  }

  /** The value sent for a callback is a `Failure` exactly when the callback is a failure callback. */
  lemma {:induction false} FailuresSentWhereRaised(s: Snapshot, events: seq<SpeedTestEvent>)
    ensures forall i :: 0 <= i < |events| ==> (Fold(s, events).emitted[i].Failure? <==> IsFailureEvent(events[i]))
    decreases |events|
  {
    if |events| > 0 {
      var t := Step(s, events[0]);
      FailuresSentWhereRaised(t.state, events[1..]);
      var rest := Fold(t.state, events[1..]).emitted;
      assert Fold(s, events).emitted == [t.emitted] + rest;
      forall i | 0 < i < |events|
        ensures Fold(s, events).emitted[i] == rest[i - 1] && events[i] == events[1..][i - 1]
      {
      }
    }
  }
}
