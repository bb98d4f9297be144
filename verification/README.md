# Network status and speed-test event folding

A Dafny model of the event-folding core of an Android network speed-test
app. The service turns two callback-driven sources into two value streams:

- the **connectivity flow**: the platform's `onAvailable` / `onLost`
  network callbacks become `Connected` / `Disconnected` statuses, and the
  stream passes through `distinctUntilChanged()`;
- the **speed-test flow**: a listener on the speed-test SDK holds one current
  snapshot (`Testing`, ten fields) and, on each of fifteen callbacks, either
  replaces it with an updated copy and sends that copy, or sends a
  `Failure(message)` and keeps the snapshot.

Files:

- `options.dfy` — `Option`, for Kotlin's nullable types.
- `network_model.dfy` — `NetworkStatus`, `Snapshot`, `NetworkTestResult`,
  the default snapshot, and a field-by-field view of a snapshot (`Field`, `Get`).
- `distinct.dfy` — `distinctUntilChanged()` on sequences: the collector
  (`DistinctFrom`, remembering the last value passed on), a reference
  definition built from the back (`KeepChanges`), and their properties.
- `connectivity.dfy` — the network callback mapping and the status flow.
- `speed_test.dfy` — the SDK callbacks as a datatype, the listener as a pure
  `Step(snapshot, event)` returning the new snapshot and the one value sent,
  and `Fold` over a sequence of callbacks.
- `speed_test_properties.dfy` — the write table (which fields each callback
  sets, to which values), last-write-wins over a run, flag monotonicity,
  restart and failure behaviour, the failure-message encoding, and a complete
  successful test.

Notes on the behaviour of the code, which the model keeps as written:

- A failure callback (server fetch failed, warning, fatal error, interrupted)
  does not reset or abandon the current snapshot; the next snapshot callback
  continues from the fields as they were before the failure.
- Only the connectivity flow applies `distinctUntilChanged()`; the
  speed-test flow sends one value per callback, repeats included.
- The initial `Testing()` snapshot is held by the listener and not sent.
- Kotlin's `"Warning: $p0"` with a null `p0` renders `"Warning: null"`;
  failure messages are modelled with `Option<string>` and that rendering.
- `onTestFinished` reads `p0?.server?.Domain ?: ""`; the model keeps each
  of the three nullable links (result, server, domain).

## Model

| member | source | states |
|---|---|---|
| NetworkModel.StatusVariants | app/src/main/java/dev/xget/networktestapp/service/network/NetworkConnectionService.kt:10-16 | `NetworkStatus` has exactly three payload-free, pairwise distinct variants |
| NetworkModel.DefaultSnapshotIsZero | app/src/main/java/dev/xget/networktestapp/service/network/NetworkConnectionService.kt:19-30 | every field of `Testing()` is at its default: "" for the server URL, false for the five flags, 0 for the four numbers |
| NetworkModel.SnapshotExtensionality | app/src/main/java/dev/xget/networktestapp/service/network/NetworkConnectionService.kt:19-30 | two snapshots are equal exactly when all ten fields are equal |
| NetworkModel.StructuralEquality | app/src/main/java/dev/xget/networktestapp/service/network/NetworkConnectionService.kt:18-33 | two `Testing` values are equal iff all ten fields are; two `Failure` values iff their messages are; a `Testing` never equals a `Failure` |
| Connectivity.OnSignal | app/src/main/java/dev/xget/networktestapp/service/network/NetworkConnectionServiceImpl.kt:28-43 | `onAvailable` sends `Connected`, `onLost` sends `Disconnected`, in both directions; the callback never sends `Unknown` |
| Connectivity.SignalRoundTrip | app/src/main/java/dev/xget/networktestapp/service/network/NetworkConnectionServiceImpl.kt:28-43 | the callback mapping is invertible on its image, and `Unknown` is the one status no callback produces |
| Connectivity.Relayed | app/src/main/java/dev/xget/networktestapp/service/network/NetworkConnectionServiceImpl.kt:26-44 | one status is sent per network callback, in callback order |
| Connectivity.StatusFlow | app/src/main/java/dev/xget/networktestapp/service/network/NetworkConnectionServiceImpl.kt:26-61 | the published status stream never holds `Unknown`, never repeats a value, is no longer than the callback sequence, and is empty exactly when no callback came |
| Connectivity.StatusFlowProperties | app/src/main/java/dev/xget/networktestapp/service/network/NetworkConnectionServiceImpl.kt:26-60 | the status flow alternates between `Connected` and `Disconnected` (each value is the flip of the one before); it starts with the first callback's status and ends with the last one's |
| Connectivity.StatusFlowStep | app/src/main/java/dev/xget/networktestapp/service/network/NetworkConnectionServiceImpl.kt:26-60 | a new network callback changes the published stream exactly when it differs from the previous callback |
| Distinct.DistinctFrom | app/src/main/java/dev/xget/networktestapp/service/network/NetworkConnectionServiceImpl.kt:60 | the operator's output is no longer than its input, has no two equal neighbours, never starts with the value last passed on, and passes on the first input value when it differs from that value |
| Distinct.DistinctUntilChanged | app/src/main/java/dev/xget/networktestapp/service/network/NetworkConnectionServiceImpl.kt:60 | on a whole stream the output has no two equal neighbours, keeps the first input element, and is no longer than the input |
| Distinct.DistinctSnoc | app/src/main/java/dev/xget/networktestapp/service/network/NetworkConnectionServiceImpl.kt:60 | one more upstream value is emitted exactly when it differs from the latest upstream value |
| Distinct.DistinctMatchesKeepChanges | app/src/main/java/dev/xget/networktestapp/service/network/NetworkConnectionServiceImpl.kt:60 | the operator equals the reference definition "keep element i iff it is the first or differs from element i - 1" on every input |
| Distinct.DistinctKeepsLatest | app/src/main/java/dev/xget/networktestapp/service/network/NetworkConnectionServiceImpl.kt:60 | the last value passed on is the last value received (or the starting value when nothing was passed on) |
| Distinct.KeepsLast | app/src/main/java/dev/xget/networktestapp/service/network/NetworkConnectionServiceImpl.kt:60 | a non-empty stream's output is non-empty and ends with the input's last element |
| Distinct.DistinctFromIsSubsequence | app/src/main/java/dev/xget/networktestapp/service/network/NetworkConnectionServiceImpl.kt:60 | the collector's output is a subsequence of its input |
| Distinct.IsSubsequenceOfInput | app/src/main/java/dev/xget/networktestapp/service/network/NetworkConnectionServiceImpl.kt:60 | the output is the input with elements dropped, order kept |
| Distinct.DistinctFromElements | app/src/main/java/dev/xget/networktestapp/service/network/NetworkConnectionServiceImpl.kt:60 | the collector invents no value, and loses none except repeats of the value it last passed on |
| Distinct.SameValues | app/src/main/java/dev/xget/networktestapp/service/network/NetworkConnectionServiceImpl.kt:60 | the output holds exactly the values of the input |
| Distinct.DistinctFromFixesDistinct | app/src/main/java/dev/xget/networktestapp/service/network/NetworkConnectionServiceImpl.kt:60 | an input with no equal neighbours (and not starting with the last value passed on) goes through unchanged |
| Distinct.FixedPoints | app/src/main/java/dev/xget/networktestapp/service/network/NetworkConnectionServiceImpl.kt:60 | the operator leaves a stream unchanged exactly when it has no two equal neighbours |
| Distinct.Idempotent | app/src/main/java/dev/xget/networktestapp/service/network/NetworkConnectionServiceImpl.kt:60 | applying the operator twice equals applying it once |
| SpeedTest.Step | app/src/main/java/dev/xget/networktestapp/service/network/NetworkConnectionServiceImpl.kt:67-151 | a callback sends a `Failure` exactly when it is one of the four failure callbacks; a `Failure` leaves the current snapshot unchanged; a `Testing` value sent is the new current snapshot |
| SpeedTest.Interpolate | app/src/main/java/dev/xget/networktestapp/service/network/NetworkConnectionServiceImpl.kt:140-150 | a message the SDK passes is used as given; a null message is rendered as "null" |
| SpeedTest.ServerDomain | app/src/main/java/dev/xget/networktestapp/service/network/NetworkConnectionServiceImpl.kt:84-94 | the server URL set at the end of a test is the server's domain when the result, its server and the domain are all present, and "" when any of them is missing |
| SpeedTest.FailureMessage | app/src/main/java/dev/xget/networktestapp/service/network/NetworkConnectionServiceImpl.kt:73-150 | fetch-failed sends exactly "Failed to fetch server"; warning, fatal and interrupted send "Warning: ", "Fatal error: " and "Test interrupted: " followed by the rendered SDK message; each message starts with its own callback's prefix and no other |
| SpeedTest.Fold | app/src/main/java/dev/xget/networktestapp/service/network/NetworkConnectionServiceImpl.kt:64-159 | every callback sends exactly one value |
| SpeedTest.Emissions | app/src/main/java/dev/xget/networktestapp/service/network/NetworkConnectionServiceImpl.kt:64-71 | the flow sends one value per callback and nothing else: the initial `Testing()` is held, the first value sent is the first callback's step from it, and value i is a `Failure` exactly when callback i is a failure callback |
| SpeedTest.FailuresSentWhereRaised | app/src/main/java/dev/xget/networktestapp/service/network/NetworkConnectionServiceImpl.kt:67-151 | from any snapshot, the value sent for a callback is a `Failure` exactly when that callback is a failure callback |
| SpeedTestProperties.StepMatchesWriteTable | app/src/main/java/dev/xget/networktestapp/service/network/NetworkConnectionServiceImpl.kt:78-138 | each callback changes exactly the fields its row of the write table names, to values taken from the callback alone, and leaves every other field unchanged |
| SpeedTestProperties.TestStartedResets | app/src/main/java/dev/xget/networktestapp/service/network/NetworkConnectionServiceImpl.kt:68-71 | `onTestStarted` makes the all-default snapshot current and sends it, whatever the prior snapshot |
| SpeedTestProperties.FailureKeepsSnapshot | app/src/main/java/dev/xget/networktestapp/service/network/NetworkConnectionServiceImpl.kt:140-150 | the fetch-failed, warning, fatal and interrupted callbacks send "Failed to fetch server", "Warning: " + msg, "Fatal error: " + msg and "Test interrupted: " + msg, and leave the snapshot as it was |
| SpeedTestProperties.FlagsOnlyRise | app/src/main/java/dev/xget/networktestapp/service/network/NetworkConnectionServiceImpl.kt:68-92 | only `onTestStarted` clears `initialized` or `finished`; only the best-server search raises `initialized`, only the end of the test raises `finished` |
| SpeedTestProperties.FoldAppend | app/src/main/java/dev/xget/networktestapp/service/network/NetworkConnectionServiceImpl.kt:64-159 | processing two batches of callbacks in turn is processing their concatenation |
| SpeedTestProperties.FoldSnoc | app/src/main/java/dev/xget/networktestapp/service/network/NetworkConnectionServiceImpl.kt:64-159 | one more callback applies its step to the snapshot the earlier callbacks left and appends the value it sends |
| SpeedTestProperties.EmittedAt | app/src/main/java/dev/xget/networktestapp/service/network/NetworkConnectionServiceImpl.kt:67-151 | the i-th value sent is the i-th callback's step applied to the snapshot the earlier callbacks left, and it is a `Failure` exactly when that callback is a failure callback |
| SpeedTestProperties.LastWriteWins | app/src/main/java/dev/xget/networktestapp/service/network/NetworkConnectionServiceImpl.kt:78-138 | after any sequence of callbacks, in any order, each field holds the value of the last callback that writes it, or its starting value when none does |
| SpeedTestProperties.FlagsMonotonicWithinRun | app/src/main/java/dev/xget/networktestapp/service/network/NetworkConnectionServiceImpl.kt:78-94 | without a test start, `initialized` and `finished` never fall: not in the final snapshot and not between any two snapshots sent |
| SpeedTestProperties.RestartForgetsHistory | app/src/main/java/dev/xget/networktestapp/service/network/NetworkConnectionServiceImpl.kt:68-71 | after a test start the flow sends exactly what a fresh listener would send, whatever came before, including failures |
| SpeedTestProperties.WithoutFailures | app/src/main/java/dev/xget/networktestapp/service/network/NetworkConnectionServiceImpl.kt:140-150 | removing the failure callbacks keeps every snapshot callback, each as often as before, in its original order, and nothing else |
| SpeedTestProperties.FailuresAreTransparent | app/src/main/java/dev/xget/networktestapp/service/network/NetworkConnectionServiceImpl.kt:140-150 | failure callbacks are invisible to the snapshot: removing them changes neither the final snapshot nor the snapshots sent |
| SpeedTestProperties.FailureMessageRoundTrip | app/src/main/java/dev/xget/networktestapp/service/network/NetworkConnectionServiceImpl.kt:140-150 | the four failure messages are unambiguous: the failure kind and the interpolated detail can be read back from every message |
| SpeedTestProperties.OpeningStageResult | app/src/main/java/dev/xget/networktestapp/service/network/NetworkConnectionServiceImpl.kt:68-82 | a test start followed by the best-server search leaves the default snapshot marked initialized |
| SpeedTestProperties.PingStageResult | app/src/main/java/dev/xget/networktestapp/service/network/NetworkConnectionServiceImpl.kt:96-108 | a completed ping stage is no longer in progress and holds the measured ping and jitter |
| SpeedTestProperties.DownloadProgressResult | app/src/main/java/dev/xget/networktestapp/service/network/NetworkConnectionServiceImpl.kt:115-118 | a run of download progress callbacks changes nothing but the download speed, which ends as the last value reported (unchanged when there is none) |
| SpeedTestProperties.UploadProgressResult | app/src/main/java/dev/xget/networktestapp/service/network/NetworkConnectionServiceImpl.kt:130-133 | a run of upload progress callbacks changes nothing but the upload speed, which ends as the last value reported (unchanged when there is none) |
| SpeedTestProperties.DownloadStageResult | app/src/main/java/dev/xget/networktestapp/service/network/NetworkConnectionServiceImpl.kt:110-123 | a completed download stage, with any number of progress reports, is no longer in progress and holds the final speed, not a progress value |
| SpeedTestProperties.UploadStageResult | app/src/main/java/dev/xget/networktestapp/service/network/NetworkConnectionServiceImpl.kt:125-138 | a completed upload stage, with any number of progress reports, is no longer in progress and holds the final speed, not a progress value |
| SpeedTestProperties.CompleteRunResult | app/src/main/java/dev/xget/networktestapp/service/network/NetworkConnectionServiceImpl.kt:68-138 | from any prior snapshot, a successful test with any number of download and upload progress reports sends one value per callback (nine plus the progress reports), the last holding the server domain, initialized and finished set, no stage in progress, and every final measurement |
| SpeedTestProperties.WorkedExample | app/src/main/java/dev/xget/networktestapp/service/network/NetworkConnectionServiceImpl.kt:68-138 | ping 20/3, download 50 then 80, upload 30 with no progress report, server "x.com" ends in `Testing("x.com", initialized, nothing in progress, upload 30, download 80, ping 20, jitter 3, finished)` |

## Left out

- Platform registration: registering and unregistering the connectivity callback, building the network request (internet capability over Wi-Fi or cellular) and the unused capabilities lookup are platform calls; the model starts from the callbacks themselves.
- SDK calls: setting the speed-test listener and `startSpeedTest()` are calls into the speed-test SDK; a test start appears in the model as the `TestStarted` callback it leads to.
- Coroutine machinery: `callbackFlow`, `trySend` buffering, `awaitClose`, `flowOn`, and the `stateIn` sharing in the activity (replay to late subscribers, the five-second grace window, the initial values it shows) are concurrency and lifecycle; the model treats each flow as the finite sequence of values it sends. `Distinct.KeepsLast` states the part of replay that concerns values: the latest value of the status flow is the latest status relayed.
- Floating point: the `Double` arguments of the progress callbacks and the `toInt()` conversion of the finished callbacks' speeds; the finished callbacks carry the converted `Int`, the progress callbacks carry their `Int` argument, which the listener stores into the speed field as written (what the SDK passes in that argument is not part of this model).
- Integer width: Kotlin `Int` is 32-bit, but the listener only copies payloads into fields and does no arithmetic, so unbounded `int` loses nothing.
- The `Int?` argument of `onFetchServerFailed` is carried but unused, as in the code.
- Download and upload never being in progress together is an ordering promise of the SDK, not something the listener enforces; `SpeedTestProperties.LastWriteWins` states what the listener does for any order instead.
- Callback ordering: the model assumes the SDK delivers the listener callbacks one at a time, as a sequence; `currentState` (NetworkConnectionServiceImpl.kt:65) is read and rewritten without synchronisation, so interleaved callbacks from several threads could lose updates, and that is not modelled.
- Other connectivity callbacks: `onLosing`, `onUnavailable`, `onCapabilitiesChanged`, `onLinkPropertiesChanged` and `onBlockedStatusChanged` are not overridden and send nothing, which is why `NetworkSignal` has only `Available` and `Lost`.
- Logging and the UI screens.
