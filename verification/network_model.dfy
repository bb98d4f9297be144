/**
 * The values the network service publishes: the connectivity status and the
 * speed-test outcome, with the ten-field progress snapshot carried by the
 * `Testing` variant.
 */
module NetworkModel {

  /** Last-known reachability; three payload-free variants. */
  datatype NetworkStatus = Connected | Disconnected | Unknown

  /** The progress of one speed-test run (the fields of the `Testing` data class). */
  datatype Snapshot = Snapshot(
    serverUrl: string,
    initialized: bool,
    uploadInProgress: bool,
    downloadInProgress: bool,
    uploadSpeed: int,
    downloadSpeed: int,
    onPingInProgress: bool,
    ping: int,
    jitter: int,
    finished: bool)

  /** Exactly one of a progress snapshot or a failure message. */
  datatype NetworkTestResult = Testing(snapshot: Snapshot) | Failure(error: string)

  /** `Testing()` with every constructor parameter left at its default. */
  const DefaultSnapshot: Snapshot :=
    Snapshot("", false, false, false, 0, 0, false, 0, 0, false)

  /** Names for the ten snapshot fields, so that a property can range over them. */
  datatype Field =
    | ServerUrl | Initialized | UploadInProgress | DownloadInProgress | UploadSpeed
    | DownloadSpeed | OnPingInProgress | Ping | Jitter | Finished

  /** The value of one field, whatever its Kotlin type. */
  datatype FieldValue = Text(text: string) | Flag(flag: bool) | Number(number: int)

  function Get(s: Snapshot, f: Field): FieldValue {
    match f
    case ServerUrl => Text(s.serverUrl)
    case Initialized => Flag(s.initialized)
    case UploadInProgress => Flag(s.uploadInProgress)
    case DownloadInProgress => Flag(s.downloadInProgress)
    case UploadSpeed => Number(s.uploadSpeed)
    case DownloadSpeed => Number(s.downloadSpeed)
    case OnPingInProgress => Flag(s.onPingInProgress)
    case Ping => Number(s.ping)
    case Jitter => Number(s.jitter)
    case Finished => Flag(s.finished)
  }

  /** The zero value of a field's type: "" for the string, false for flags, 0 for numbers. */
  function ZeroValue(f: Field): FieldValue {
    match f
    case ServerUrl => Text("")
    case UploadSpeed | DownloadSpeed | Ping | Jitter => Number(0)
    case _ => Flag(false)
  }

  /** The defaults of `Testing()` are the zero value of every field. */
  lemma DefaultSnapshotIsZero()
    ensures forall f :: Get(DefaultSnapshot, f) == ZeroValue(f)
  {
  }

  /** Two snapshots are equal exactly when all ten fields are. */
  lemma {:induction false} SnapshotExtensionality(a: Snapshot, b: Snapshot)
    ensures a == b <==> forall f :: Get(a, f) == Get(b, f)
  {
    if forall f :: Get(a, f) == Get(b, f) {
      assert Get(a, ServerUrl) == Get(b, ServerUrl);
      assert Get(a, Initialized) == Get(b, Initialized);
      assert Get(a, UploadInProgress) == Get(b, UploadInProgress);
      assert Get(a, DownloadInProgress) == Get(b, DownloadInProgress);
      assert Get(a, UploadSpeed) == Get(b, UploadSpeed);
      assert Get(a, DownloadSpeed) == Get(b, DownloadSpeed);
      assert Get(a, OnPingInProgress) == Get(b, OnPingInProgress);
      assert Get(a, Ping) == Get(b, Ping);
      assert Get(a, Jitter) == Get(b, Jitter);
      assert Get(a, Finished) == Get(b, Finished);
    }
  }

  /**
   * Data-class equality: `Testing` values are equal iff all ten fields are,
   * `Failure` values iff their messages are, and the two variants never meet.
   */
  lemma StructuralEquality(a: Snapshot, b: Snapshot, m: string, n: string)
    ensures Testing(a) == Testing(b) <==> forall f :: Get(a, f) == Get(b, f)
    ensures Failure(m) == Failure(n) <==> m == n
    ensures Testing(a) != Failure(m)
  {
    SnapshotExtensionality(a, b);
  }

  /** `NetworkStatus` has exactly three distinct variants. */
  lemma StatusVariants(st: NetworkStatus)
    ensures st == Connected || st == Disconnected || st == Unknown
    ensures Connected != Disconnected && Disconnected != Unknown && Connected != Unknown
  {
  }
}
