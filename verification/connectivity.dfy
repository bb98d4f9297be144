/**
 * The connectivity flow: each platform network callback becomes a status,
 * and the resulting stream passes through `distinctUntilChanged()`.
 */
module Connectivity {
  import opened Options
  import opened NetworkModel
  import Distinct

  /** The two network callbacks the service overrides. */
  datatype NetworkSignal = Available | Lost

  /** The status sent for one callback. */
  function OnSignal(signal: NetworkSignal): (st: NetworkStatus)
    ensures st != Unknown
    ensures st == Connected <==> signal == Available
    ensures st == Disconnected <==> signal == Lost
  {
    match signal
    case Available => Connected
    case Lost => Disconnected
  }

  /** The callback that produces a status, if any does. */
  function SignalFor(st: NetworkStatus): Option<NetworkSignal> {
    match st
    case Connected => Some(Available)
    case Disconnected => Some(Lost)
    case Unknown => None
  }

  /** `SignalFor` inverts `OnSignal`, and `Unknown` has no callback behind it. */
  lemma SignalRoundTrip(signal: NetworkSignal, st: NetworkStatus)
    ensures SignalFor(OnSignal(signal)) == Some(signal)
    ensures SignalFor(st).Some? ==> OnSignal(SignalFor(st).value) == st
    ensures SignalFor(st).None? <==> st == Unknown
  {
  }

  /** The values sent into the callback flow, one per callback, before deduplication. */
  function Relayed(signals: seq<NetworkSignal>): (statuses: seq<NetworkStatus>)
    ensures |statuses| == |signals|
    ensures forall i :: 0 <= i < |signals| ==> statuses[i] == OnSignal(signals[i])
    decreases |signals|
  {
    if |signals| == 0 then []
    else [OnSignal(signals[0])] + Relayed(signals[1..])
  }

  /** The `networkStatus` flow: the relayed statuses with consecutive repeats removed. */
  function StatusFlow(signals: seq<NetworkSignal>): (out: seq<NetworkStatus>)
    ensures forall i :: 0 <= i < |out| ==> out[i] != Unknown
    ensures Distinct.NoAdjacentDuplicates(out)
    ensures |out| <= |signals|
    ensures |out| == 0 <==> |signals| == 0
  {
    var raw := Relayed(signals);
    Distinct.SameValues(raw);
    assert forall i :: 0 <= i < |Distinct.DistinctUntilChanged(raw)| ==>
             Distinct.DistinctUntilChanged(raw)[i] in raw;
    Distinct.DistinctUntilChanged(raw)
  }

  function Flip(st: NetworkStatus): NetworkStatus {
    match st
    case Connected => Disconnected
    case Disconnected => Connected
    case Unknown => Unknown
  }

  /**
   * The status flow never says `Unknown`, never repeats itself, therefore
   * alternates between `Connected` and `Disconnected`; it starts with the
   * status of the first callback and ends with that of the last.
   */
  lemma StatusFlowProperties(signals: seq<NetworkSignal>)
    ensures forall i :: 0 < i < |StatusFlow(signals)| ==>
              StatusFlow(signals)[i] == Flip(StatusFlow(signals)[i - 1])
    ensures |signals| > 0 ==> StatusFlow(signals)[0] == OnSignal(signals[0])
    ensures |signals| > 0 ==>
              StatusFlow(signals)[|StatusFlow(signals)| - 1] == OnSignal(signals[|signals| - 1])
  {
    var raw := Relayed(signals);
    Distinct.SameValues(raw);
    if |signals| > 0 {
      Distinct.KeepsLast(raw);
    }
  }

  /** Each new callback changes the published status exactly when it differs from the previous callback. */
  lemma StatusFlowStep(signals: seq<NetworkSignal>, signal: NetworkSignal)
    ensures StatusFlow(signals + [signal])
         == StatusFlow(signals)
            + (if |signals| > 0 && signals[|signals| - 1] == signal then [] else [OnSignal(signal)])
  {
    var raw := Relayed(signals);
    assert Relayed(signals + [signal]) == raw + [OnSignal(signal)];
    Distinct.DistinctSnoc(None, raw, OnSignal(signal));
  }
}
