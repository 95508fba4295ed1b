// The z-score kernel over trailing same-instrument windows: features/kernel.py.
module Kernel {
  import opened Collections
  import opened Domain
  import opened Validation

  function BarOf(instrument: Instrument): Bar -> bool {
    (b: Bar) => b.instrument == instrument
  }

  function SnapshotFor(instrument: Instrument): FeatureSnapshot -> bool {
    (f: FeatureSnapshot) => f.instrument == instrument
  }

  function Sum(values: seq<real>): real {
    if values == [] then 0.0 else Sum(Front(values)) + Last(values)
  }

  function Mean(values: seq<real>): real
    requires values != []
  {
    Sum(values) / |values| as real
  }

  function Product(x: real, y: real): real { x * y }

  function Sq(x: real): real { Product(x, x) }

  function SquaredDeviation(mean: real): real -> real {
    (x: real) => Sq(x - mean)
  }

  // Population variance.
  function Variance(values: seq<real>): real
    requires values != []
  {
    Sum(Map(SquaredDeviation(Mean(values)), values)) / |values| as real
  }

  function Closes(bars: seq<Bar>): seq<real> {
    Map((b: Bar) => b.close, bars)
  }

  // The latest availability among the inputs of one feature.
  function Availability(inputs: seq<Bar>): (t: int)
    requires inputs != []
    ensures forall b :: b in inputs ==> b.available <= t
    ensures exists b :: b in inputs && b.available == t
  {
    if |inputs| == 1 then inputs[0].available
    else
      assert inputs == Front(inputs) + [Last(inputs)];
      var t := Availability(Front(inputs));
      if t < Last(inputs).available then Last(inputs).available else t
  }

  function ZValue(closes: seq<real>): Option<SignedRoot>
    requires closes != []
  {
    var deviation := Last(closes) - Mean(closes);
    if Variance(closes) == 0.0 then None
    else Some(SignedRoot(deviation < 0.0, Sq(deviation) / Variance(closes)))
  }

  // The snapshot of the last bar of its trailing inputs.
  function Snapshot(inputs: seq<Bar>, window: int, dataset: string): FeatureSnapshot
    requires inputs != []
  {
    var bar := Last(inputs);
    var value := if |inputs| < window then None else ZValue(Closes(inputs));
    FeatureSnapshot(
      bar.instrument, ZScore, FEATURE_VERSION, value, bar.observed, Availability(inputs), window,
      if |inputs| < window then WarmingUp else if value.None? then Unavailable else Ready,
      if |inputs| < window then Some(InsufficientHistory)
      else if value.None? then Some(ZeroVariance) else None,
      dataset)
  }

  // The inputs of the last bar: at most window bars of its instrument.
  function Inputs(bars: seq<Bar>, window: nat): (r: seq<Bar>)
    requires bars != [] && window > 0
    ensures r != [] && Last(r) == Last(bars)
  {
    assert bars == Front(bars) + [Last(bars)];
    LastN(Filter(BarOf(Last(bars).instrument), bars), window)
  }

  // One snapshot for every bar, in bar order.
  function ZScores(bars: seq<Bar>, window: nat, dataset: string): (r: seq<FeatureSnapshot>)
    requires window > 0
    ensures |r| == |bars|
  {
    if bars == [] then []
    else ZScores(Front(bars), window, dataset) + [Snapshot(Inputs(bars, window), window, dataset)]
  }

  function HistoryOf(histories: map<Instrument, seq<Bar>>, instrument: Instrument): seq<Bar> {
    if instrument in histories then histories[instrument] else []
  }

  // The per-instrument histories after a sequence of bars.
  function Histories(bars: seq<Bar>): map<Instrument, seq<Bar>> {
    if bars == [] then map[]
    else
      var earlier := Histories(Front(bars));
      earlier[Last(bars).instrument := HistoryOf(earlier, Last(bars).instrument) + [Last(bars)]]
  }

  lemma {:induction false} HistoriesFilter(bars: seq<Bar>, instrument: Instrument)
    ensures HistoryOf(Histories(bars), instrument) == Filter(BarOf(instrument), bars)
  {
    if bars != [] {
      HistoriesFilter(Front(bars), instrument);
    }
  }

  // The trailing inputs of every bar.
  method FeatureWindows(bars: seq<Bar>, window: nat) returns (windows: seq<seq<Bar>>)
    requires window > 0
    ensures |windows| == |bars|
    ensures forall i :: 0 <= i < |bars| ==> windows[i] == Inputs(bars[..i + 1], window)
  {
    var histories: map<Instrument, seq<Bar>> := map[];
    windows := [];
    for i := 0 to |bars|
      invariant |windows| == i
      invariant forall k :: 0 <= k < i ==> windows[k] == Inputs(bars[..k + 1], window)
      invariant histories == Histories(bars[..i])
    {
      var bar := bars[i];
      ghost var seen := bars[..i + 1];
      assert Front(seen) == bars[..i] && Last(seen) == bar;
      var history := HistoryOf(histories, bar.instrument) + [bar];
      histories := histories[bar.instrument := history];
      HistoriesFilter(seen, bar.instrument);
      windows := windows + [LastN(history, window)];
    }
  }

  method CalculateZScores(bars: seq<Bar>, metadata: Metadata, window: int)
    returns (r: Result<seq<FeatureSnapshot>>)
    ensures r.Ok? <==> window > 0 && ValidBars(bars, metadata)
    ensures r.Ok? ==> r.value == ZScores(bars, window, metadata.dataset)
  {
    if window <= 0 {
      return Err("window");
    }
    var report := ValidateBars(bars, metadata);
    if report.Err? {
      return Err(report.error);
    }
    var windows := FeatureWindows(bars, window);
    var snapshots := [];
    for i := 0 to |bars|
      invariant snapshots == ZScores(bars[..i], window, metadata.dataset)
    {
      assert Front(bars[..i + 1]) == bars[..i];
      snapshots := snapshots + [Snapshot(windows[i], window, metadata.dataset)];
    }
    assert bars[..|bars|] == bars;
    r := Ok(snapshots);
  }

  // ----- what the kernel keeps -----

  // A snapshot depends on no bar of another instrument.
  lemma {:induction false} ZScoresIsolated(bars: seq<Bar>, instrument: Instrument, window: nat, dataset: string)
    requires window > 0
    ensures Filter(SnapshotFor(instrument), ZScores(bars, window, dataset))
         == ZScores(Filter(BarOf(instrument), bars), window, dataset)
  {
    if bars != [] {
      var bar := Last(bars);
      ZScoresIsolated(Front(bars), instrument, window, dataset);
      FilterSnoc(SnapshotFor(instrument), ZScores(Front(bars), window, dataset),
                 Snapshot(Inputs(bars, window), window, dataset));
      if bar.instrument == instrument {
        var mine := Filter(BarOf(instrument), bars);
        assert Front(mine) == Filter(BarOf(instrument), Front(bars));
        FilterAll(BarOf(instrument), mine);
        assert Inputs(mine, window) == Inputs(bars, window);
      }
    }
  }

  // Later bars add snapshots; they never change earlier ones.
  lemma {:induction false} ZScoresAppend(bars: seq<Bar>, more: seq<Bar>, window: nat, dataset: string)
    requires window > 0
    ensures ZScores(bars, window, dataset) <= ZScores(bars + more, window, dataset)
    ensures forall i :: |bars| <= i < |bars + more| ==>
              && ZScores(bars + more, window, dataset)[i].observed == (bars + more)[i].observed
              && ZScores(bars + more, window, dataset)[i].available >= (bars + more)[i].available
  {
    if more == [] {
      assert bars + more == bars;
    } else {
      var all := bars + more;
      assert Front(all) == bars + Front(more);
      ZScoresAppend(bars, Front(more), window, dataset);
      forall i | |bars| <= i < |all|
        ensures ZScores(all, window, dataset)[i].observed == all[i].observed
        ensures ZScores(all, window, dataset)[i].available >= all[i].available
      {
        ZScoresAt(all, window, dataset, i);
      }
    }
  }

  lemma {:induction false} ZScoresAt(bars: seq<Bar>, window: nat, dataset: string, i: nat)
    requires window > 0 && i < |bars|
    ensures var f := ZScores(bars, window, dataset)[i];
            && f == Snapshot(Inputs(bars[..i + 1], window), window, dataset)
            && f.instrument == bars[i].instrument && f.observed == bars[i].observed
            && f.available >= bars[i].available && f.window == window
  {
    if i == |bars| - 1 {
      assert bars[..i + 1] == bars;
      assert Last(bars) in Inputs(bars, window);
    } else {
      ZScoresAt(Front(bars), window, dataset, i);
      assert Front(bars)[..i + 1] == bars[..i + 1];
    }
  }

  // The last window bars of one instrument determine its newest snapshot.
  lemma BoundedHistorySuffices(history: seq<Bar>, window: nat, dataset: string)
    requires window > 0 && history != []
    requires forall b :: b in history ==> b.instrument == Last(history).instrument
    ensures Last(ZScores(LastN(history, window), window, dataset)) == Last(ZScores(history, window, dataset))
  {
    var instrument := Last(history).instrument;
    var kept := LastN(history, window);
    FilterAll(BarOf(instrument), history);
    FilterAll(BarOf(instrument), kept);
    assert LastN(kept, window) == kept;
  }
}
