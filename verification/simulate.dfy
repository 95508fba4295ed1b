// The runner's loops, proved against the single-pass account of a run.
module Simulate {
  import opened Collections
  import opened Order
  import opened Domain
  import opened Validation
  import opened Kernel
  import opened Events
  import opened Timeline
  import opened Execution
  import opened Lifecycle
  import opened Economics
  import opened Runner
  import opened Replay

  // ----- configured features -----

  function WindowKey(): int -> Key {
    (w: int) => [Num(w)]
  }

  function ConfiguredAt(configs: seq<MeanReversionConfig>, window: int): FeatureSnapshot -> bool {
    (f: FeatureSnapshot) => exists c :: c in configs && c.window == window && c.instrument == f.instrument
  }

  // The distinct windows, in order of first appearance.
  function Windows(configs: seq<MeanReversionConfig>): seq<int> {
    if configs == [] then []
    else if Last(configs).window in Windows(Front(configs)) then Windows(Front(configs))
    else Windows(Front(configs)) + [Last(configs).window]
  }

  lemma {:induction false} WindowsCover(configs: seq<MeanReversionConfig>)
    ensures Distinct(Windows(configs))
    ensures forall c :: c in configs ==> c.window in Windows(configs)
    ensures forall w :: w in Windows(configs) ==> exists c :: c in configs && c.window == w
  {
    if configs != [] {
      WindowsCover(Front(configs));
      assert configs == Front(configs) + [Last(configs)];
      assert Last(configs) in configs;
    }
  }

  predicate AllPositive(windows: seq<int>) {
    forall i :: 0 <= i < |windows| ==> windows[i] > 0
  }

  // Snapshots gathered window by window.
  function WindowSnapshots(
    bars: seq<Bar>, configs: seq<MeanReversionConfig>, windows: seq<int>, dataset: string): seq<FeatureSnapshot>
    requires AllPositive(windows)
  {
    if windows == [] then []
    else
      WindowSnapshots(bars, configs, Front(windows), dataset)
      + Filter(ConfiguredAt(configs, Last(windows)), ZScores(bars, Last(windows), dataset))
  }

  ghost predicate DistinctInstruments(configs: seq<MeanReversionConfig>) {
    forall i, j :: 0 <= i < j < |configs| ==> configs[i].instrument != configs[j].instrument
  }

  lemma SameInstrumentSameConfig(configs: seq<MeanReversionConfig>, a: MeanReversionConfig, b: MeanReversionConfig)
    requires DistinctInstruments(configs) && a in configs && b in configs
    ensures a.instrument == b.instrument ==> a == b
  {
    var i :| 0 <= i < |configs| && configs[i] == a;
    var j :| 0 <= j < |configs| && configs[j] == b;
  }

  // Each instrument's part comes from its own window only.
  lemma {:induction false} WindowPart(
    bars: seq<Bar>, configs: seq<MeanReversionConfig>, windows: seq<int>, dataset: string, c: MeanReversionConfig)
    requires DistinctInstruments(configs) && c in configs && c.window > 0
    requires AllPositive(windows) && Distinct(windows)
    ensures Filter(SnapshotFor(c.instrument), WindowSnapshots(bars, configs, windows, dataset))
         == if c.window in windows then Filter(SnapshotFor(c.instrument), ZScores(bars, c.window, dataset)) else []
  {
    if windows != [] {
      assert windows == Front(windows) + [Last(windows)];
      var w := Last(windows);
      assert w !in Front(windows);
      WindowPart(bars, configs, Front(windows), dataset, c);
      var all := ZScores(bars, w, dataset);
      FilterAppend(SnapshotFor(c.instrument), WindowSnapshots(bars, configs, Front(windows), dataset),
                   Filter(ConfiguredAt(configs, w), all));
      OneWindow(configs, all, c, w);
    }
  }

  lemma OneWindow(configs: seq<MeanReversionConfig>, all: seq<FeatureSnapshot>, c: MeanReversionConfig, w: int)
    requires DistinctInstruments(configs) && c in configs
    ensures Filter(SnapshotFor(c.instrument), Filter(ConfiguredAt(configs, w), all))
         == if c.window == w then Filter(SnapshotFor(c.instrument), all) else []
  {
    var mine := Filter(ConfiguredAt(configs, w), all);
    if c.window == w {
      FilterFilter(SnapshotFor(c.instrument), ConfiguredAt(configs, w), SnapshotFor(c.instrument), all);
    } else {
      forall f | f in mine ensures f.instrument != c.instrument {
        var d :| d in configs && d.window == w && d.instrument == f.instrument;
        SameInstrumentSameConfig(configs, c, d);
      }
      FilterNone(SnapshotFor(c.instrument), mine);
    }
  }

  lemma {:induction false} ConfigPart(
    bars: seq<Bar>, configs: seq<MeanReversionConfig>, dataset: string, c: MeanReversionConfig)
    requires DistinctInstruments(configs) && forall d :: d in configs ==> d.window > 0
    requires c.window > 0
    ensures c in configs ==>
              (Filter(SnapshotFor(c.instrument), ConfigSnapshots(bars, configs, dataset))
               == Filter(SnapshotFor(c.instrument), ZScores(bars, c.window, dataset)))
    ensures !Configured(configs, c.instrument) ==>
              Filter(SnapshotFor(c.instrument), ConfigSnapshots(bars, configs, dataset)) == []
  {
    if configs != [] {
      var front, d := Front(configs), Last(configs);
      assert configs == front + [d];
      ConfigPart(bars, front, dataset, c);
      var all := ZScores(bars, d.window, dataset);
      FilterAppend(SnapshotFor(c.instrument), ConfigSnapshots(bars, front, dataset),
                   Filter(SnapshotFor(d.instrument), all));
      if d.instrument == c.instrument {
        FilterAll(SnapshotFor(c.instrument), Filter(SnapshotFor(d.instrument), all));
        assert !Configured(front, c.instrument);
        if c in configs {
          SameInstrumentSameConfig(configs, c, d);
        }
      } else {
        FilterNone(SnapshotFor(c.instrument), Filter(SnapshotFor(d.instrument), all));
      }
    }
  }

  // Gathering by window and gathering by configuration give the same snapshots.
  lemma SameSnapshots(bars: seq<Bar>, configs: seq<MeanReversionConfig>, windows: seq<int>, dataset: string)
    requires DistinctInstruments(configs) && forall c :: c in configs ==> c.window > 0 && c.window in windows
    requires AllPositive(windows) && Distinct(windows)
    ensures multiset(WindowSnapshots(bars, configs, windows, dataset))
         == multiset(ConfigSnapshots(bars, configs, dataset))
  {
    var a := WindowSnapshots(bars, configs, windows, dataset);
    var b := ConfigSnapshots(bars, configs, dataset);
    forall f: FeatureSnapshot ensures multiset(a)[f] == multiset(b)[f] {
      FilterCount(SnapshotFor(f.instrument), a, f);
      FilterCount(SnapshotFor(f.instrument), b, f);
      if Configured(configs, f.instrument) {
        var c := ConfigFor(configs, f.instrument);
        WindowPart(bars, configs, windows, dataset, c);
        ConfigPart(bars, configs, dataset, c);
      } else {
        if f in b {
          SnapshotsConfigured(bars, configs, dataset, f);
        }
        WindowConfigured(bars, configs, windows, dataset, f);
      }
    }
  }

  lemma {:induction false} WindowConfigured(
    bars: seq<Bar>, configs: seq<MeanReversionConfig>, windows: seq<int>, dataset: string, f: FeatureSnapshot)
    requires AllPositive(windows)
    ensures f in WindowSnapshots(bars, configs, windows, dataset) ==> Configured(configs, f.instrument)
  {
    if windows != [] {
      assert windows == Front(windows) + [Last(windows)];
      WindowConfigured(bars, configs, Front(windows), dataset, f);
    }
  }

  // The windows in use, each once.
  method CollectWindows(configs: seq<MeanReversionConfig>) returns (windows: seq<int>)
    ensures windows == Windows(configs)
  {
    windows := [];
    for i := 0 to |configs|
      invariant windows == Windows(configs[..i])
    {
      assert Front(configs[..i + 1]) == configs[..i];
      if configs[i].window !in windows {
        windows := windows + [configs[i].window];
      }
    }
    assert configs[..|configs|] == configs;
  }

  lemma FeatureKeyParts(f: FeatureSnapshot, g: FeatureSnapshot)
    requires FeatureKey()(f) == FeatureKey()(g)
    ensures f.instrument == g.instrument && f.observed == g.observed
  {
    assert FeatureKey()(f)[1] == FeatureKey()(g)[1] && FeatureKey()(f)[2] == FeatureKey()(g)[2];
  }

  method ConfiguredFeatures(input: SimulationInput) returns (features: seq<FeatureSnapshot>)
    requires Accepted(input)
    ensures features == Features(input)
  {
    var windows := CollectWindows(input.configs);
    WindowsCover(input.configs);
    var ordered := Sort(WindowKey(), windows);
    SortElements(WindowKey(), windows);
    DistinctPermute(windows, ordered);
    assert AllPositive(ordered) by {
      forall i | 0 <= i < |ordered| ensures ordered[i] > 0 {
        assert ordered[i] in ordered && ordered[i] in windows;
      }
    }
    var snapshots := GatherByWindow(input.bars, input.configs, input.metadata, ordered);
    SameSnapshots(input.bars, input.configs, ordered, input.metadata.dataset);
    FeaturesUnique(input);
    ConfigSnapshotsUnique(input.bars, input.metadata, input.configs);
    assert KeysIdentify(FeatureKey(), ConfigSnapshots(input.bars, input.configs, input.metadata.dataset)) by {
      forall f: FeatureSnapshot, g: FeatureSnapshot | FeatureKey()(f) == FeatureKey()(g)
        ensures f.instrument == g.instrument && f.observed == g.observed
      {
        FeatureKeyParts(f, g);
      }
    }
    SortPermutation(FeatureKey(), ConfigSnapshots(input.bars, input.configs, input.metadata.dataset), snapshots);
    features := Sort(FeatureKey(), snapshots);
  }

  lemma GatherOne(bars: seq<Bar>, configs: seq<MeanReversionConfig>, windows: seq<int>, i: nat, dataset: string)
    requires AllPositive(windows) && i < |windows|
    ensures WindowSnapshots(bars, configs, windows[..i + 1], dataset)
         == WindowSnapshots(bars, configs, windows[..i], dataset)
            + Filter(ConfiguredAt(configs, windows[i]), ZScores(bars, windows[i], dataset))
  {
    assert Front(windows[..i + 1]) == windows[..i];
  }

  method ConfiguredScores(
    bars: seq<Bar>, configs: seq<MeanReversionConfig>, metadata: Metadata, window: int)
    returns (snapshots: seq<FeatureSnapshot>)
    requires ValidBars(bars, metadata) && window > 0
    ensures snapshots == Filter(ConfiguredAt(configs, window), ZScores(bars, window, metadata.dataset))
  {
    var calculated := CalculateZScores(bars, metadata, window);
    snapshots := Filter(ConfiguredAt(configs, window), calculated.value);
  }

  method GatherByWindow(bars: seq<Bar>, configs: seq<MeanReversionConfig>, metadata: Metadata, windows: seq<int>)
    returns (snapshots: seq<FeatureSnapshot>)
    requires ValidBars(bars, metadata) && AllPositive(windows)
    ensures snapshots == WindowSnapshots(bars, configs, windows, metadata.dataset)
  {
    snapshots := [];
    for i := 0 to |windows|
      invariant snapshots == WindowSnapshots(bars, configs, windows[..i], metadata.dataset)
    {
      var calculated := ConfiguredScores(bars, configs, metadata, windows[i]);
      GatherOne(bars, configs, windows, i, metadata.dataset);
      snapshots := snapshots + calculated;
    }
    assert windows[..|windows|] == windows;
  }

  // ----- decision snapshots -----

  function InstantOf(f: FeatureSnapshot): (Instrument, int) {
    (f.instrument, f.available)
  }

  // The newest snapshot of every instrument and instant.
  function Latest(features: seq<FeatureSnapshot>): map<(Instrument, int), FeatureSnapshot> {
    if features == [] then map[]
    else
      var latest, f := Latest(Front(features)), Last(features);
      if InstantOf(f) in latest && f.observed <= latest[InstantOf(f)].observed then latest
      else latest[InstantOf(f) := f]
  }

  lemma {:induction false} LatestNewest(features: seq<FeatureSnapshot>, instant: (Instrument, int))
    ensures instant in Latest(features) <==> exists f :: f in features && InstantOf(f) == instant
    ensures instant in Latest(features) ==>
              && Latest(features)[instant] in features && InstantOf(Latest(features)[instant]) == instant
              && forall f :: f in features && InstantOf(f) == instant ==> f.observed <= Latest(features)[instant].observed
  {
    if features != [] {
      LatestNewest(Front(features), instant);
      assert features == Front(features) + [Last(features)];
      assert Last(features) in features;
    }
  }

  // Instants in order of first appearance.
  function Instants(features: seq<FeatureSnapshot>): seq<(Instrument, int)> {
    if features == [] then []
    else if InstantOf(Last(features)) in Latest(Front(features)) then Instants(Front(features))
    else Instants(Front(features)) + [InstantOf(Last(features))]
  }

  lemma {:induction false} InstantsOnce(features: seq<FeatureSnapshot>)
    ensures Distinct(Instants(features))
    ensures forall k :: k in Instants(features) <==> k in Latest(features)
  {
    if features != [] {
      InstantsOnce(Front(features));
    }
  }

  lemma LatestAreDecisions(features: seq<FeatureSnapshot>, chosen: seq<FeatureSnapshot>)
    requires Sorted(FeatureKey(), features) && Distinct(features) && OnePerObservation(features)
    requires |chosen| == |Instants(features)|
    requires forall i :: 0 <= i < |chosen| ==>
               Instants(features)[i] in Latest(features) && chosen[i] == Latest(features)[Instants(features)[i]]
    ensures Sort(FeatureKey(), chosen) == Decisions(features)
  {
    InstantsOnce(features);
    FilterDistinct(Newest(features), features);
    FilterSorted(FeatureKey(), Newest(features), features);
    forall i, j | 0 <= i < j < |chosen| ensures chosen[i] != chosen[j] {
      LatestNewest(features, Instants(features)[i]);
      LatestNewest(features, Instants(features)[j]);
    }
    forall f ensures f in chosen <==> f in Decisions(features) {
      ChosenIsNewest(features, chosen, f);
    }
    SameElementsSameMultiset(chosen, Decisions(features));
    assert KeysIdentify(FeatureKey(), chosen) by {
      forall f, g | f in chosen && g in chosen && FeatureKey()(f) == FeatureKey()(g) ensures f == g {
        assert FeatureKey()(f)[1] == FeatureKey()(g)[1] && FeatureKey()(f)[2] == FeatureKey()(g)[2];
        assert f in features && g in features;
      }
    }
    SortPermutation(FeatureKey(), chosen, Decisions(features));
    SortOfSorted(FeatureKey(), Decisions(features));
  }

  lemma ChosenIsNewest(features: seq<FeatureSnapshot>, chosen: seq<FeatureSnapshot>, f: FeatureSnapshot)
    requires OnePerObservation(features)
    requires |chosen| == |Instants(features)|
    requires forall i :: 0 <= i < |chosen| ==>
               Instants(features)[i] in Latest(features) && chosen[i] == Latest(features)[Instants(features)[i]]
    ensures f in chosen <==> f in Decisions(features)
  {
    InstantsOnce(features);
    LatestNewest(features, InstantOf(f));
    if f in chosen {
      var i :| 0 <= i < |chosen| && chosen[i] == f;
      LatestNewest(features, Instants(features)[i]);
      assert Newest(features)(f);
    }
    if f in Decisions(features) {
      var i :| 0 <= i < |chosen| && Instants(features)[i] == InstantOf(f);
      assert chosen[i] in features && chosen[i].observed == f.observed;
    }
  }

  method DecisionSnapshots(features: seq<FeatureSnapshot>) returns (decisions: seq<FeatureSnapshot>)
    requires Sorted(FeatureKey(), features) && Distinct(features) && OnePerObservation(features)
    ensures decisions == Decisions(features)
  {
    var latest: map<(Instrument, int), FeatureSnapshot> := map[];
    var instants := [];
    for i := 0 to |features|
      invariant latest == Latest(features[..i])
      invariant instants == Instants(features[..i])
    {
      assert Front(features[..i + 1]) == features[..i];
      var snapshot := features[i];
      var instant := InstantOf(snapshot);
      if instant !in latest {
        instants := instants + [instant];
        latest := latest[instant := snapshot];
      } else if snapshot.observed > latest[instant].observed {
        latest := latest[instant := snapshot];
      }
    }
    assert features[..|features|] == features;
    InstantsOnce(features);
    var chosen := seq(|instants|, i requires 0 <= i < |instants| => latest[instants[i]]);
    LatestAreDecisions(features, chosen);
    decisions := Sort(FeatureKey(), chosen);
  }
}
