// What every signal of a run rests on, in the bars' own closes.
module Proposals {
  import opened Collections
  import opened Order
  import opened Domain
  import opened Kernel
  import opened Statistics
  import opened Strategy
  import opened Lifecycle
  import opened Runner
  import opened Replay
  import opened Run
  import opened Fills

  // A configured snapshot is the kernel's over the trailing bars of some bar.
  ghost predicate ScoredAt(bars: seq<Bar>, window: nat, dataset: string, f: FeatureSnapshot, i: nat) {
    window > 0 && i < |bars| && f == Snapshot(Inputs(bars[..i + 1], window), window, dataset)
  }

  lemma ScoreOrigin(bars: seq<Bar>, window: nat, dataset: string, f: FeatureSnapshot) returns (i: nat)
    requires window > 0 && f in ZScores(bars, window, dataset)
    ensures ScoredAt(bars, window, dataset, f, i)
  {
    i :| 0 <= i < |bars| && ZScores(bars, window, dataset)[i] == f;
    ZScoresAt(bars, window, dataset, i);
  }

  lemma {:induction false} SnapshotConfig(
    bars: seq<Bar>, configs: seq<MeanReversionConfig>, dataset: string, f: FeatureSnapshot)
    returns (c: MeanReversionConfig)
    requires forall c :: c in configs ==> c.window > 0
    requires f in ConfigSnapshots(bars, configs, dataset)
    ensures c in configs && c.instrument == f.instrument && f in ZScores(bars, c.window, dataset)
  {
    var front, last := Front(configs), Last(configs);
    FrontAndLast(configs);
    forall d | d in front ensures d.window > 0 {
      assert d in configs;
    }
    if f in ConfigSnapshots(bars, front, dataset) {
      c := SnapshotConfig(bars, front, dataset, f);
    } else {
      c := last;
    }
  }

  // A decision's snapshot is that of its instrument's configuration.
  lemma DecisionOrigin(input: SimulationInput, k: nat) returns (c: MeanReversionConfig, i: nat)
    requires Accepted(input) && k < |RunDecisions(input)|
    ensures c in input.configs && c.instrument == RunDecisions(input)[k].instrument
    ensures c.window > 0 && ScoredAt(input.bars, c.window, input.metadata.dataset, RunDecisions(input)[k], i)
  {
    var f := RunDecisions(input)[k];
    var all := ConfigSnapshots(input.bars, input.configs, input.metadata.dataset);
    SortElements(FeatureKey(), all);
    assert f in RunDecisions(input) && f in Features(input) && f in all;
    c := SnapshotConfig(input.bars, input.configs, input.metadata.dataset, f);
    i := ScoreOrigin(input.bars, c.window, input.metadata.dataset, f);
  }

  // The last close lies as far from the mean as the threshold asks, counted in standard deviations.
  predicate Past(kind: SignalType, closes: seq<real>, entry: real, exit: real, root: real)
    requires closes != []
  {
    if kind == LongEntry then Last(closes) <= Mean(closes) + entry * root
    else Last(closes) >= Mean(closes) + exit * root
  }

  ghost predicate Beyond(kind: SignalType, closes: seq<real>, entry: real, exit: real)
    requires closes != []
  {
    Variance(closes) > 0.0
    && forall root :: RootOf(root, Variance(closes)) ==> Past(kind, closes, entry, exit, root)
  }

  lemma ScoreBeyond(z: SignedRoot, kind: SignalType, closes: seq<real>, entry: real, exit: real)
    requires closes != [] && Variance(closes) > 0.0
    requires var deviation := Last(closes) - Mean(closes);
             z.square * Variance(closes) == deviation * deviation && (z.negative <==> deviation < 0.0)
    requires if kind == LongEntry then z.AtMost(entry) else z.AtLeast(exit)
    ensures Beyond(kind, closes, entry, exit)
  {
    forall root | RootOf(root, Variance(closes)) ensures Past(kind, closes, entry, exit, root) {
      ScorePast(z, Last(closes) - Mean(closes), Variance(closes), root, if kind == LongEntry then entry else exit);
    }
  }

  lemma ProposedBeyond(
    inputs: seq<Bar>, window: nat, dataset: string, c: MeanReversionConfig, position: PositionState, now: int)
    requires inputs != [] && EvaluateMeanReversion(Snapshot(inputs, window, dataset), c, position, now).Some?
    ensures var s := EvaluateMeanReversion(Snapshot(inputs, window, dataset), c, position, now).value;
            |inputs| >= window && Beyond(s.kind, Closes(inputs), c.entryThreshold, c.exitThreshold)
  {
    ProposalEvidenced(Snapshot(inputs, window, dataset), c, position, now);
    ReadyScore(inputs, window, dataset);
    var s := EvaluateMeanReversion(Snapshot(inputs, window, dataset), c, position, now).value;
    ScoreBeyond(s.value, s.kind, Closes(inputs), c.entryThreshold, c.exitThreshold);
  }

  // What a signal rests on: a full window of its instrument's bars, the last one observed when the
  // signal says and not too old, all available in time, whose last close is past the configured
  // threshold.
  ghost predicate Founded(input: SimulationInput, s: Signal, c: MeanReversionConfig, i: nat) {
    && c in input.configs && c.instrument == s.instrument && c.window > 0 && i < |input.bars|
    && input.bars[i].instrument == s.instrument && input.bars[i].observed == s.featureObserved
    && var inputs := LastN(Filter(BarOf(s.instrument), input.bars[..i + 1]), c.window);
    && |inputs| == c.window && Last(inputs) == input.bars[i]
    && (forall b :: b in inputs ==> b.instrument == s.instrument && b.available <= s.decided)
    && s.decided - s.featureObserved <= c.maximumFeatureAge
    && Beyond(s.kind, Closes(inputs), c.entryThreshold, c.exitThreshold)
  }

  lemma InputsOf(bars: seq<Bar>, i: nat, window: nat)
    requires i < |bars| && window > 0
    ensures var inputs := Inputs(bars[..i + 1], window);
            && inputs == LastN(Filter(BarOf(bars[i].instrument), bars[..i + 1]), window)
            && Last(inputs) == bars[i] && |inputs| <= window
            && forall b :: b in inputs ==> b.instrument == bars[i].instrument
  {
    var mine := Filter(BarOf(bars[i].instrument), bars[..i + 1]);
    assert Last(bars[..i + 1]) == bars[i];
    forall b | b in LastN(mine, window) ensures b.instrument == bars[i].instrument {
      assert b in mine;
    }
  }

  lemma SnapshotFounds(
    input: SimulationInput, c: MeanReversionConfig, i: nat, position: PositionState, now: int, s: Signal)
    requires c in input.configs && c.window > 0 && i < |input.bars|
    requires var f := Snapshot(Inputs(input.bars[..i + 1], c.window), c.window, input.metadata.dataset);
             EvaluateMeanReversion(f, c, position, now) == Some(s)
    ensures Founded(input, s, c, i)
  {
    var inputs := Inputs(input.bars[..i + 1], c.window);
    InputsOf(input.bars, i, c.window);
    SnapshotExactly(inputs, c.window, input.metadata.dataset);
    ProposalEvidenced(Snapshot(inputs, c.window, input.metadata.dataset), c, position, now);
    ProposedBeyond(inputs, c.window, input.metadata.dataset, c, position, now);
  }

  lemma DecidedSignal(config: MeanReversionConfig, f: FeatureSnapshot, state: LifecycleState)
    returns (position: PositionState)
    requires Decide(config, f, state).signal.Some?
    ensures EvaluateMeanReversion(f, config, position, f.available) == Decide(config, f, state).signal
  {
    position := PositionOf(state).value;
  }

  // The proposal of one decision.
  lemma DecisionFounded(input: SimulationInput, k: nat) returns (c: MeanReversionConfig, i: nat)
    requires Accepted(input) && k < |RunEvaluations(input)| && RunEvaluations(input)[k].signal.Some?
    ensures Founded(input, RunEvaluations(input)[k].signal.value, c, i)
  {
    var ds := RunDecisions(input);
    c, i := DecisionOrigin(input, k);
    EvaluationAt(input, ds, k);
    var own := ConfigFor(input.configs, ds[k].instrument);
    SameConfig(input.configs, c, own);
    EvaluationFacts(input, ds, k);
    var position := DecidedSignal(own, ds[k], RunEvaluations(input)[k].state);
    SnapshotFounds(input, c, i, position, ds[k].available, RunEvaluations(input)[k].signal.value);
  }

  lemma SameConfig(configs: seq<MeanReversionConfig>, a: MeanReversionConfig, b: MeanReversionConfig)
    requires forall i, j :: 0 <= i < j < |configs| ==> configs[i].instrument != configs[j].instrument
    requires a in configs && b in configs && a.instrument == b.instrument
    ensures a == b
  {
    var i :| 0 <= i < |configs| && configs[i] == a;
    var j :| 0 <= j < |configs| && configs[j] == b;
  }

  // Every signal of a successful run is past its threshold, in the closes of bars it could know.
  lemma RunSignalsFounded(input: SimulationInput, s: Signal) returns (c: MeanReversionConfig, i: nat)
    requires input.Valid() && Succeeds(input) && s in Account(input).signals
    ensures Founded(input, s, c, i)
  {
    var k := SignalAt(RunEvaluations(input), s);
    c, i := DecisionFounded(input, k);
  }
}
