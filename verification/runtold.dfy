// What a run records, in its input's own bars, quotes and opportunities: simulation/runner.py.
module RunTold {
  import opened Collections
  import opened Order
  import opened Domain
  import opened Kernel
  import opened Strategy
  import opened Events
  import opened Timeline
  import opened Execution
  import opened Lifecycle
  import opened Economics
  import opened Runner
  import opened Replay
  import opened Run
  import Fills
  import Proposals

  // ----- decisions -----

  // The score is past the threshold of what the state allows.
  predicate Due(f: FeatureSnapshot, c: MeanReversionConfig, state: LifecycleState) {
    f.value.Some? && if state == Flat then f.value.value.AtMost(c.entryThreshold)
                     else state == Holding && f.value.value.AtLeast(c.exitThreshold)
  }

  // What is decided on a snapshot in a state: nothing unless it is ready, nothing while an action is
  // pending, and otherwise a proposal exactly when the score is due on evidence young enough.
  ghost predicate Decided(v: Evaluation, f: FeatureSnapshot, c: MeanReversionConfig) {
    && v.snapshot == f && v.decided == f.available
    && (v.signal.Some? <==> v.disposition == SignalProposed)
    && (v.signal.Some? ==> Carries(v.signal.value, f, c, f.available)
                           && v.signal.value.kind == if v.state == Flat then LongEntry else LongExit)
    && (if f.state != Ready then v.disposition == FeatureNotActionable && v.position == None
        else if v.state == PendingEntry || v.state == PendingExit then
          v.disposition == PendingLifecycle && v.position == None
        else
          && v.position == Some(if v.state == Flat then PositionFlat else PositionHolding)
          && v.disposition == if f.available - f.observed <= c.maximumFeatureAge && Due(f, c, v.state)
                              then SignalProposed else NoSignal)
  }

  lemma DecideExactly(c: MeanReversionConfig, f: FeatureSnapshot, state: LifecycleState)
    requires f.instrument == c.instrument && f.window == c.window
    requires f.name == ZScore && f.version == "shadow.features.v1"
    ensures Decided(Decide(c, f, state), f, c) && Decide(c, f, state).state == state
  {
  }

  // ----- features -----

  // The snapshot of a configured instrument's bar, over the trailing bars of that instrument.
  ghost predicate FeatureOf(input: SimulationInput, c: MeanReversionConfig, i: nat, f: FeatureSnapshot) {
    && c.window > 0 && i < |input.bars| && input.bars[i].instrument == c.instrument
    && var inputs := LastN(Filter(BarOf(c.instrument), input.bars[..i + 1]), c.window);
       inputs != [] && f == Snapshot(inputs, c.window, input.metadata.dataset)
  }

  lemma {:induction false} SnapshotGathered(
    bars: seq<Bar>, configs: seq<MeanReversionConfig>, dataset: string, c: MeanReversionConfig, f: FeatureSnapshot)
    requires (forall d :: d in configs ==> d.window > 0) && c in configs
    requires f in ZScores(bars, c.window, dataset) && f.instrument == c.instrument
    ensures f in ConfigSnapshots(bars, configs, dataset)
  {
    FrontAndLast(configs);
    forall d | d in Front(configs) ensures d.window > 0 {
      assert d in configs;
    }
    if c == Last(configs) {
      assert f in Filter(SnapshotFor(c.instrument), ZScores(bars, c.window, dataset));
    } else {
      SnapshotGathered(bars, Front(configs), dataset, c, f);
    }
  }

  lemma BarScored(input: SimulationInput, c: MeanReversionConfig, i: nat, f: FeatureSnapshot)
    requires FeatureOf(input, c, i, f)
    ensures f in ZScores(input.bars, c.window, input.metadata.dataset) && f.instrument == c.instrument
  {
    Proposals.InputsOf(input.bars, i, c.window);
    ZScoresAt(input.bars, c.window, input.metadata.dataset, i);
  }

  // The features of a run are those of each configured instrument's bars at its own window.
  lemma FeaturesExactly(input: SimulationInput, f: FeatureSnapshot)
    requires input.Valid()
    ensures f in Features(input) <==> exists c, i :: c in input.configs && FeatureOf(input, c, i, f)
  {
    var dataset := input.metadata.dataset;
    SortElements(FeatureKey(), ConfigSnapshots(input.bars, input.configs, dataset));
    if f in Features(input) {
      var c := Proposals.SnapshotConfig(input.bars, input.configs, dataset, f);
      var i := Proposals.ScoreOrigin(input.bars, c.window, dataset, f);
      Proposals.InputsOf(input.bars, i, c.window);
      assert FeatureOf(input, c, i, f);
    }
    if c, i :| c in input.configs && FeatureOf(input, c, i, f) {
      BarScored(input, c, i, f);
      SnapshotGathered(input.bars, input.configs, dataset, c, f);
    }
  }

  // ----- which snapshots are decided on -----

  // The other snapshot is of the same instrument and instant, and not of a later bar.
  predicate NoNewer(g: FeatureSnapshot, f: FeatureSnapshot) {
    g.instrument == f.instrument && g.available == f.available ==> g.observed <= f.observed
  }

  lemma {:induction false} NewestAmong(features: seq<FeatureSnapshot>, f: FeatureSnapshot)
    returns (newest: FeatureSnapshot)
    requires f in features
    ensures newest in features && newest.instrument == f.instrument && newest.available == f.available
    ensures forall g :: g in features ==> NoNewer(g, newest)
  {
    FrontAndLast(features);
    var last := Last(features);
    if f in Front(features) {
      newest := NewestAmong(Front(features), f);
      if !NoNewer(last, newest) {
        newest := last;
      }
    } else if x :| x in Front(features) && x.instrument == f.instrument && x.available == f.available {
      newest := NewestAmong(Front(features), x);
      if !NoNewer(last, newest) {
        newest := last;
      }
    } else {
      newest := f;
    }
  }

  lemma DecisionFor(features: seq<FeatureSnapshot>, f: FeatureSnapshot) returns (k: nat)
    requires f in features && OnePerInstant(Decisions(features))
    ensures var ds := Decisions(features);
            && k < |ds| && ds[k].instrument == f.instrument && ds[k].available == f.available
            && (forall j :: 0 <= j < |ds| && ds[j].instrument == f.instrument && ds[j].available == f.available ==> j == k)
  {
    var newest := NewestAmong(features, f);
    var ds := Decisions(features);
    assert newest in ds;
    k :| 0 <= k < |ds| && ds[k] == newest;
  }

  // The only decision on that instrument at that instant.
  ghost predicate OnlyDecision(vs: seq<Evaluation>, instrument: Instrument, time: int, k: nat) {
    && k < |vs| && vs[k].snapshot.instrument == instrument && vs[k].decided == time
    && forall j :: 0 <= j < |vs| && vs[j].snapshot.instrument == instrument && vs[j].decided == time ==> j == k
  }

  lemma EvaluatedFor(features: seq<FeatureSnapshot>, vs: seq<Evaluation>, f: FeatureSnapshot) returns (k: nat)
    requires f in features && OnePerInstant(Decisions(features)) && |vs| == |Decisions(features)|
    requires forall i :: 0 <= i < |vs| ==> Consistent(vs[i], Decisions(features)[i])
    ensures OnlyDecision(vs, f.instrument, f.available, k)
  {
    k := DecisionFor(features, f);
  }

  // One decision for every instrument and instant that has a snapshot.
  lemma DecidedOnce(input: SimulationInput, f: FeatureSnapshot) returns (k: nat)
    requires input.Valid() && Succeeds(input) && f in Account(input).features
    ensures OnlyDecision(Account(input).evaluations, f.instrument, f.available, k)
  {
    DecisionsUnique(input);
    AllConsistent(input, RunDecisions(input));
    k := EvaluatedFor(Features(input), RunEvaluations(input), f);
  }

  lemma FeatureConfig(input: SimulationInput, f: FeatureSnapshot) returns (c: MeanReversionConfig)
    requires input.Valid() && f in Features(input)
    ensures c in input.configs && f.instrument == c.instrument && f.window == c.window
    ensures f.name == ZScore && f.version == "shadow.features.v1"
  {
    FeaturesExactly(input, f);
    var i;
    c, i :| c in input.configs && FeatureOf(input, c, i, f);
    BarScored(input, c, i, f);
  }

  // Every decision of a run: on the newest snapshot of its instrument and instant, in the state the
  // run's own events had left the instrument in just before, by its own configuration.
  lemma RunDecides(input: SimulationInput, k: nat) returns (c: MeanReversionConfig)
    requires input.Valid() && Succeeds(input) && k < |Account(input).evaluations|
    ensures var v := Account(input).evaluations[k];
            && c in input.configs && c.instrument == v.snapshot.instrument
            && v.snapshot in Account(input).features
            && (forall g :: g in Account(input).features ==> NoNewer(g, v.snapshot))
            && v.state == SlotAfter(RunRules(input), Filter(Before(v.decided), RunOrder(input)), v.snapshot.instrument).state
            && Decided(v, v.snapshot, c)
  {
    var ds := RunDecisions(input);
    var f := ds[k];
    EvaluationAt(input, ds, k);
    ReplayEqualsSinglePass(input, k);
    assert f in ds && f in Features(input);
    c := FeatureConfig(input, f);
    var own := ConfigFor(input.configs, f.instrument);
    Proposals.SameConfig(input.configs, c, own);
    DecideExactly(c, f, StateBefore(input, SignalEvents(Evaluations(input, ds)[..k]), f.available, f.instrument));
  }

  // ----- events -----

  // A bar, a snapshot, a signal or an opportunity becomes known when it becomes available.
  ghost predicate Happens(input: SimulationInput, signals: seq<Signal>, e: Event)
    requires input.Valid()
  {
    || (exists b :: b in input.bars
                    && e == Event(MarketId(b.instrument, b.interval, b.observed), MarketAvailable, b.available,
                                  b.instrument, BarSource(b.instrument, b.interval, b.observed), None))
    || (exists f :: f in Features(input)
                    && e == Event(FeatureId(f.instrument, f.window, f.observed, f.dataset), FeatureAvailable, f.available,
                                  f.instrument, FeatureSource(f.window, f.observed, f.dataset), None))
    || (exists s :: s in signals
                    && e == Event(SignalId(s.instrument, s.configuration, s.featureObserved), SignalAvailable, s.available,
                                  s.instrument, SignalSource(s.configuration, s.decided), Some(s)))
    || (exists o :: o in input.opportunities
                    && e == Event(CallerId(o.id), ExecutionOpportunity, o.time, o.instrument, CallerSource(o.source), None))
  }

  lemma SignalEventsExactly(evaluations: seq<Evaluation>, e: Event)
    ensures e in SignalEvents(evaluations) <==> exists s :: s in Signals(evaluations) && e == SignalEvent(s)
  {
    Fills.SignalAmong(evaluations, e);
    if s :| s in Signals(evaluations) && e == SignalEvent(s) {
      var k := Fills.SignalAt(evaluations, s);
      SignalEventOf(evaluations, e);
    }
  }

  lemma EventsExactly(input: SimulationInput, e: Event)
    requires input.Valid()
    ensures e in RunEvents(input) <==> Happens(input, Signals(RunEvaluations(input)), e)
  {
    SignalEventsExactly(RunEvaluations(input), e);
    assert e in RunEvents(input) <==>
           e in MarketEvents(input.bars) || e in FeatureEvents(Features(input))
           || e in SignalEvents(RunEvaluations(input)) || e in OpportunityEvents(input);
    Listings(input, e);
  }

  lemma Listings(input: SimulationInput, e: Event)
    requires input.Valid()
    ensures e in MarketEvents(input.bars) <==> exists b :: b in input.bars && e == MarketEvent(b)
    ensures e in FeatureEvents(Features(input)) <==> exists f :: f in Features(input) && e == FeatureEvent(f)
    ensures e in OpportunityEvents(input) <==> exists o :: o in input.opportunities && e == OpportunityEvent(o)
  {
    ListedExactly((b: Bar) => MarketEvent(b), input.bars, e);
    ListedExactly((f: FeatureSnapshot) => FeatureEvent(f), Features(input), e);
    ListedExactly((o: Opportunity) => OpportunityEvent(o), input.opportunities, e);
  }

  lemma ListedExactly<T, U>(f: T -> U, s: seq<T>, y: U)
    ensures y in Map(f, s) <==> exists x :: x in s && y == f(x)
  {
    if y in Map(f, s) {
      var k :| 0 <= k < |s| && Map(f, s)[k] == y;
      assert s[k] in s;
    }
    if x :| x in s && y == f(x) {
      var k :| 0 <= k < |s| && s[k] == x;
      assert Map(f, s)[k] == y;
    }
  }

  // ----- the account -----

  predicate Proposed(v: Evaluation) { v.signal.Some? }

  // The proposed signals, in the order of their evaluations.
  lemma {:induction false} SignalsInOrder(evaluations: seq<Evaluation>)
    ensures |Signals(evaluations)| == |Filter(Proposed, evaluations)|
    ensures forall k :: 0 <= k < |Signals(evaluations)| ==>
              Filter(Proposed, evaluations)[k].signal == Some(Signals(evaluations)[k])
  {
    if evaluations != [] {
      SignalsInOrder(Front(evaluations));
      FrontAndLast(evaluations);
    }
  }

  predicate IsFill(o: Outcome) { o.status == Filled }

  // The economics of exactly the fills, in order, each by a configuration of its instrument.
  ghost predicate EconomicsOf(outcomes: seq<Outcome>, configs: seq<EconomicsConfig>, xs: seq<EconomicExecution>) {
    var fills := Filter(IsFill, outcomes);
    && |xs| == |fills|
    && forall k :: 0 <= k < |xs| ==>
         && xs[k].Valid() && xs[k].outcome == fills[k]
         && xs[k].config in configs && xs[k].config.instrument == fills[k].attempt.instrument
  }

  lemma {:induction false} AttachedExactly(outcomes: seq<Outcome>, configs: seq<EconomicsConfig>)
    requires Attachable(outcomes, configs) && forall c :: c in configs ==> c.Valid()
    ensures EconomicsOf(outcomes, configs, AttachAll(outcomes, configs))
  {
    if outcomes != [] {
      FrontAndLast(outcomes);
      AttachedExactly(Front(outcomes), configs);
    }
  }

  lemma RunEconomicsExactly(input: SimulationInput)
    requires input.Valid() && Succeeds(input)
    ensures var r := Account(input);
            if input.economics.None? then r.economicExecutions == []
            else EconomicsOf(r.outcomes, input.economics.value, r.economicExecutions)
  {
    if input.economics.Some? {
      OutcomesAttachable(input);
      AttachedExactly(RunPass(input).outcomes, input.economics.value);
    }
  }

  // The account: the caller's configuration, quotes and economics, the features, what was decided on
  // them and proposed, and both passes over the same events, in causal order.
  lemma AccountTold(input: SimulationInput)
    requires input.Valid() && Succeeds(input)
    ensures var r := Account(input);
            && r.execution == input.execution && r.economics == input.economics
            && multiset(r.configs) == multiset(input.configs) && Sorted(ConfigKey(), r.configs)
            && multiset(r.quotes) == multiset(input.quotes) && Sorted(QuoteKey(), r.quotes)
            && Sorted(FeatureKey(), r.features) && Distinct(r.features)
            && r.signals == Signals(r.evaluations)
            && Sorted(EventKey(), r.timeline.ordered) && UniqueIds(r.timeline.ordered)
            && (forall e :: e in r.timeline.ordered <==> Happens(input, r.signals, e))
            && r.lifecycle.ordered == r.timeline.ordered
            && r.outcomes == r.lifecycle.outcomes && r.attempts == r.lifecycle.attempts
  {
    SortSorted(ConfigKey(), input.configs);
    SortSorted(QuoteKey(), input.quotes);
    FeaturesUnique(input);
    RunOrderFacts(input);
    forall e ensures e in RunOrder(input) <==> Happens(input, Signals(RunEvaluations(input)), e) {
      EventsExactly(input, e);
    }
  }
}
