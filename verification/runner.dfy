// The chronological simulation: simulation/runner.py.
module Runner {
  import opened Collections
  import opened Order
  import opened Domain
  import opened Kernel
  import opened Strategy
  import opened Events
  import opened Timeline
  import opened Execution
  import opened Lifecycle
  import opened Economics

  datatype SimulationInput = SimulationInput(
    metadata: Metadata, bars: seq<Bar>, configs: seq<MeanReversionConfig>, execution: ExecutionConfig,
    quotes: seq<Quote>, opportunities: seq<Opportunity>, economics: Option<seq<EconomicsConfig>>)
  {
    // The contract checked when an input is constructed.
    ghost predicate Valid() {
      && configs != []
      && ValidConfigs(configs, metadata)
      && execution.Valid()
      && (economics.Some? ==> ValidEconomics(economics.value, configs))
    }
  }

  ghost predicate ValidConfigs(configs: seq<MeanReversionConfig>, metadata: Metadata) {
    && (forall c :: c in configs ==> c.Valid() && c.instrument in metadata.instruments)
    && (forall i, j :: 0 <= i < j < |configs| ==> configs[i].instrument != configs[j].instrument)
  }

  // Exactly one economics configuration per configured instrument.
  ghost predicate ValidEconomics(economics: seq<EconomicsConfig>, configs: seq<MeanReversionConfig>) {
    && (forall c :: c in economics ==> c.Valid())
    && (forall i, j :: 0 <= i < j < |economics| ==> economics[i].instrument != economics[j].instrument)
    && (forall c :: c in economics ==> Configured(configs, c.instrument))
    && (forall c :: c in configs ==> EconomicsCovers(economics, c.instrument))
  }

  predicate Configured(configs: seq<MeanReversionConfig>, instrument: Instrument) {
    exists c :: c in configs && c.instrument == instrument
  }

  predicate EconomicsCovers(configs: seq<EconomicsConfig>, instrument: Instrument) {
    exists c :: c in configs && c.instrument == instrument
  }

  // Lookup by instrument; instruments are distinct in a valid input.
  function ConfigFor(configs: seq<MeanReversionConfig>, instrument: Instrument): (c: MeanReversionConfig)
    requires Configured(configs, instrument)
    ensures c in configs && c.instrument == instrument
  {
    if configs[0].instrument == instrument then configs[0] else ConfigFor(configs[1..], instrument)
  }

  function EconomicsFor(configs: seq<EconomicsConfig>, instrument: Instrument): (c: EconomicsConfig)
    requires EconomicsCovers(configs, instrument)
    ensures c in configs && c.instrument == instrument
  {
    if configs[0].instrument == instrument then configs[0] else EconomicsFor(configs[1..], instrument)
  }

  datatype Disposition = FeatureNotActionable | PendingLifecycle | NoSignal | SignalProposed

  datatype Evaluation = Evaluation(
    snapshot: FeatureSnapshot, decided: int, state: LifecycleState, position: Option<PositionState>,
    disposition: Disposition, signal: Option<Signal>)

  datatype SimulationResult = SimulationResult(
    configs: seq<MeanReversionConfig>, execution: ExecutionConfig, quotes: seq<Quote>,
    features: seq<FeatureSnapshot>, evaluations: seq<Evaluation>, signals: seq<Signal>,
    timeline: TimelineResult, lifecycle: LifecycleResult,
    attempts: seq<Attempt>, outcomes: seq<Outcome>,
    economics: Option<seq<EconomicsConfig>>, economicExecutions: seq<EconomicExecution>)

  function FeatureKey(): FeatureSnapshot -> Key {
    (f: FeatureSnapshot) => [Num(f.available), Text(f.instrument.identifier), Num(f.observed), Num(f.window)]
  }

  function ConfigKey(): MeanReversionConfig -> Key {
    (c: MeanReversionConfig) => [Text(c.instrument.identifier)]
  }

  // The snapshots of each configured instrument at its own window.
  function ConfigSnapshots(bars: seq<Bar>, configs: seq<MeanReversionConfig>, dataset: string): seq<FeatureSnapshot>
    requires forall c :: c in configs ==> c.window > 0
  {
    if configs == [] then []
    else
      assert configs == Front(configs) + [Last(configs)];
      ConfigSnapshots(bars, Front(configs), dataset)
      + Filter(SnapshotFor(Last(configs).instrument), ZScores(bars, Last(configs).window, dataset))
  }

  ghost function Features(input: SimulationInput): seq<FeatureSnapshot>
    requires input.Valid()
  {
    Sort(FeatureKey(), ConfigSnapshots(input.bars, input.configs, input.metadata.dataset))
  }

  // The newest observation among snapshots of one instrument and availability.
  function Newest(features: seq<FeatureSnapshot>): FeatureSnapshot -> bool {
    (f: FeatureSnapshot) =>
      forall g :: g in features && g.instrument == f.instrument && g.available == f.available
                  ==> g.observed <= f.observed
  }

  function Decisions(features: seq<FeatureSnapshot>): seq<FeatureSnapshot> {
    Filter(Newest(features), features)
  }

  function MarketEvents(bars: seq<Bar>): seq<Event> {
    Map((b: Bar) => MarketEvent(b), bars)
  }

  function FeatureEvents(features: seq<FeatureSnapshot>): seq<Event> {
    Map((f: FeatureSnapshot) => FeatureEvent(f), features)
  }

  function OpportunityEvents(input: SimulationInput): seq<Event> {
    Map((o: Opportunity) => OpportunityEvent(o), input.opportunities)
  }

  function CanonicalQuotes(input: SimulationInput): seq<Quote> {
    Sort(QuoteKey(), input.quotes)
  }

  // The events replayed before a decision at the given time.
  function PriorEvents(input: SimulationInput, signals: seq<Event>, time: int): seq<Event> {
    Filter(Before(time), signals) + Filter(Before(time), OpportunityEvents(input))
  }

  // The replayed state just before a decision.
  ghost function StateBefore(input: SimulationInput, signals: seq<Event>, time: int, instrument: Instrument)
    : LifecycleState
  {
    var ordered := Sort(EventKey(), PriorEvents(input, signals, time));
    SlotAfter(RulesFor(ordered, Some(input.execution), CanonicalQuotes(input)), ordered, instrument).state
  }

  function PositionOf(state: LifecycleState): Option<PositionState> {
    match state
    case Flat => Some(PositionFlat)
    case Holding => Some(PositionHolding)
    case _ => None
  }

  // One decision, given the state before it.
  function Decide(config: MeanReversionConfig, f: FeatureSnapshot, state: LifecycleState): Evaluation {
    var position := PositionOf(state);
    if f.state != Ready then Evaluation(f, f.available, state, None, FeatureNotActionable, None)
    else if position.None? then Evaluation(f, f.available, state, None, PendingLifecycle, None)
    else
      var signal := EvaluateMeanReversion(f, config, position.value, f.available);
      Evaluation(f, f.available, state, position, if signal.None? then NoSignal else SignalProposed, signal)
  }

  function SignalEvents(evaluations: seq<Evaluation>): seq<Event> {
    if evaluations == [] then []
    else
      SignalEvents(Front(evaluations)) +
      if Last(evaluations).signal.Some? then [SignalEvent(Last(evaluations).signal.value)] else []
  }

  function Signals(evaluations: seq<Evaluation>): seq<Signal> {
    if evaluations == [] then []
    else Signals(Front(evaluations)) + if Last(evaluations).signal.Some? then [Last(evaluations).signal.value] else []
  }

  // Decisions taken in order, each after replaying what earlier ones led to.
  ghost function Evaluations(input: SimulationInput, decisions: seq<FeatureSnapshot>): (r: seq<Evaluation>)
    requires forall f :: f in decisions ==> Configured(input.configs, f.instrument)
    ensures |r| == |decisions|
  {
    if decisions == [] then []
    else
      assert decisions == Front(decisions) + [Last(decisions)];
      var earlier, f := Evaluations(input, Front(decisions)), Last(decisions);
      earlier + [Decide(ConfigFor(input.configs, f.instrument), f,
                        StateBefore(input, SignalEvents(earlier), f.available, f.instrument))]
  }

  function AllEvents(bars: seq<Bar>, features: seq<FeatureSnapshot>, signals: seq<Event>, opportunities: seq<Event>)
    : seq<Event>
  {
    MarketEvents(bars) + FeatureEvents(features) + signals + opportunities
  }

  lemma {:induction false} SnapshotsConfigured(
    bars: seq<Bar>, configs: seq<MeanReversionConfig>, dataset: string, f: FeatureSnapshot)
    requires forall c :: c in configs ==> c.window > 0
    requires f in ConfigSnapshots(bars, configs, dataset)
    ensures Configured(configs, f.instrument)
  {
    if configs != [] {
      forall c | c in Front(configs) ensures c in configs {
      }
      assert Last(configs) in configs;
      if f in ConfigSnapshots(bars, Front(configs), dataset) {
        SnapshotsConfigured(bars, Front(configs), dataset, f);
      }
    }
  }

  lemma FeaturesConfigured(input: SimulationInput)
    requires input.Valid()
    ensures forall f :: f in Features(input) ==> Configured(input.configs, f.instrument)
  {
    SortElements(FeatureKey(), ConfigSnapshots(input.bars, input.configs, input.metadata.dataset));
    forall f | f in Features(input) ensures Configured(input.configs, f.instrument) {
      SnapshotsConfigured(input.bars, input.configs, input.metadata.dataset, f);
    }
  }

  ghost function RunEvaluations(input: SimulationInput): seq<Evaluation>
    requires input.Valid()
  {
    FeaturesConfigured(input);
    Evaluations(input, Decisions(Features(input)))
  }

  ghost function RunEvents(input: SimulationInput): seq<Event>
    requires input.Valid()
  {
    AllEvents(input.bars, Features(input), SignalEvents(RunEvaluations(input)), OpportunityEvents(input))
  }

  // Economics of the filled outcomes, in outcome order.
  ghost predicate Attachable(outcomes: seq<Outcome>, configs: seq<EconomicsConfig>) {
    forall o :: o in outcomes ==> o.Valid() && EconomicsCovers(configs, o.attempt.instrument)
  }

  function AttachAll(outcomes: seq<Outcome>, configs: seq<EconomicsConfig>): seq<EconomicExecution>
    requires Attachable(outcomes, configs)
    requires forall c :: c in configs ==> c.Valid()
  {
    if outcomes == [] then []
    else
      assert outcomes == Front(outcomes) + [Last(outcomes)];
      var o := Last(outcomes);
      var attached := Attach(o, EconomicsFor(configs, o.attempt.instrument));
      AttachAll(Front(outcomes), configs)
      + if attached.Ok? && attached.value.Some? then [attached.value.value] else []
  }
}
