// A run of several instruments is, for each of them, the run of that instrument alone.
module Isolation {
  import opened Collections
  import opened Order
  import opened Domain
  import opened Validation
  import opened Kernel
  import opened Events
  import opened Execution
  import opened Lifecycle
  import opened Economics
  import opened Runner
  import opened Replay
  import opened Simulate
  import opened Run
  import opened Causality

  function QuoteOf(instrument: Instrument): Quote -> bool {
    (q: Quote) => q.instrument == instrument
  }

  function OpportunityOf(instrument: Instrument): Opportunity -> bool {
    (o: Opportunity) => o.instrument == instrument
  }

  function EvaluationOf(instrument: Instrument): Evaluation -> bool {
    (v: Evaluation) => v.snapshot.instrument == instrument
  }

  function RecordFor(instrument: Instrument): Record -> bool {
    (r: Record) => r.instrument == instrument
  }

  // The part of an input that concerns one instrument.
  function Alone(input: SimulationInput, instrument: Instrument): SimulationInput
    requires Configured(input.configs, instrument)
    requires input.economics.Some? ==> EconomicsCovers(input.economics.value, instrument)
  {
    SimulationInput(
      input.metadata, Filter(BarOf(instrument), input.bars), [ConfigFor(input.configs, instrument)], input.execution,
      Filter(QuoteOf(instrument), input.quotes), Filter(OpportunityOf(instrument), input.opportunities),
      if input.economics.None? then None else Some([EconomicsFor(input.economics.value, instrument)]))
  }

  ghost predicate Isolable(input: SimulationInput, instrument: Instrument) {
    && input.Valid() && Succeeds(input)
    && Configured(input.configs, instrument)
    && Filter(BarOf(instrument), input.bars) != []
  }

  function NotLater(): (Bar, Bar) -> bool {
    (x: Bar, y: Bar) => x.observed <= y.observed
  }

  function DifferentIdentity(): (Bar, Bar) -> bool {
    (x: Bar, y: Bar) => BarIdentity(x) != BarIdentity(y)
  }

  lemma BarsAlone(bars: seq<Bar>, metadata: Metadata, instrument: Instrument)
    requires ValidBars(bars, metadata) && Filter(BarOf(instrument), bars) != []
    ensures ValidBars(Filter(BarOf(instrument), bars), metadata)
  {
    FilterPairwise(BarOf(instrument), NotLater(), bars);
    FilterPairwise(BarOf(instrument), DifferentIdentity(), bars);
    var mine := Filter(BarOf(instrument), bars);
    forall i, j | 0 <= i < j < |mine|
      ensures mine[i].observed <= mine[j].observed && BarIdentity(mine[i]) != BarIdentity(mine[j])
    {
      assert NotLater()(mine[i], mine[j]) && DifferentIdentity()(mine[i], mine[j]);
    }
  }

  lemma EconomicsAlone(input: SimulationInput, instrument: Instrument)
    requires input.Valid() && Configured(input.configs, instrument)
    ensures input.economics.Some? ==> EconomicsCovers(input.economics.value, instrument)
  {
    var c :| c in input.configs && c.instrument == instrument;
  }

  lemma AloneConfigs(configs: seq<MeanReversionConfig>, metadata: Metadata, c: MeanReversionConfig)
    requires ValidConfigs(configs, metadata) && c in configs
    ensures ValidConfigs([c], metadata) && Configured([c], c.instrument)
  {
    assert [c][0] in [c];
  }

  lemma AloneEconomics(e: EconomicsConfig, c: MeanReversionConfig)
    requires e.Valid() && e.instrument == c.instrument
    ensures ValidEconomics([e], [c])
  {
    assert [e][0] in [e] && [c][0] in [c];
  }

  lemma AloneValid(input: SimulationInput, instrument: Instrument)
    requires input.Valid() && Alone.requires(input, instrument)
    ensures Alone(input, instrument).Valid()
  {
    var c := ConfigFor(input.configs, instrument);
    AloneConfigs(input.configs, input.metadata, c);
    if input.economics.Some? {
      AloneEconomics(EconomicsFor(input.economics.value, instrument), c);
    }
  }

  lemma AloneAccepted(input: SimulationInput, instrument: Instrument)
    requires Isolable(input, instrument)
    ensures input.economics.Some? ==> EconomicsCovers(input.economics.value, instrument)
    ensures Accepted(Alone(input, instrument))
  {
    EconomicsAlone(input, instrument);
    AloneValid(input, instrument);
    BarsAlone(input.bars, input.metadata, instrument);
  }

  // ----- features and decisions -----

  lemma OneConfig(bars: seq<Bar>, c: MeanReversionConfig, dataset: string)
    requires c.window > 0
    ensures ConfigSnapshots(bars, [c], dataset)
         == Filter(SnapshotFor(c.instrument), ZScores(bars, c.window, dataset))
  {
    assert Front([c]) == [] && Last([c]) == c;
  }

  lemma SnapshotsAlone(bars: seq<Bar>, configs: seq<MeanReversionConfig>, dataset: string, c: MeanReversionConfig)
    requires DistinctInstruments(configs) && c in configs && forall d :: d in configs ==> d.window > 0
    ensures ConfigSnapshots(Filter(BarOf(c.instrument), bars), [c], dataset)
         == Filter(SnapshotFor(c.instrument), ConfigSnapshots(bars, configs, dataset))
  {
    var p := SnapshotFor(c.instrument);
    var mine := ZScores(Filter(BarOf(c.instrument), bars), c.window, dataset);
    ZScoresIsolated(bars, c.instrument, c.window, dataset);
    FilterAll(p, mine);
    ConfigPart(bars, configs, dataset, c);
    OneConfig(Filter(BarOf(c.instrument), bars), c, dataset);
  }

  lemma FeaturesAlone(input: SimulationInput, instrument: Instrument)
    requires input.Valid() && Alone.requires(input, instrument) && Alone(input, instrument).Valid()
    ensures Features(Alone(input, instrument)) == Filter(SnapshotFor(instrument), Features(input))
  {
    SnapshotsAlone(input.bars, input.configs, input.metadata.dataset, ConfigFor(input.configs, instrument));
    SortFilter(FeatureKey(), SnapshotFor(instrument),
               ConfigSnapshots(input.bars, input.configs, input.metadata.dataset));
  }

  lemma DecisionsOf(features: seq<FeatureSnapshot>, instrument: Instrument)
    ensures Filter(SnapshotFor(instrument), Decisions(features))
         == Decisions(Filter(SnapshotFor(instrument), features))
  {
    var p := SnapshotFor(instrument);
    var kept := Filter(p, features);
    FilterCommute(p, Newest(features), features);
    FilterSame(Newest(features), Newest(kept), kept);
  }

  // ----- evaluations -----

  lemma {:induction false} SignalEventsOf(evaluations: seq<Evaluation>, instrument: Instrument)
    requires forall v :: v in evaluations && v.signal.Some? ==> v.signal.value.instrument == v.snapshot.instrument
    ensures SignalEvents(Filter(EvaluationOf(instrument), evaluations))
         == Filter(EventOf(instrument), SignalEvents(evaluations))
  {
    if evaluations != [] {
      var front, v := Front(evaluations), Last(evaluations);
      assert evaluations == front + [v];
      SignalEventsOf(front, instrument);
      SignalEventsSnoc(Filter(EvaluationOf(instrument), front), v);
      if v.signal.Some? {
        assert v in evaluations;
        FilterSnoc(EventOf(instrument), SignalEvents(front), SignalEvent(v.signal.value));
      } else {
        assert SignalEvents(front) + [] == SignalEvents(front);
      }
    }
  }

  lemma {:induction false} OpportunityEventsOf(os: seq<Opportunity>, instrument: Instrument)
    ensures Map(OpportunityEventOf(), Filter(OpportunityOf(instrument), os))
         == Filter(EventOf(instrument), Map(OpportunityEventOf(), os))
  {
    if os != [] {
      OpportunityEventsOf(Front(os), instrument);
      assert Front(Map(OpportunityEventOf(), os)) == Map(OpportunityEventOf(), Front(os));
    }
  }

  lemma OpportunitiesAlone(input: SimulationInput, alone: SimulationInput, instrument: Instrument)
    requires alone.opportunities == Filter(OpportunityOf(instrument), input.opportunities)
    ensures OpportunityEvents(alone) == Filter(EventOf(instrument), OpportunityEvents(input))
  {
    OpportunityEventsOf(input.opportunities, instrument);
    assert OpportunityEvents(alone) == Map(OpportunityEventOf(), alone.opportunities);
    assert OpportunityEvents(input) == Map(OpportunityEventOf(), input.opportunities);
  }

  lemma PriorAlone(input: SimulationInput, alone: SimulationInput, instrument: Instrument, signals: seq<Event>, time: int)
    requires alone.opportunities == Filter(OpportunityOf(instrument), input.opportunities)
    ensures PriorEvents(alone, Filter(EventOf(instrument), signals), time)
         == Filter(EventOf(instrument), PriorEvents(input, signals, time))
  {
    OpportunitiesAlone(input, alone, instrument);
    FilterCommute(Before(time), EventOf(instrument), signals);
    FilterCommute(Before(time), EventOf(instrument), OpportunityEvents(input));
    FilterAppend(EventOf(instrument), Filter(Before(time), signals), Filter(Before(time), OpportunityEvents(input)));
  }

  // Attempts of an instrument consult its own quotes only.
  lemma LegalAlone(input: SimulationInput, alone: SimulationInput, instrument: Instrument, time: int)
    requires alone.quotes == Filter(QuoteOf(instrument), input.quotes)
    ensures Filter(Legal(instrument, time), CanonicalQuotes(alone))
         == Filter(Legal(instrument, time), CanonicalQuotes(input))
  {
    var p := Legal(instrument, time);
    FilterFilter(p, QuoteOf(instrument), p, input.quotes);
    SortFilter(QuoteKey(), p, input.quotes);
    SortFilter(QuoteKey(), p, alone.quotes);
  }

  ghost predicate IsAlone(input: SimulationInput, alone: SimulationInput, instrument: Instrument) {
    && alone.execution == input.execution
    && alone.quotes == Filter(QuoteOf(instrument), input.quotes)
    && alone.opportunities == Filter(OpportunityOf(instrument), input.opportunities)
  }

  // An instrument's slot needs only its own events, under rules that agree on them.
  lemma SlotAlone(x: Rules, y: Rules, es: seq<Event>, instrument: Instrument)
    requires ValidEvents(es) && forall e :: e in es && e.instrument == instrument ==> Agree(x, y, e)
    ensures SlotAfter(y, Filter(EventOf(instrument), es), instrument) == SlotAfter(x, es, instrument)
  {
    SlotFilter(x, EventOf(instrument), es, instrument);
    SlotAgree(x, y, Filter(EventOf(instrument), es), instrument);
  }

  lemma PriorSeparate(input: SimulationInput, signals: seq<Event>, time: int)
    requires ValidEvents(signals) && OneSignalPerInstant(signals)
    ensures var ordered := Sort(EventKey(), PriorEvents(input, signals, time));
            && ValidEvents(ordered) && OneSignalPerInstant(ordered)
            && RulesFor(ordered, Some(input.execution), CanonicalQuotes(input)) == RunRules(input)
  {
    var prior := PriorEvents(input, signals, time);
    var ordered := Sort(EventKey(), prior);
    SortElements(EventKey(), prior);
    forall e | e in ordered ensures e.Valid() && (e.kind == SignalAvailable ==> e in signals) {
      assert e in Filter(Before(time), signals) || e in Filter(Before(time), OpportunityEvents(input));
    }
    NoConflicts(ordered);
  }

  lemma StateAlone(input: SimulationInput, alone: SimulationInput, instrument: Instrument, signals: seq<Event>, time: int)
    requires IsAlone(input, alone, instrument)
    requires ValidEvents(signals) && OneSignalPerInstant(signals)
    ensures StateBefore(alone, Filter(EventOf(instrument), signals), time, instrument)
         == StateBefore(input, signals, time, instrument)
  {
    var prior := PriorEvents(input, signals, time);
    PriorAlone(input, alone, instrument, signals, time);
    SortFilter(EventKey(), EventOf(instrument), prior);
    PriorSeparate(input, signals, time);
    PriorSeparate(alone, Filter(EventOf(instrument), signals), time);
    RulesAgreeAlone(input, alone, instrument, Sort(EventKey(), prior));
    SlotAlone(RunRules(input), RunRules(alone), Sort(EventKey(), prior), instrument);
  }

  lemma RulesAgreeAlone(input: SimulationInput, alone: SimulationInput, instrument: Instrument, es: seq<Event>)
    requires IsAlone(input, alone, instrument)
    ensures forall e :: e in es && e.instrument == instrument ==> Agree(RunRules(input), RunRules(alone), e)
  {
    forall e | e in es && e.instrument == instrument ensures Agree(RunRules(input), RunRules(alone), e) {
      LegalAlone(input, alone, instrument, e.time);
    }
  }

  // One more decision, if it is the instrument's own.
  lemma DecideAlone(
    input: SimulationInput, alone: SimulationInput, instrument: Instrument, front: seq<FeatureSnapshot>,
    f: FeatureSnapshot)
    requires IsAlone(input, alone, instrument) && AllConfigured(input, front) && OnePerInstant(front)
    ensures StateBefore(alone, SignalEvents(Filter(EvaluationOf(instrument), Evaluations(input, front))),
                        f.available, instrument)
         == StateBefore(input, SignalEvents(Evaluations(input, front)), f.available, instrument)
  {
    var earlier := Evaluations(input, front);
    AllConsistent(input, front);
    SignalsSeparate(input, front);
    SignalEventsOf(earlier, instrument);
    StateAlone(input, alone, instrument, SignalEvents(earlier), f.available);
  }

  lemma OwnConfigured(input: SimulationInput, alone: SimulationInput, instrument: Instrument, ds: seq<FeatureSnapshot>)
    requires Configured(input.configs, instrument) && alone.configs == [ConfigFor(input.configs, instrument)]
    ensures AllConfigured(alone, Filter(SnapshotFor(instrument), ds))
    ensures Configured(alone.configs, instrument)
  {
    assert alone.configs[0] in alone.configs;
  }

  lemma {:induction false} EvaluationsAlone(
    input: SimulationInput, alone: SimulationInput, instrument: Instrument, ds: seq<FeatureSnapshot>)
    requires IsAlone(input, alone, instrument) && AllConfigured(input, ds) && OnePerInstant(ds)
    requires Configured(input.configs, instrument) && alone.configs == [ConfigFor(input.configs, instrument)]
    ensures AllConfigured(alone, Filter(SnapshotFor(instrument), ds))
    ensures Evaluations(alone, Filter(SnapshotFor(instrument), ds))
         == Filter(EvaluationOf(instrument), Evaluations(input, ds))
  {
    OwnConfigured(input, alone, instrument, ds);
    if ds != [] {
      var front, f := Front(ds), Last(ds);
      PrefixConfigured(input, ds, |front|);
      EvaluationsAlone(input, alone, instrument, front);
      var earlier := Evaluations(input, front);
      EvaluationFacts(input, ds, |front|);
      if f.instrument == instrument {
        DecideAlone(input, alone, instrument, front, f);
        var mine := Filter(SnapshotFor(instrument), front);
        assert Front(mine + [f]) == mine;
        assert ConfigFor(alone.configs, instrument) == ConfigFor(input.configs, instrument);
      }
    }
  }

  // ----- events and records -----

  lemma {:induction false} MarketEventsOf(bars: seq<Bar>, instrument: Instrument)
    ensures MarketEvents(Filter(BarOf(instrument), bars)) == Filter(EventOf(instrument), MarketEvents(bars))
  {
    if bars != [] {
      MarketEventsOf(Front(bars), instrument);
      assert Front(MarketEvents(bars)) == MarketEvents(Front(bars));
    }
  }

  lemma {:induction false} FeatureEventsOf(fs: seq<FeatureSnapshot>, instrument: Instrument)
    ensures FeatureEvents(Filter(SnapshotFor(instrument), fs)) == Filter(EventOf(instrument), FeatureEvents(fs))
  {
    if fs != [] {
      FeatureEventsOf(Front(fs), instrument);
      assert Front(FeatureEvents(fs)) == FeatureEvents(Front(fs));
    }
  }

  // The records of an instrument are those of a pass over its own events.
  lemma {:induction false} RecordsAlone(x: Rules, y: Rules, es: seq<Event>, instrument: Instrument)
    requires ValidEvents(es) && forall e :: e in es && e.instrument == instrument ==> Agree(x, y, e)
    ensures Raises(y, Filter(EventOf(instrument), es)) ==> Raises(x, es)
    ensures Records(y, Filter(EventOf(instrument), es)) == Filter(RecordFor(instrument), Records(x, es))
  {
    if es != [] {
      var front, e := Front(es), Last(es);
      assert es == front + [e];
      RecordsAlone(x, y, front, instrument);
      TurnTime(x, SlotAfter(x, front, e.instrument), e);
      if e.instrument == instrument {
        var mine := Filter(EventOf(instrument), front);
        assert Front(mine + [e]) == mine;
        SlotAlone(x, y, front, instrument);
        SlotGrounded(x, front, instrument);
        NextAgree(x, y, SlotAfter(x, front, instrument), e);
      }
      RecordsStep(x, es, instrument);
    }
  }

  lemma RecordsStep(x: Rules, es: seq<Event>, instrument: Instrument)
    requires es != []
    ensures Filter(RecordFor(instrument), Records(x, es))
         == Filter(RecordFor(instrument), Records(x, Front(es)))
            + if LastTurn(x, es).Ok? && Last(es).instrument == instrument then [LastTurn(x, es).value.record] else []
  {
    TurnTime(x, SlotAfter(x, Front(es), Last(es).instrument), Last(es));
    if LastTurn(x, es).Ok? {
      FilterSnoc(RecordFor(instrument), Records(x, Front(es)), LastTurn(x, es).value.record);
    } else {
      assert Records(x, es) == Records(x, Front(es));
    }
  }

  lemma RunEventsAlone(input: SimulationInput, alone: SimulationInput, instrument: Instrument)
    requires input.Valid() && alone.Valid() && IsAlone(input, alone, instrument)
    requires alone.bars == Filter(BarOf(instrument), input.bars)
    requires Features(alone) == Filter(SnapshotFor(instrument), Features(input))
    requires RunEvaluations(alone) == Filter(EvaluationOf(instrument), RunEvaluations(input))
    ensures RunEvents(alone) == Filter(EventOf(instrument), RunEvents(input))
    ensures RunOrder(alone) == Filter(EventOf(instrument), RunOrder(input))
  {
    MarketEventsOf(input.bars, instrument);
    FeatureEventsOf(Features(input), instrument);
    AllConsistent(input, RunDecisions(input));
    SignalEventsOf(RunEvaluations(input), instrument);
    OpportunitiesAlone(input, alone, instrument);
    FilterFour(EventOf(instrument), MarketEvents(input.bars), FeatureEvents(Features(input)),
               SignalEvents(RunEvaluations(input)), OpportunityEvents(input));
    SortFilter(EventKey(), EventOf(instrument), RunEvents(input));
  }

  // Instrument isolation: alone, an instrument has the same features, evaluations,
  // lifecycle records and outcomes as among the others.
  lemma InstrumentIsolation(input: SimulationInput, instrument: Instrument)
    requires Isolable(input, instrument)
    ensures Alone.requires(input, instrument)
    ensures Alone(input, instrument).Valid() && Succeeds(Alone(input, instrument))
    ensures var full, alone := Account(input), Account(Alone(input, instrument));
            && alone.features == Filter(SnapshotFor(instrument), full.features)
            && alone.evaluations == Filter(EvaluationOf(instrument), full.evaluations)
            && alone.lifecycle.ordered == Filter(EventOf(instrument), full.lifecycle.ordered)
            && alone.lifecycle.records == Filter(RecordFor(instrument), full.lifecycle.records)
            && alone.outcomes == Outcomes(Filter(RecordFor(instrument), full.lifecycle.records))
  {
    AloneAccepted(input, instrument);
    var alone := Alone(input, instrument);
    FeaturesAlone(input, instrument);
    DecisionsOf(Features(input), instrument);
    DecisionsUnique(input);
    EvaluationsAlone(input, alone, instrument, RunDecisions(input));
    RunEventsAlone(input, alone, instrument);
    FilterUniqueIds(EventOf(instrument), RunEvents(input));
    RunOrderFacts(input);
    RulesAgreeAlone(input, alone, instrument, RunOrder(input));
    RecordsAlone(RunRules(input), RunRules(alone), RunOrder(input), instrument);
  }
}
