// run_simulation: decisions in order, each after a replay, then one final pass.
module Run {
  import opened Collections
  import opened Order
  import opened Domain
  import opened Validation
  import opened Strategy
  import opened Events
  import opened Timeline
  import opened Execution
  import opened Lifecycle
  import opened Process
  import opened Economics
  import opened Runner
  import opened Replay
  import opened Trace
  import opened Simulate

  // A run that does not raise.
  ghost predicate Succeeds(input: SimulationInput)
    requires input.Valid()
  {
    && ValidBars(input.bars, input.metadata) && input.metadata.validated
    && UniqueIds(RunEvents(input))
    && !Raises(RunRules(input), RunOrder(input))
  }

  ghost function RunPass(input: SimulationInput): LifecycleResult
    requires input.Valid()
  {
    Pass(RunRules(input), RunOrder(input))
  }

  // Attempts are made only for configured instruments.
  lemma OutcomeConfigured(input: SimulationInput, o: Outcome)
    requires input.Valid() && Succeeds(input) && o in RunPass(input).outcomes
    ensures o.Valid() && Configured(input.configs, o.attempt.instrument)
  {
    RunOrderFacts(input);
    var _ := OutcomeEvent(RunRules(input), RunOrder(input), o);
    var e := OutcomeSignal(RunRules(input), RunOrder(input), o);
    SignalConfigured(input, e);
  }

  lemma SignalConfigured(input: SimulationInput, e: Event)
    requires Accepted(input) && e in RunEvents(input) && e.kind == SignalAvailable
    ensures Configured(input.configs, e.instrument)
  {
    RunEventKinds(input, e);
    var k := SignalDecision(input, RunDecisions(input), e);
    assert RunDecisions(input)[k] in RunDecisions(input);
  }

  lemma OutcomesAttachable(input: SimulationInput)
    requires input.Valid() && Succeeds(input) && input.economics.Some?
    ensures Attachable(RunPass(input).outcomes, input.economics.value)
  {
    forall o | o in RunPass(input).outcomes
      ensures o.Valid() && EconomicsCovers(input.economics.value, o.attempt.instrument)
    {
      OutcomeConfigured(input, o);
      var c :| c in input.configs && c.instrument == o.attempt.instrument;
    }
  }

  ghost function RunEconomics(input: SimulationInput): seq<EconomicExecution>
    requires input.Valid() && Succeeds(input)
  {
    if input.economics.None? then []
    else
      OutcomesAttachable(input);
      AttachAll(RunPass(input).outcomes, input.economics.value)
  }

  // The account of a successful run, with one lifecycle pass and no replay.
  ghost function Account(input: SimulationInput): SimulationResult
    requires input.Valid() && Succeeds(input)
  {
    RunOrderFacts(input);
    var pass := RunPass(input);
    SimulationResult(
      Sort(ConfigKey(), input.configs), input.execution, CanonicalQuotes(input),
      Features(input), RunEvaluations(input), Signals(RunEvaluations(input)),
      TimelineResult(RunOrder(input), TimelineRecords(RunOrder(input)), Pendings(RunOrder(input))),
      pass, pass.attempts, pass.outcomes, input.economics, RunEconomics(input))
  }

  // A replay raises only when the whole run does.
  lemma ReplaySucceeds(input: SimulationInput, k: nat)
    requires input.Valid() && Succeeds(input) && k < |RunDecisions(input)|
    ensures var prior := PriorEvents(input, SignalEvents(RunEvaluations(input)[..k]), RunDecisions(input)[k].available);
            LifecycleOf(prior, Some(input.execution), CanonicalQuotes(input)).Ok?
  {
    var time := RunDecisions(input)[k].available;
    var es := RunOrder(input);
    ReplayedEvents(input, k);
    RunOrderFacts(input);
    FilterUniqueIds(MovesBefore(time), RunEvents(input));
    var earlier := Filter(Before(time), es);
    BeforePrefix(es, time);
    RaisesExtends(RunRules(input), es, |earlier|);
    FilterFilter(MovesOnly(), Before(time), MovesBefore(time), es);
    RaisesFilter(RunRules(input), MovesOnly(), earlier);
  }

  // Looking an instrument up among the final states.
  lemma {:induction false} StateForSlot(rules: Rules, es: seq<Event>, instruments: seq<Instrument>, instrument: Instrument)
    requires ValidEvents(es)
    ensures StateFor(Map(i => SlotAfter(rules, es, i), instruments), instrument)
         == if instrument in instruments then SlotAfter(rules, es, instrument) else FlatState(instrument)
  {
    var states := Map(i => SlotAfter(rules, es, i), instruments);
    if instruments != [] {
      SlotGrounded(rules, es, instruments[0]);
      StateForSlot(rules, es, instruments[1..], instrument);
      assert states[1..] == Map(i => SlotAfter(rules, es, i), instruments[1..]);
    }
  }

  lemma StateForFinal(rules: Rules, es: seq<Event>, instrument: Instrument)
    requires ValidEvents(es)
    ensures StateFor(FinalStates(rules, es), instrument) == SlotAfter(rules, es, instrument)
  {
    SortElements(InstrumentKey(), Seen(es));
    StateForSlot(rules, es, Sort(InstrumentKey(), Seen(es)), instrument);
    if instrument !in Seen(es) {
      UnseenFlat(rules, es, instrument);
    }
  }

  lemma FinalOf(events: seq<Event>, config: Option<ExecutionConfig>, quotes: seq<Quote>)
    ensures var r, ordered := LifecycleOf(events, config, quotes), Sort(EventKey(), events);
            r.Ok? ==> r.value.finalStates == FinalStates(RulesFor(ordered, config, quotes), ordered)
  {
  }

  lemma FinalSlot(prior: seq<Event>, config: Option<ExecutionConfig>, quotes: seq<Quote>, instrument: Instrument)
    requires ValidEvents(prior)
    ensures var replayed, ordered := LifecycleOf(prior, config, quotes), Sort(EventKey(), prior);
            replayed.Ok? ==>
              StateFor(replayed.value.finalStates, instrument)
              == SlotAfter(RulesFor(ordered, config, quotes), ordered, instrument)
  {
    FinalOf(prior, config, quotes);
    SortElements(EventKey(), prior);
    var ordered := Sort(EventKey(), prior);
    StateForFinal(RulesFor(ordered, config, quotes), ordered, instrument);
  }

  // The state looked up after a replay is the one before the decision.
  lemma ReplayedState(input: SimulationInput, signals: seq<Event>, time: int, instrument: Instrument)
    requires ValidEvents(signals)
    ensures var prior := PriorEvents(input, signals, time);
            var replayed := LifecycleOf(prior, Some(input.execution), CanonicalQuotes(input));
            replayed.Ok? ==>
              StateFor(replayed.value.finalStates, instrument).state == StateBefore(input, signals, time, instrument)
  {
    FinalSlot(PriorEvents(input, signals, time), Some(input.execution), CanonicalQuotes(input), instrument);
  }

  method StateBeforeDecision(
    input: SimulationInput, signals: seq<Event>, time: int, instrument: Instrument, quotes: seq<Quote>)
    returns (r: Result<LifecycleState>)
    requires ValidEvents(signals) && quotes == CanonicalQuotes(input)
    ensures r.Ok? <==> LifecycleOf(PriorEvents(input, signals, time), Some(input.execution), quotes).Ok?
    ensures r.Ok? ==> r.value == StateBefore(input, signals, time, instrument)
  {
    var prior := PriorEvents(input, signals, time);
    assert ValidEvents(prior);
    var replayed := ProcessLifecycle(prior, Some(input.execution), quotes);
    if replayed.Err? {
      return Err(replayed.error);
    }
    ReplayedState(input, signals, time, instrument);
    r := Ok(StateFor(replayed.value.finalStates, instrument).state);
  }

  lemma SignalEventsSnoc(evaluations: seq<Evaluation>, v: Evaluation)
    ensures SignalEvents(evaluations + [v])
         == SignalEvents(evaluations) + if v.signal.Some? then [SignalEvent(v.signal.value)] else []
    ensures Signals(evaluations + [v]) == Signals(evaluations) + if v.signal.Some? then [v.signal.value] else []
  {
    assert Front(evaluations + [v]) == evaluations;
  }

  lemma SignalsIncluded(evaluations: seq<Evaluation>, k: nat)
    requires k <= |evaluations|
    ensures forall e :: e in SignalEvents(evaluations[..k]) ==> e in SignalEvents(evaluations)
  {
    SignalEventsAppend(evaluations[..k], evaluations[k..]);
    assert evaluations == evaluations[..k] + evaluations[k..];
  }

  lemma EarlierSignalsValid(input: SimulationInput, k: nat)
    requires Accepted(input) && k <= |RunDecisions(input)|
    ensures ValidEvents(SignalEvents(RunEvaluations(input)[..k]))
  {
    SignalsIncluded(RunEvaluations(input), k);
    forall e | e in SignalEvents(RunEvaluations(input)) ensures e.Valid() {
      var _ := SignalDecision(input, RunDecisions(input), e);
    }
  }

  lemma PrefixSignals(evaluations: seq<Evaluation>, k: nat)
    requires k < |evaluations|
    ensures evaluations[..k + 1] == evaluations[..k] + [evaluations[k]]
    ensures SignalEvents(evaluations[..k + 1]) == SignalEvents(evaluations[..k])
            + if evaluations[k].signal.Some? then [SignalEvent(evaluations[k].signal.value)] else []
  {
    SignalEventsSnoc(evaluations[..k], evaluations[k]);
    assert evaluations[..k + 1] == evaluations[..k] + [evaluations[k]];
  }

  // One decision: replay the signals so far and the opportunities, then decide.
  method TakeDecision(input: SimulationInput, k: nat, f: FeatureSnapshot, signals: seq<Event>, quotes: seq<Quote>)
    returns (r: Result<Evaluation>)
    requires Accepted(input) && k < |RunDecisions(input)| && f == RunDecisions(input)[k]
    requires quotes == CanonicalQuotes(input) && signals == SignalEvents(RunEvaluations(input)[..k])
    ensures r.Err? ==> !Succeeds(input)
    ensures r.Ok? ==> r.value == RunEvaluations(input)[k]
  {
    EarlierSignalsValid(input, k);
    EvaluationAt(input, RunDecisions(input), k);
    var before := StateBeforeDecision(input, signals, f.available, f.instrument, quotes);
    if before.Err? {
      if Succeeds(input) {
        ReplaySucceeds(input, k);
      }
      return Err(before.error);
    }
    var v := Evaluate(input, f, before.value);
    r := Ok(v);
  }

  // The decision loop.
  // The first k decisions have been taken.
  ghost predicate Taken(input: SimulationInput, k: nat, evaluations: seq<Evaluation>, signals: seq<Event>) {
    && Accepted(input) && k <= |RunDecisions(input)| == |RunEvaluations(input)|
    && evaluations == RunEvaluations(input)[..k] && signals == SignalEvents(evaluations)
  }

  lemma TakenNext(input: SimulationInput, k: nat, evaluations: seq<Evaluation>, signals: seq<Event>, v: Evaluation)
    requires Taken(input, k, evaluations, signals) && k < |RunDecisions(input)| && v == RunEvaluations(input)[k]
    ensures Taken(input, k + 1, evaluations + [v],
                  signals + if v.signal.Some? then [SignalEvent(v.signal.value)] else [])
  {
    PrefixSignals(RunEvaluations(input), k);
  }

  lemma TakenAll(input: SimulationInput, evaluations: seq<Evaluation>, signals: seq<Event>)
    requires Accepted(input) && Taken(input, |RunDecisions(input)|, evaluations, signals)
    ensures evaluations == RunEvaluations(input) && signals == SignalEvents(RunEvaluations(input))
  {
  }

  method TakeDecisions(input: SimulationInput, decisions: seq<FeatureSnapshot>, quotes: seq<Quote>)
    returns (r: Result<(seq<Evaluation>, seq<Event>)>)
    requires Accepted(input) && decisions == RunDecisions(input) && quotes == CanonicalQuotes(input)
    ensures r.Err? ==> !Succeeds(input)
    ensures r.Ok? ==> r.value.0 == RunEvaluations(input) && r.value.1 == SignalEvents(RunEvaluations(input))
  {
    var signals, evaluations := [], [];
    for i := 0 to |decisions|
      invariant Taken(input, i, evaluations, signals)
    {
      var taken := TakeDecision(input, i, decisions[i], signals, quotes);
      if taken.Err? {
        return Err(taken.error);
      }
      TakenNext(input, i, evaluations, signals, taken.value);
      if taken.value.signal.Some? {
        signals := signals + [SignalEvent(taken.value.signal.value)];
      }
      evaluations := evaluations + [taken.value];
    }
    TakenAll(input, evaluations, signals);
    r := Ok((evaluations, signals));
  }

  // A signal is proposed only from a ready snapshot, at its availability, and only to enter when
  // flat or to exit when holding.
  method Evaluate(input: SimulationInput, snapshot: FeatureSnapshot, state: LifecycleState)
    returns (v: Evaluation)
    requires Configured(input.configs, snapshot.instrument)
    ensures v == Decide(ConfigFor(input.configs, snapshot.instrument), snapshot, state)
    ensures v.snapshot == snapshot && v.decided == snapshot.available && v.state == state
    ensures v.signal.Some? <==> v.disposition == SignalProposed
    ensures v.signal.Some? ==>
              && snapshot.state == Ready && v.signal.value.instrument == snapshot.instrument
              && v.signal.value.available == snapshot.available && v.signal.value.featureObserved == snapshot.observed
              && (v.signal.value.kind == LongEntry ==> state == Flat)
              && (v.signal.value.kind == LongExit ==> state == Holding)
    ensures state in {PendingEntry, PendingExit} ==> v.signal.None?
  {
    DecideConsistent(ConfigFor(input.configs, snapshot.instrument), snapshot, state);
    if snapshot.state != Ready {
      return Evaluation(snapshot, snapshot.available, state, None, FeatureNotActionable, None);
    }
    var position := PositionOf(state);
    if position.None? {
      return Evaluation(snapshot, snapshot.available, state, None, PendingLifecycle, None);
    }
    var signal := EvaluateMeanReversion(
      snapshot, ConfigFor(input.configs, snapshot.instrument), position.value, snapshot.available);
    if signal.None? {
      return Evaluation(snapshot, snapshot.available, state, position, NoSignal, None);
    }
    v := Evaluation(snapshot, snapshot.available, state, position, SignalProposed, signal);
  }

  // The whole simulation returns the account of the run, exactly when the run succeeds.
  method RunSimulation(input: SimulationInput) returns (r: Result<SimulationResult>)
    requires input.Valid()
    ensures r.Ok? <==> Succeeds(input)
    ensures r.Ok? ==> r.value == Account(input)
  {
    var report := ValidateBars(input.bars, input.metadata);
    if report.Err? {
      return Err(report.error);
    }
    if !input.metadata.validated {
      return Err("dataset_metadata must declare validated status");
    }
    var quotes := Sort(QuoteKey(), input.quotes);
    var features := ConfiguredFeatures(input);
    FeaturesUnique(input);
    var decisions := DecisionSnapshots(features);
    var taken := TakeDecisions(input, decisions, quotes);
    if taken.Err? {
      return Err(taken.error);
    }
    r := Conclude(input, quotes, features, taken.value.0, taken.value.1);
  }

  // The final pass over all events, and the account of the run.
  method Conclude(
    input: SimulationInput, quotes: seq<Quote>, features: seq<FeatureSnapshot>, evaluations: seq<Evaluation>,
    signals: seq<Event>)
    returns (r: Result<SimulationResult>)
    requires Accepted(input) && input.metadata.validated
    requires quotes == CanonicalQuotes(input) && features == Features(input)
    requires evaluations == RunEvaluations(input) && signals == SignalEvents(evaluations)
    ensures r.Ok? <==> Succeeds(input)
    ensures r.Ok? ==> r.value == Account(input)
  {
    var events := AllEvents(input.bars, features, signals, OpportunityEvents(input));
    var passed := PassOver(input, quotes, events);
    if passed.Err? {
      return Err(passed.error);
    }
    var timeline, lifecycle := passed.value.0, passed.value.1;
    var economics := [];
    if input.economics.Some? {
      OutcomesAttachable(input);
      economics := AttachAll(lifecycle.outcomes, input.economics.value);
    }
    r := Ok(SimulationResult(
      Sort(ConfigKey(), input.configs), input.execution, quotes, features, evaluations, Signals(evaluations),
      timeline, lifecycle, lifecycle.attempts, lifecycle.outcomes, input.economics, economics));
  }

  // The lifecycle of a run's events is its pass, when it succeeds.
  lemma LifecycleOfRun(input: SimulationInput)
    requires Accepted(input) && input.metadata.validated
    ensures var r := LifecycleOf(RunEvents(input), Some(input.execution), CanonicalQuotes(input));
            (r.Ok? <==> Succeeds(input)) && (r.Ok? ==> r.value == RunPass(input))
    ensures Succeeds(input) ==> UniqueIds(RunEvents(input))
  {
    RunEventsSeparate(input);
  }

  method PassOver(input: SimulationInput, quotes: seq<Quote>, events: seq<Event>)
    returns (r: Result<(TimelineResult, LifecycleResult)>)
    requires Accepted(input) && input.metadata.validated
    requires quotes == CanonicalQuotes(input) && events == RunEvents(input)
    ensures r.Ok? <==> Succeeds(input)
    ensures r.Ok? ==>
              && ValidEvents(RunOrder(input))
              && r.value.0 == TimelineResult(RunOrder(input), TimelineRecords(RunOrder(input)), Pendings(RunOrder(input)))
              && r.value.1 == RunPass(input)
  {
    RunEventsSeparate(input);
    LifecycleOfRun(input);
    var timeline := ProcessTimeline(events);
    if timeline.Err? {
      return Err(timeline.error);
    }
    var lifecycle := ProcessLifecycle(events, Some(input.execution), quotes);
    if lifecycle.Err? {
      return Err(lifecycle.error);
    }
    r := Ok((timeline.value, lifecycle.value));
  }
}
