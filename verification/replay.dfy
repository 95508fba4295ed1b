// Replaying earlier events before every decision agrees with the single final pass.
module Replay {
  import opened Collections
  import opened Order
  import opened Domain
  import opened Validation
  import opened Kernel
  import opened Events
  import opened Execution
  import opened Lifecycle
  import opened Runner

  function RunRules(input: SimulationInput): Rules {
    Rules({}, Some(input.execution), CanonicalQuotes(input))
  }

  function MovesBefore(time: int): Event -> bool {
    (e: Event) => Moves(e) && e.time < time
  }

  function MovesOnly(): Event -> bool {
    (e: Event) => Moves(e)
  }

  // ----- features and decisions -----

  // One snapshot per instrument and observation time.
  ghost predicate OnePerObservation(fs: seq<FeatureSnapshot>) {
    forall f, g ::
      f in fs && g in fs && f.instrument == g.instrument && f.observed == g.observed ==> f == g
  }

  lemma ZScoresApart(bars: seq<Bar>, metadata: Metadata, window: nat, i: nat, j: nat)
    requires ValidBars(bars, metadata) && window > 0 && i < j < |bars|
    ensures var fs := ZScores(bars, window, metadata.dataset);
            fs[i].instrument != fs[j].instrument || fs[i].observed != fs[j].observed
  {
    ZScoresAt(bars, window, metadata.dataset, i);
    ZScoresAt(bars, window, metadata.dataset, j);
    if bars[i].instrument == bars[j].instrument {
      SameInstrumentIncreasing(bars, metadata, i, j);
    }
  }

  lemma ZScoresUnique(bars: seq<Bar>, metadata: Metadata, window: nat)
    requires ValidBars(bars, metadata) && window > 0
    ensures Distinct(ZScores(bars, window, metadata.dataset))
    ensures OnePerObservation(ZScores(bars, window, metadata.dataset))
  {
    var fs := ZScores(bars, window, metadata.dataset);
    forall i, j | 0 <= i < j < |fs|
      ensures fs[i].instrument != fs[j].instrument || fs[i].observed != fs[j].observed
    {
      ZScoresApart(bars, metadata, window, i, j);
    }
    forall f, g | f in fs && g in fs && f.instrument == g.instrument && f.observed == g.observed ensures f == g {
      var i :| 0 <= i < |fs| && fs[i] == f;
      var j :| 0 <= j < |fs| && fs[j] == g;
      assert i == j;
    }
  }

  lemma {:induction false} ConfigSnapshotsUnique(bars: seq<Bar>, metadata: Metadata, configs: seq<MeanReversionConfig>)
    requires ValidBars(bars, metadata) && forall c :: c in configs ==> c.window > 0
    requires forall i, j :: 0 <= i < j < |configs| ==> configs[i].instrument != configs[j].instrument
    ensures Distinct(ConfigSnapshots(bars, configs, metadata.dataset))
    ensures OnePerObservation(ConfigSnapshots(bars, configs, metadata.dataset))
  {
    if configs != [] {
      assert configs == Front(configs) + [Last(configs)];
      var c := Last(configs);
      var earlier := ConfigSnapshots(bars, Front(configs), metadata.dataset);
      var mine := Filter(SnapshotFor(c.instrument), ZScores(bars, c.window, metadata.dataset));
      ConfigSnapshotsUnique(bars, metadata, Front(configs));
      ZScoresUnique(bars, metadata, c.window);
      FilterDistinct(SnapshotFor(c.instrument), ZScores(bars, c.window, metadata.dataset));
      forall f | f in earlier ensures f.instrument != c.instrument {
        SnapshotsConfigured(bars, Front(configs), metadata.dataset, f);
        var d :| d in Front(configs) && d.instrument == f.instrument;
      }
    }
  }

  lemma FeaturesUnique(input: SimulationInput)
    requires input.Valid() && ValidBars(input.bars, input.metadata)
    ensures Distinct(Features(input)) && OnePerObservation(Features(input))
    ensures Sorted(FeatureKey(), Features(input))
  {
    var fs := ConfigSnapshots(input.bars, input.configs, input.metadata.dataset);
    ConfigSnapshotsUnique(input.bars, input.metadata, input.configs);
    SortElements(FeatureKey(), fs);
    SortSorted(FeatureKey(), fs);
    DistinctPermute(fs, Sort(FeatureKey(), fs));
  }

  // At most one decision per instrument and availability instant, in time order.
  ghost predicate OnePerInstant(ds: seq<FeatureSnapshot>) {
    forall i, j :: 0 <= i < j < |ds| ==>
      ds[i].available <= ds[j].available
      && (ds[i].instrument == ds[j].instrument ==> ds[i].available != ds[j].available)
  }

  lemma DecisionsUnique(input: SimulationInput)
    requires input.Valid() && ValidBars(input.bars, input.metadata)
    ensures OnePerInstant(Decisions(Features(input)))
  {
    var fs := Features(input);
    var ds := Decisions(fs);
    FeaturesUnique(input);
    FilterDistinct(Newest(fs), fs);
    FilterSorted(FeatureKey(), Newest(fs), fs);
    forall i, j | 0 <= i < j < |ds|
      ensures ds[i].available <= ds[j].available
      ensures ds[i].instrument == ds[j].instrument ==> ds[i].available != ds[j].available
    {
      EarlierFeature(ds[i], ds[j]);
      assert ds[i] in ds && ds[j] in ds && ds[i] != ds[j];
    }
  }

  lemma EarlierFeature(f: FeatureSnapshot, g: FeatureSnapshot)
    requires KeyLe(FeatureKey()(f), FeatureKey()(g))
    ensures f.available <= g.available
  {
    assert FeatureKey()(f)[0] == Num(f.available) && FeatureKey()(g)[0] == Num(g.available);
  }

  // ----- evaluations and their signals -----

  ghost predicate AllConfigured(input: SimulationInput, ds: seq<FeatureSnapshot>) {
    forall f :: f in ds ==> Configured(input.configs, f.instrument)
  }

  lemma PrefixConfigured(input: SimulationInput, ds: seq<FeatureSnapshot>, n: nat)
    requires AllConfigured(input, ds) && n <= |ds|
    ensures AllConfigured(input, ds[..n])
  {
    assert forall f :: f in ds[..n] ==> f in ds;
  }

  lemma EvaluationsSnoc(input: SimulationInput, ds: seq<FeatureSnapshot>)
    requires AllConfigured(input, ds) && ds != []
    ensures AllConfigured(input, Front(ds))
    ensures Evaluations(input, ds) == Evaluations(input, Front(ds)) + [Last(Evaluations(input, ds))]
  {
    PrefixConfigured(input, ds, |ds| - 1);
  }

  lemma {:induction false} EvaluationsPrefix(input: SimulationInput, ds: seq<FeatureSnapshot>, n: nat)
    requires AllConfigured(input, ds) && n <= |ds|
    ensures AllConfigured(input, ds[..n])
    ensures Evaluations(input, ds)[..n] == Evaluations(input, ds[..n])
  {
    PrefixConfigured(input, ds, n);
    if n == |ds| {
      assert ds[..n] == ds;
    } else {
      EvaluationsSnoc(input, ds);
      EvaluationsPrefix(input, Front(ds), n);
      assert Front(ds)[..n] == ds[..n];
      PrefixOfSnoc(Evaluations(input, Front(ds)), Last(Evaluations(input, ds)), n);
    }
  }

  lemma PrefixOfSnoc<T>(s: seq<T>, x: T, n: nat)
    requires n <= |s|
    ensures (s + [x])[..n] == s[..n]
  {
  }

  lemma EvaluationAt(input: SimulationInput, ds: seq<FeatureSnapshot>, k: nat)
    requires AllConfigured(input, ds)
    requires k < |ds|
    ensures ds[k] in ds
    ensures Evaluations(input, ds)[k]
         == Decide(ConfigFor(input.configs, ds[k].instrument), ds[k],
                   StateBefore(input, SignalEvents(Evaluations(input, ds)[..k]), ds[k].available, ds[k].instrument))
  {
    EvaluationsPrefix(input, ds, k);
    EvaluationsPrefix(input, ds, k + 1);
    assert Front(ds[..k + 1]) == ds[..k];
    assert Evaluations(input, ds)[k] == Evaluations(input, ds)[..k + 1][k];
  }

  lemma {:induction false} SignalEventsAppend(a: seq<Evaluation>, b: seq<Evaluation>)
    ensures SignalEvents(a + b) == SignalEvents(a) + SignalEvents(b)
  {
    if b == [] {
      assert a + b == a;
    } else {
      SignalEventsAppend(a, Front(b));
      assert Front(a + b) == a + Front(b);
    }
  }

  lemma {:induction false} SignalEventOf(evaluations: seq<Evaluation>, e: Event)
    ensures e in SignalEvents(evaluations) <==>
            exists k :: 0 <= k < |evaluations| && evaluations[k].signal.Some?
                        && e == SignalEvent(evaluations[k].signal.value)
  {
    if evaluations != [] {
      SignalEventOf(Front(evaluations), e);
      assert evaluations == Front(evaluations) + [Last(evaluations)];
      if e in SignalEvents(evaluations) && e !in SignalEvents(Front(evaluations)) {
        assert evaluations[|evaluations| - 1].signal.Some?;
      }
    }
  }

  // What an evaluation says about its signal.
  ghost predicate Consistent(v: Evaluation, f: FeatureSnapshot) {
    && v.snapshot == f && v.decided == f.available
    && (v.signal.Some? ==>
          && v.signal.value.instrument == f.instrument && v.signal.value.available == f.available
          && v.signal.value.featureObserved == f.observed
          && (v.signal.value.kind == LongEntry ==> v.state == Flat)
          && (v.signal.value.kind == LongExit ==> v.state == Holding))
  }

  lemma DecideConsistent(config: MeanReversionConfig, f: FeatureSnapshot, state: LifecycleState)
    ensures Consistent(Decide(config, f, state), f) && Decide(config, f, state).state == state
  {
  }

  lemma EvaluationFacts(input: SimulationInput, ds: seq<FeatureSnapshot>, k: nat)
    requires AllConfigured(input, ds) && k < |ds|
    ensures Consistent(Evaluations(input, ds)[k], ds[k])
    ensures Evaluations(input, ds)[k].state
         == StateBefore(input, SignalEvents(Evaluations(input, ds)[..k]), ds[k].available, ds[k].instrument)
  {
    EvaluationAt(input, ds, k);
    DecideConsistent(ConfigFor(input.configs, ds[k].instrument), ds[k],
                     StateBefore(input, SignalEvents(Evaluations(input, ds)[..k]), ds[k].available, ds[k].instrument));
  }

  // A signal event belongs to exactly one decision.
  lemma SignalDecision(input: SimulationInput, ds: seq<FeatureSnapshot>, e: Event) returns (k: nat)
    requires AllConfigured(input, ds)
    requires e in SignalEvents(Evaluations(input, ds))
    ensures k < |ds| && ds[k].available == e.time && ds[k].instrument == e.instrument
    ensures Evaluations(input, ds)[k].signal.Some? && e == SignalEvent(Evaluations(input, ds)[k].signal.value)
    ensures e.Valid() && e.kind == SignalAvailable
  {
    var evaluations := Evaluations(input, ds);
    SignalEventOf(evaluations, e);
    k :| 0 <= k < |evaluations| && evaluations[k].signal.Some? && e == SignalEvent(evaluations[k].signal.value);
    EvaluationFacts(input, ds, k);
  }

  // Signals of one instrument never share an instant.
  ghost predicate OneSignalPerInstant(es: seq<Event>) {
    forall a, b ::
      (a in es && b in es && a.kind == SignalAvailable && b.kind == SignalAvailable
       && a.time == b.time && a.instrument == b.instrument) ==> a == b
  }

  lemma NoConflicts(es: seq<Event>)
    requires OneSignalPerInstant(es)
    ensures Conflicts(es) == {}
  {
  }

  lemma SignalsSeparate(input: SimulationInput, ds: seq<FeatureSnapshot>)
    requires AllConfigured(input, ds)
    requires OnePerInstant(ds)
    ensures OneSignalPerInstant(SignalEvents(Evaluations(input, ds)))
    ensures ValidEvents(SignalEvents(Evaluations(input, ds)))
  {
    var es := SignalEvents(Evaluations(input, ds));
    forall a, b | a in es && b in es && a.time == b.time && a.instrument == b.instrument ensures a == b {
      var i := SignalDecision(input, ds, a);
      var j := SignalDecision(input, ds, b);
      assert i == j;
    }
    forall e | e in es ensures e.Valid() {
      var _ := SignalDecision(input, ds, e);
    }
  }

  // ----- the events of a whole run -----

  ghost predicate Accepted(input: SimulationInput) {
    input.Valid() && ValidBars(input.bars, input.metadata)
  }

  ghost function RunDecisions(input: SimulationInput): seq<FeatureSnapshot>
    requires input.Valid()
    ensures AllConfigured(input, RunDecisions(input))
  {
    FeaturesConfigured(input);
    Decisions(Features(input))
  }

  ghost function RunOrder(input: SimulationInput): seq<Event>
    requires input.Valid()
  {
    Sort(EventKey(), RunEvents(input))
  }

  lemma RunEventKinds(input: SimulationInput, e: Event)
    requires input.Valid() && e in RunEvents(input)
    ensures e.kind == SignalAvailable <==> e in SignalEvents(RunEvaluations(input))
    ensures e.kind == ExecutionOpportunity <==> e in OpportunityEvents(input)
    ensures e.Valid()
  {
    var market := MarketEvents(input.bars);
    var features := FeatureEvents(Features(input));
    var signals := SignalEvents(RunEvaluations(input));
    assert e in market || e in features || e in signals || e in OpportunityEvents(input);
    forall x | x in signals ensures x.kind == SignalAvailable && x.Valid() {
      var _ := SignalDecision(input, RunDecisions(input), x);
    }
  }

  lemma RunEventsSeparate(input: SimulationInput)
    requires Accepted(input)
    ensures OneSignalPerInstant(RunEvents(input)) && ValidEvents(RunEvents(input))
    ensures OneSignalPerInstant(RunOrder(input)) && ValidEvents(RunOrder(input))
    ensures RulesFor(RunOrder(input), Some(input.execution), CanonicalQuotes(input)) == RunRules(input)
  {
    DecisionsUnique(input);
    SignalsSeparate(input, RunDecisions(input));
    SortElements(EventKey(), RunEvents(input));
    forall e | e in RunEvents(input) {
      RunEventKinds(input, e);
    }
    NoConflicts(RunOrder(input));
  }

  lemma FilterFour(p: Event -> bool, a: seq<Event>, b: seq<Event>, c: seq<Event>, d: seq<Event>)
    ensures Filter(p, a + b + c + d) == Filter(p, a) + Filter(p, b) + Filter(p, c) + Filter(p, d)
  {
    FilterAppend(p, a + b + c, d);
    FilterAppend(p, a + b, c);
    FilterAppend(p, a, b);
  }

  lemma SignalKinds(input: SimulationInput, evaluations: seq<Evaluation>)
    ensures forall e :: e in SignalEvents(evaluations) ==> e.kind == SignalAvailable
  {
    forall e | e in SignalEvents(evaluations) ensures e.kind == SignalAvailable {
      SignalEventOf(evaluations, e);
    }
  }

  lemma ObservationsDoNotMove(time: int, bars: seq<Bar>, features: seq<FeatureSnapshot>)
    ensures Filter(MovesBefore(time), MarketEvents(bars)) == []
    ensures Filter(MovesBefore(time), FeatureEvents(features)) == []
  {
    FilterNone(MovesBefore(time), MarketEvents(bars));
    FilterNone(MovesBefore(time), FeatureEvents(features));
  }

  lemma ProposalsMove(time: int, es: seq<Event>)
    requires forall e :: e in es ==> Moves(e)
    ensures Filter(MovesBefore(time), es) == Filter(Before(time), es)
  {
    FilterSame(MovesBefore(time), Before(time), es);
  }

  // Market and feature events have no part in what moves an instrument.
  lemma MovingEvents(
    time: int, bars: seq<Bar>, features: seq<FeatureSnapshot>, signals: seq<Event>, opportunities: seq<Event>)
    requires forall e :: e in signals ==> e.kind == SignalAvailable
    requires forall e :: e in opportunities ==> e.kind == ExecutionOpportunity
    ensures Filter(MovesBefore(time), AllEvents(bars, features, signals, opportunities))
         == Filter(Before(time), signals) + Filter(Before(time), opportunities)
  {
    ObservationsDoNotMove(time, bars, features);
    FilterFour(MovesBefore(time), MarketEvents(bars), FeatureEvents(features), signals, opportunities);
    ProposalsMove(time, signals);
    ProposalsMove(time, opportunities);
    assert [] + [] + Filter(Before(time), signals) == Filter(Before(time), signals);
  }

  lemma MovingPart(input: SimulationInput, time: int)
    requires input.Valid()
    ensures Filter(MovesBefore(time), RunEvents(input))
         == PriorEvents(input, SignalEvents(RunEvaluations(input)), time)
  {
    SignalKinds(input, RunEvaluations(input));
    MovingEvents(time, input.bars, Features(input), SignalEvents(RunEvaluations(input)), OpportunityEvents(input));
  }

  // Signals of later decisions come no earlier.
  lemma LaterSignal(evaluations: seq<Evaluation>, ds: seq<FeatureSnapshot>, k: nat, e: Event)
    requires |evaluations| == |ds| && k < |ds|
    requires forall i :: 0 <= i < |ds| ==> Consistent(evaluations[i], ds[i])
    requires forall i :: k < i < |ds| ==> ds[k].available <= ds[i].available
    requires e in SignalEvents(evaluations[k..])
    ensures e.time >= ds[k].available
  {
    SignalEventOf(evaluations[k..], e);
    var j :| 0 <= j < |evaluations[k..]| && evaluations[k..][j].signal.Some?
             && e == SignalEvent(evaluations[k..][j].signal.value);
    assert Consistent(evaluations[k + j], ds[k + j]);
  }

  lemma AllConsistent(input: SimulationInput, ds: seq<FeatureSnapshot>)
    requires AllConfigured(input, ds)
    ensures forall i :: 0 <= i < |ds| ==> Consistent(Evaluations(input, ds)[i], ds[i])
  {
    forall i | 0 <= i < |ds| ensures Consistent(Evaluations(input, ds)[i], ds[i]) {
      EvaluationFacts(input, ds, i);
    }
  }

  lemma SignalsBefore(evaluations: seq<Evaluation>, ds: seq<FeatureSnapshot>, k: nat)
    requires |evaluations| == |ds| && k < |ds|
    requires forall i :: 0 <= i < |ds| ==> Consistent(evaluations[i], ds[i])
    requires forall i :: k < i < |ds| ==> ds[k].available <= ds[i].available
    ensures Filter(Before(ds[k].available), SignalEvents(evaluations))
         == Filter(Before(ds[k].available), SignalEvents(evaluations[..k]))
  {
    var time := ds[k].available;
    var earlier, later := evaluations[..k], evaluations[k..];
    assert evaluations == earlier + later;
    SignalEventsAppend(earlier, later);
    FilterAppend(Before(time), SignalEvents(earlier), SignalEvents(later));
    forall e | e in SignalEvents(later) ensures e.time >= time {
      LaterSignal(evaluations, ds, k, e);
    }
    FilterNone(Before(time), SignalEvents(later));
  }

  // Signals proposed at or after a decision cannot have preceded it.
  lemma SignalsSoFar(input: SimulationInput, k: nat)
    requires Accepted(input) && k < |RunDecisions(input)|
    ensures var time := RunDecisions(input)[k].available;
            Filter(Before(time), SignalEvents(RunEvaluations(input)))
            == Filter(Before(time), SignalEvents(RunEvaluations(input)[..k]))
  {
    DecisionsUnique(input);
    AllConsistent(input, RunDecisions(input));
    SignalsBefore(RunEvaluations(input), RunDecisions(input), k);
  }

  // The replayed events are the moving events of the whole run before the decision.
  lemma ReplayedEvents(input: SimulationInput, k: nat)
    requires Accepted(input) && k < |RunDecisions(input)|
    ensures var time := RunDecisions(input)[k].available;
            && var prior := PriorEvents(input, SignalEvents(RunEvaluations(input)[..k]), time);
            && prior == Filter(MovesBefore(time), RunEvents(input))
            && Sort(EventKey(), prior) == Filter(MovesBefore(time), RunOrder(input))
            && RulesFor(Sort(EventKey(), prior), Some(input.execution), CanonicalQuotes(input)) == RunRules(input)
  {
    var time := RunDecisions(input)[k].available;
    SignalsSoFar(input, k);
    MovingPart(input, time);
    SortFilter(EventKey(), MovesBefore(time), RunEvents(input));
    RunEventsSeparate(input);
    assert OneSignalPerInstant(Filter(MovesBefore(time), RunOrder(input)));
    NoConflicts(Filter(MovesBefore(time), RunOrder(input)));
  }

  // Each evaluation's replayed state is the state of the single final pass
  // just before that instant.
  lemma ReplayEqualsSinglePass(input: SimulationInput, k: nat)
    requires Accepted(input) && k < |RunEvaluations(input)|
    ensures var v := RunEvaluations(input)[k];
            v.state == SlotAfter(RunRules(input), Filter(Before(v.decided), RunOrder(input)), v.snapshot.instrument).state
  {
    var f := RunDecisions(input)[k];
    EvaluationFacts(input, RunDecisions(input), k);
    ReplayedEvents(input, k);
    var earlier := Filter(Before(f.available), RunOrder(input));
    FilterFilter(MovesOnly(), Before(f.available), MovesBefore(f.available), RunOrder(input));
    SlotFilter(RunRules(input), MovesOnly(), earlier, f.instrument);
  }

  // ----- what replay means for the proposals -----

  // Everything from a signal on comes no earlier than it.
  lemma OrderAround(es: seq<Event>, i: nat, j: nat)
    requires Sorted(EventKey(), es) && i < j < |es|
    ensures es[i].time <= es[j].time
    ensures es[i].time == es[j].time ==> Precedence(es[i].kind) <= Precedence(es[j].kind)
  {
    EarlierInOrder(es[i], es[j]);
  }

  lemma EarlierMove(es: seq<Event>, i: nat, x: Event)
    requires Sorted(EventKey(), es) && UniqueIds(es) && OneSignalPerInstant(es)
    requires i < |es| && es[i].kind == SignalAvailable
    requires x in es[..i] && x.instrument == es[i].instrument && Moves(x)
    ensures x.time < es[i].time
  {
    var j :| 0 <= j < i && es[j] == x;
    OrderAround(es, j, i);
    assert es[j] in es && es[i] in es && es[j].id != es[i].id;
  }

  lemma NothingEarlierFrom(es: seq<Event>, i: nat)
    requires Sorted(EventKey(), es) && i < |es|
    ensures Filter(Before(es[i].time), es) == Filter(Before(es[i].time), es[..i])
  {
    assert es == es[..i] + es[i..];
    FilterAppend(Before(es[i].time), es[..i], es[i..]);
    NoneEarlier(es, i);
    FilterNone(Before(es[i].time), es[i..]);
  }

  lemma NoneEarlier(es: seq<Event>, i: nat)
    requires Sorted(EventKey(), es) && i < |es|
    ensures forall x :: x in es[i..] ==> x.time >= es[i].time
  {
    forall x | x in es[i..] ensures x.time >= es[i].time {
      var j :| i <= j < |es| && es[j] == x;
      if i < j {
        OrderAround(es, i, j);
      }
    }
  }

  // Before a signal, only strictly earlier events have moved its instrument.
  lemma SlotBeforeSignal(rules: Rules, es: seq<Event>, i: nat)
    requires Sorted(EventKey(), es) && UniqueIds(es) && OneSignalPerInstant(es)
    requires i < |es| && es[i].kind == SignalAvailable
    ensures SlotAfter(rules, es[..i], es[i].instrument)
         == SlotAfter(rules, Filter(Before(es[i].time), es), es[i].instrument)
  {
    forall x | x in es[..i] && x.instrument == es[i].instrument && Moves(x) ensures x.time < es[i].time {
      EarlierMove(es, i, x);
    }
    SlotFilter(rules, Before(es[i].time), es[..i], es[i].instrument);
    NothingEarlierFrom(es, i);
  }

  // An event at index i of the order creates an action.
  ghost predicate Creates(rules: Rules, es: seq<Event>, i: nat)
    requires i < |es|
  {
    && es[i].signal.Some?
    && es[i].id !in rules.conflicts
    && Meet(es[i].signal.value.kind, SlotAfter(rules, es[..i], es[i].instrument).state).0 == ActionCreated
  }

  lemma RunOrderFacts(input: SimulationInput)
    requires Accepted(input) && UniqueIds(RunEvents(input))
    ensures Sorted(EventKey(), RunOrder(input)) && UniqueIds(RunOrder(input))
    ensures OneSignalPerInstant(RunOrder(input)) && ValidEvents(RunOrder(input))
    ensures forall e :: e in RunOrder(input) <==> e in RunEvents(input)
  {
    RunEventsSeparate(input);
    SortSorted(EventKey(), RunEvents(input));
    SortElements(EventKey(), RunEvents(input));
    UniqueIdsPermute(RunEvents(input), RunOrder(input));
  }

  // The state before a signal is the state its evaluation saw.
  lemma SignalMeetsItsState(input: SimulationInput, e: Event)
    requires Accepted(input) && e in RunEvents(input) && e.kind == SignalAvailable
    ensures e.signal.Some?
    ensures var state := SlotAfter(RunRules(input), Filter(Before(e.time), RunOrder(input)), e.instrument).state;
            Meet(e.signal.value.kind, state).0 == ActionCreated
  {
    RunEventKinds(input, e);
    var k := SignalDecision(input, RunDecisions(input), e);
    EvaluationFacts(input, RunDecisions(input), k);
    ConsistentMeets(RunEvaluations(input)[k], RunDecisions(input)[k]);
    ReplayEqualsSinglePass(input, k);
  }

  lemma ConsistentMeets(v: Evaluation, f: FeatureSnapshot)
    requires Consistent(v, f) && v.signal.Some?
    ensures Meet(v.signal.value.kind, v.state).0 == ActionCreated
    ensures SignalEvent(v.signal.value).time == v.decided && SignalEvent(v.signal.value).instrument == v.snapshot.instrument
  {
  }

  // Every proposed signal meets the state it was decided on, and creates its action.
  lemma EverySignalCreates(input: SimulationInput, i: nat)
    requires Accepted(input) && UniqueIds(RunEvents(input))
    requires i < |RunOrder(input)| && RunOrder(input)[i].kind == SignalAvailable
    ensures Creates(RunRules(input), RunOrder(input), i)
    ensures LastTurn(RunRules(input), RunOrder(input)[..i + 1]).Ok?
    ensures LastTurn(RunRules(input), RunOrder(input)[..i + 1]).value.record.decision == ActionCreated
  {
    RunOrderFacts(input);
    SignalMeetsItsState(input, RunOrder(input)[i]);
    SlotBeforeSignal(RunRules(input), RunOrder(input), i);
    CreatingTurn(RunRules(input), RunOrder(input), i);
  }

  lemma CreatingTurn(rules: Rules, es: seq<Event>, i: nat)
    requires i < |es| && es[i].kind == SignalAvailable && Creates(rules, es, i)
    ensures LastTurn(rules, es[..i + 1]).Ok?
    ensures LastTurn(rules, es[..i + 1]).value.record.decision == ActionCreated
  {
    assert Front(es[..i + 1]) == es[..i];
  }

  function ProposalOf(instrument: Instrument): Event -> bool {
    (e: Event) => e.kind == SignalAvailable && e.instrument == instrument
  }

  ghost predicate Alternates(signals: seq<Event>) {
    forall k :: 0 <= k < |signals| ==>
      signals[k].signal.Some? && signals[k].signal.value.kind == if k % 2 == 0 then LongEntry else LongExit
  }

  predicate EntryOpen(s: InstrumentState) {
    s.state == PendingEntry || s.state == Holding
  }

  lemma AdvanceParity(rules: Rules, s: InstrumentState, e: Event)
    ensures e.kind != SignalAvailable ==> EntryOpen(Advance(rules, s, e)) == EntryOpen(s)
    ensures e.kind == SignalAvailable && e.signal.Some? && e.id !in rules.conflicts
            && Meet(e.signal.value.kind, s.state).0 == ActionCreated ==>
              EntryOpen(Advance(rules, s, e)) != EntryOpen(s)
              && e.signal.value.kind == if EntryOpen(s) then LongExit else LongEntry
  {
  }

  ghost predicate AllCreate(rules: Rules, es: seq<Event>, instrument: Instrument) {
    forall i :: 0 <= i < |es| && ProposalOf(instrument)(es[i]) ==> Creates(rules, es, i)
  }

  lemma AllCreateFront(rules: Rules, es: seq<Event>, instrument: Instrument)
    requires es != [] && AllCreate(rules, es, instrument)
    ensures AllCreate(rules, Front(es), instrument)
  {
    var front := Front(es);
    forall i | 0 <= i < |front| && ProposalOf(instrument)(front[i]) ensures Creates(rules, front, i) {
      assert Creates(rules, es, i) && front[..i] == es[..i];
    }
  }

  predicate Odd(signals: seq<Event>) {
    signals != [] && !Odd(Front(signals))
  }

  lemma {:induction false} OddLength(signals: seq<Event>)
    ensures Odd(signals) <==> |signals| % 2 == 1
  {
    if signals != [] {
      OddLength(Front(signals));
    }
  }

  lemma AlternatesSnoc(signals: seq<Event>, e: Event)
    requires Alternates(signals) && e.signal.Some?
    requires e.signal.value.kind == if Odd(signals) then LongExit else LongEntry
    ensures Alternates(signals + [e]) && Odd(signals + [e]) != Odd(signals)
  {
    OddLength(signals);
    assert Front(signals + [e]) == signals;
  }

  // When every proposal creates an action, proposals alternate and their
  // number tells whether an entry is open.
  lemma {:induction false} CreatingAlternates(rules: Rules, es: seq<Event>, instrument: Instrument)
    requires AllCreate(rules, es, instrument)
    ensures Alternates(Filter(ProposalOf(instrument), es))
    ensures Odd(Filter(ProposalOf(instrument), es)) <==> EntryOpen(SlotAfter(rules, es, instrument))
  {
    if es != [] {
      var front, e := Front(es), Last(es);
      AllCreateFront(rules, es, instrument);
      CreatingAlternates(rules, front, instrument);
      var before := SlotAfter(rules, front, instrument);
      var signals := Filter(ProposalOf(instrument), front);
      AdvanceParity(rules, before, e);
      if ProposalOf(instrument)(e) {
        assert Creates(rules, es, |front|) && es[..|front|] == front;
        AlternatesSnoc(signals, e);
        assert Filter(ProposalOf(instrument), es) == signals + [e];
        assert EntryOpen(SlotAfter(rules, es, instrument)) != EntryOpen(before);
      } else {
        assert Filter(ProposalOf(instrument), es) == signals;
        assert EntryOpen(SlotAfter(rules, es, instrument)) == EntryOpen(before);
      }
    }
  }

  // The proposals of every instrument alternate entry, exit, starting with an entry.
  lemma ProposalsAlternate(input: SimulationInput, instrument: Instrument)
    requires Accepted(input) && UniqueIds(RunEvents(input))
    ensures Alternates(Filter(ProposalOf(instrument), RunOrder(input)))
  {
    forall i | 0 <= i < |RunOrder(input)| && ProposalOf(instrument)(RunOrder(input)[i])
      ensures Creates(RunRules(input), RunOrder(input), i)
    {
      EverySignalCreates(input, i);
    }
    CreatingAlternates(RunRules(input), RunOrder(input), instrument);
  }
}
