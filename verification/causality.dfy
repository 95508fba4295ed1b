// Appending data that becomes available only after a time changes nothing up to it.
module Causality {
  import opened Collections
  import opened Order
  import opened Domain
  import opened Kernel
  import opened Events
  import opened Execution
  import opened Lifecycle
  import opened Runner
  import opened Replay
  import opened Trace
  import opened Run

  function FeatureUpTo(time: int): FeatureSnapshot -> bool {
    (f: FeatureSnapshot) => f.available <= time
  }

  function QuoteUpTo(time: int): Quote -> bool {
    (q: Quote) => q.available <= time
  }

  function OpportunityUpTo(time: int): Opportunity -> bool {
    (o: Opportunity) => o.time <= time
  }

  function EvaluationUpTo(time: int): Evaluation -> bool {
    (v: Evaluation) => v.decided <= time
  }

  function RecordUpTo(time: int): Record -> bool {
    (r: Record) => r.time <= time
  }

  // b extends a with a suffix of bars and with quotes and opportunities, all after the time.
  ghost predicate ExtendsAfter(a: SimulationInput, b: SimulationInput, time: int) {
    && a.metadata.dataset == b.metadata.dataset
    && a.configs == b.configs && a.execution == b.execution
    && a.bars <= b.bars
    && (forall i :: |a.bars| <= i < |b.bars| ==> b.bars[i].available > time)
    && Filter(QuoteUpTo(time), a.quotes) == Filter(QuoteUpTo(time), b.quotes)
    && Filter(OpportunityUpTo(time), a.opportunities) == Filter(OpportunityUpTo(time), b.opportunities)
  }

  // ----- features -----

  lemma ScoresSuffix(bars: seq<Bar>, more: seq<Bar>, time: int, window: nat, dataset: string)
    requires window > 0 && forall i :: 0 <= i < |more| ==> more[i].available > time
    ensures Filter(FeatureUpTo(time), ZScores(bars + more, window, dataset))
         == Filter(FeatureUpTo(time), ZScores(bars, window, dataset))
  {
    var x, y := ZScores(bars, window, dataset), ZScores(bars + more, window, dataset);
    ZScoresAppend(bars, more, window, dataset);
    assert y == x + y[|x|..];
    SuffixLater(bars, more, y, time);
    LaterDropped(x, y[|x|..], time);
  }

  lemma SuffixLater(bars: seq<Bar>, more: seq<Bar>, scores: seq<FeatureSnapshot>, time: int)
    requires |scores| == |bars| + |more| && forall i :: 0 <= i < |more| ==> more[i].available > time
    requires forall i :: |bars| <= i < |bars + more| ==> scores[i].available >= (bars + more)[i].available
    ensures forall i :: 0 <= i < |scores[|bars|..]| ==> scores[|bars|..][i].available > time
  {
    forall i | 0 <= i < |more| ensures scores[|bars|..][i].available > time {
      assert (bars + more)[|bars| + i] == more[i];
    }
  }

  lemma LaterDropped(x: seq<FeatureSnapshot>, later: seq<FeatureSnapshot>, time: int)
    requires forall i :: 0 <= i < |later| ==> later[i].available > time
    ensures Filter(FeatureUpTo(time), x + later) == Filter(FeatureUpTo(time), x)
  {
    FilterAppend(FeatureUpTo(time), x, later);
    FilterNone(FeatureUpTo(time), later);
  }

  lemma ScoresUpTo(a: SimulationInput, b: SimulationInput, time: int, window: nat)
    requires ExtendsAfter(a, b, time) && window > 0
    ensures Filter(FeatureUpTo(time), ZScores(a.bars, window, a.metadata.dataset))
         == Filter(FeatureUpTo(time), ZScores(b.bars, window, b.metadata.dataset))
  {
    var more := b.bars[|a.bars|..];
    assert b.bars == a.bars + more;
    ScoresSuffix(a.bars, more, time, window, a.metadata.dataset);
  }

  lemma {:induction false} ConfigSnapshotsUpTo(
    a: SimulationInput, b: SimulationInput, time: int, configs: seq<MeanReversionConfig>)
    requires ExtendsAfter(a, b, time) && forall c :: c in configs ==> c.window > 0
    ensures Filter(FeatureUpTo(time), ConfigSnapshots(a.bars, configs, a.metadata.dataset))
         == Filter(FeatureUpTo(time), ConfigSnapshots(b.bars, configs, b.metadata.dataset))
  {
    if configs != [] {
      assert configs == Front(configs) + [Last(configs)];
      var c := Last(configs);
      var p, q := FeatureUpTo(time), SnapshotFor(c.instrument);
      ConfigSnapshotsUpTo(a, b, time, Front(configs));
      var x := ZScores(a.bars, c.window, a.metadata.dataset);
      var y := ZScores(b.bars, c.window, b.metadata.dataset);
      ScoresUpTo(a, b, time, c.window);
      FilterCommute(p, q, x);
      FilterCommute(p, q, y);
      FilterAppend(p, ConfigSnapshots(a.bars, Front(configs), a.metadata.dataset), Filter(q, x));
      FilterAppend(p, ConfigSnapshots(b.bars, Front(configs), b.metadata.dataset), Filter(q, y));
    }
  }

  lemma FeaturesUpTo(a: SimulationInput, b: SimulationInput, time: int)
    requires a.Valid() && b.Valid() && ExtendsAfter(a, b, time)
    ensures Filter(FeatureUpTo(time), Features(a)) == Filter(FeatureUpTo(time), Features(b))
  {
    ConfigSnapshotsUpTo(a, b, time, a.configs);
    SortFilter(FeatureKey(), FeatureUpTo(time), ConfigSnapshots(a.bars, a.configs, a.metadata.dataset));
    SortFilter(FeatureKey(), FeatureUpTo(time), ConfigSnapshots(b.bars, b.configs, b.metadata.dataset));
  }

  // ----- decisions -----

  lemma DecisionsFilter(features: seq<FeatureSnapshot>, time: int)
    ensures Filter(FeatureUpTo(time), Decisions(features)) == Decisions(Filter(FeatureUpTo(time), features))
  {
    var p := FeatureUpTo(time);
    var kept := Filter(p, features);
    FilterCommute(p, Newest(features), features);
    FilterSame(Newest(features), Newest(kept), kept);
  }

  // The decisions up to a time come first.
  lemma DecisionsPrefix(input: SimulationInput, time: int) returns (n: nat)
    requires Accepted(input)
    ensures n <= |RunDecisions(input)|
    ensures RunDecisions(input)[..n] == Filter(FeatureUpTo(time), RunDecisions(input))
    ensures forall i :: 0 <= i < |RunDecisions(input)| ==> (RunDecisions(input)[i].available <= time <==> i < n)
  {
    var ds := RunDecisions(input);
    FeaturesUnique(input);
    FilterSorted(FeatureKey(), Newest(Features(input)), Features(input));
    var kept, later := Filter(FeatureUpTo(time), ds), Filter(Not(FeatureUpTo(time)), ds);
    forall f, g | f in ds && g in ds && FeatureUpTo(time)(g) && KeyLe(FeatureKey()(f), FeatureKey()(g))
      ensures FeatureUpTo(time)(f)
    {
      EarlierFeature(f, g);
    }
    SortedSplit(FeatureKey(), FeatureUpTo(time), ds);
    n := |kept|;
    forall i | 0 <= i < |ds| ensures ds[i].available <= time <==> i < n {
      if i < n {
        assert ds[i] == kept[i] && kept[i] in kept;
      } else {
        assert ds[i] == later[i - n] && later[i - n] in later;
      }
    }
  }

  lemma SameDecisions(a: SimulationInput, b: SimulationInput, time: int)
    requires a.Valid() && b.Valid() && ExtendsAfter(a, b, time)
    ensures Filter(FeatureUpTo(time), RunDecisions(a)) == Filter(FeatureUpTo(time), RunDecisions(b))
  {
    FeaturesUpTo(a, b, time);
    DecisionsFilter(Features(a), time);
    DecisionsFilter(Features(b), time);
  }

  // ----- replayed states -----

  function OpportunityEventOf(): Opportunity -> Event {
    (o: Opportunity) => OpportunityEvent(o)
  }

  lemma {:induction false} OpportunitiesUpTo(os: seq<Opportunity>, time: int)
    ensures Filter(UpTo(time), Map(OpportunityEventOf(), os))
         == Map(OpportunityEventOf(), Filter(OpportunityUpTo(time), os))
  {
    if os != [] {
      OpportunitiesUpTo(Front(os), time);
      assert Front(Map(OpportunityEventOf(), os)) == Map(OpportunityEventOf(), Front(os));
    }
  }

  lemma SameOpportunities(a: SimulationInput, b: SimulationInput, time: int)
    requires ExtendsAfter(a, b, time)
    ensures Filter(UpTo(time), OpportunityEvents(a)) == Filter(UpTo(time), OpportunityEvents(b))
  {
    assert OpportunityEvents(a) == Map(OpportunityEventOf(), a.opportunities);
    assert OpportunityEvents(b) == Map(OpportunityEventOf(), b.opportunities);
    OpportunitiesUpTo(a.opportunities, time);
    OpportunitiesUpTo(b.opportunities, time);
  }

  // Before a decision up to the time, the same opportunities are replayed.
  lemma SamePriorEvents(a: SimulationInput, b: SimulationInput, time: int, signals: seq<Event>, at: int)
    requires ExtendsAfter(a, b, time) && at <= time
    ensures PriorEvents(a, signals, at) == PriorEvents(b, signals, at)
  {
    SameOpportunities(a, b, time);
    FilterFilter(Before(at), UpTo(time), Before(at), OpportunityEvents(a));
    FilterFilter(Before(at), UpTo(time), Before(at), OpportunityEvents(b));
  }

  // Attempts up to the time see the same legal quotes.
  lemma SameLegalQuotes(a: SimulationInput, b: SimulationInput, time: int, instrument: Instrument, at: int)
    requires ExtendsAfter(a, b, time) && at <= time
    ensures Filter(Legal(instrument, at), CanonicalQuotes(a)) == Filter(Legal(instrument, at), CanonicalQuotes(b))
  {
    var p := Legal(instrument, at);
    FilterFilter(p, QuoteUpTo(time), p, a.quotes);
    FilterFilter(p, QuoteUpTo(time), p, b.quotes);
    SortFilter(QuoteKey(), p, a.quotes);
    SortFilter(QuoteKey(), p, b.quotes);
  }

  lemma SameStateBefore(
    a: SimulationInput, b: SimulationInput, time: int, signals: seq<Event>, at: int, instrument: Instrument)
    requires ExtendsAfter(a, b, time) && at <= time && ValidEvents(signals)
    ensures StateBefore(a, signals, at, instrument) == StateBefore(b, signals, at, instrument)
  {
    SamePriorEvents(a, b, time, signals, at);
    var prior := PriorEvents(a, signals, at);
    var ordered := Sort(EventKey(), prior);
    SortElements(EventKey(), prior);
    var x := RulesFor(ordered, Some(a.execution), CanonicalQuotes(a));
    var y := RulesFor(ordered, Some(b.execution), CanonicalQuotes(b));
    forall e | e in ordered ensures e.Valid() && Agree(x, y, e) {
      SameLegalQuotes(a, b, time, e.instrument, e.time);
    }
    SlotAgree(x, y, ordered, instrument);
  }

  // ----- evaluations -----

  lemma {:induction false} SameEvaluations(a: SimulationInput, b: SimulationInput, time: int, ds: seq<FeatureSnapshot>)
    requires ExtendsAfter(a, b, time) && AllConfigured(a, ds)
    requires forall f :: f in ds ==> f.available <= time
    ensures Evaluations(a, ds) == Evaluations(b, ds)
  {
    if ds != [] {
      assert ds == Front(ds) + [Last(ds)];
      PrefixConfigured(a, ds, |ds| - 1);
      SameEvaluations(a, b, time, Front(ds));
      var signals := SignalEvents(Evaluations(a, Front(ds)));
      forall e | e in signals ensures e.Valid() {
        var _ := SignalDecision(a, Front(ds), e);
      }
      SameStateBefore(a, b, time, signals, Last(ds).available, Last(ds).instrument);
    }
  }

  // Evaluations up to the time are those of the first decisions.
  lemma EvaluationsUpTo(input: SimulationInput, time: int) returns (n: nat)
    requires Accepted(input)
    ensures n <= |RunDecisions(input)|
    ensures RunDecisions(input)[..n] == Filter(FeatureUpTo(time), RunDecisions(input))
    ensures Filter(EvaluationUpTo(time), RunEvaluations(input)) == RunEvaluations(input)[..n]
    ensures AllConfigured(input, RunDecisions(input)[..n])
    ensures RunEvaluations(input)[..n] == Evaluations(input, RunDecisions(input)[..n])
    ensures Filter(UpTo(time), SignalEvents(RunEvaluations(input))) == SignalEvents(RunEvaluations(input)[..n])
  {
    n := DecisionsPrefix(input, time);
    EvaluationsPrefix(input, RunDecisions(input), n);
    RunSplit(input, n, time);
    SplitEvaluations(RunEvaluations(input), n, time);
    SplitSignals(RunEvaluations(input), n, time);
  }

  lemma RunSplit(input: SimulationInput, n: nat, time: int)
    requires input.Valid() && n <= |RunDecisions(input)|
    requires forall i :: 0 <= i < |RunDecisions(input)| ==> (RunDecisions(input)[i].available <= time <==> i < n)
    ensures SplitAt(RunEvaluations(input), n, time)
  {
    AllConsistent(input, RunDecisions(input));
  }

  // Evaluations are split at n by the time, and signals carry their decision's time.
  ghost predicate SplitAt(all: seq<Evaluation>, n: nat, time: int) {
    && n <= |all|
    && forall i :: 0 <= i < |all| ==>
         && (all[i].decided <= time <==> i < n)
         && (all[i].signal.Some? ==> all[i].signal.value.available == all[i].decided)
  }

  lemma SplitEvaluations(all: seq<Evaluation>, n: nat, time: int)
    requires SplitAt(all, n, time)
    ensures Filter(EvaluationUpTo(time), all) == all[..n]
  {
    FilterByIndex(EvaluationUpTo(time), all, n);
  }

  lemma SplitSignals(all: seq<Evaluation>, n: nat, time: int)
    requires SplitAt(all, n, time)
    ensures Filter(UpTo(time), SignalEvents(all)) == SignalEvents(all[..n])
  {
    var earlier, later := all[..n], all[n..];
    assert all == earlier + later;
    SignalEventsAppend(earlier, later);
    FilterAppend(UpTo(time), SignalEvents(earlier), SignalEvents(later));
    forall e | e in SignalEvents(earlier) ensures e.time <= time {
      SignalEventOf(earlier, e);
      var i :| 0 <= i < |earlier| && earlier[i].signal.Some? && e == SignalEvent(earlier[i].signal.value);
      assert all[i] == earlier[i];
    }
    forall e | e in SignalEvents(later) ensures e.time > time {
      SignalEventOf(later, e);
      var i :| 0 <= i < |later| && later[i].signal.Some? && e == SignalEvent(later[i].signal.value);
      assert all[n + i] == later[i];
    }
    FilterAll(UpTo(time), SignalEvents(earlier));
    FilterNone(UpTo(time), SignalEvents(later));
  }

  // ----- the theorem -----

  lemma EventsUpTo(input: SimulationInput, time: int)
    requires input.Valid()
    ensures Filter(UpTo(time), RunOrder(input))
         == Sort(EventKey(), Filter(UpTo(time), MarketEvents(input.bars))
                             + Filter(UpTo(time), FeatureEvents(Features(input)))
                             + Filter(UpTo(time), SignalEvents(RunEvaluations(input)))
                             + Filter(UpTo(time), OpportunityEvents(input)))
  {
    SortFilter(EventKey(), UpTo(time), RunEvents(input));
    FilterFour(UpTo(time), MarketEvents(input.bars), FeatureEvents(Features(input)),
               SignalEvents(RunEvaluations(input)), OpportunityEvents(input));
  }

  lemma {:induction false} FeatureEventsUpTo(fs: seq<FeatureSnapshot>, time: int)
    ensures Filter(UpTo(time), FeatureEvents(fs)) == FeatureEvents(Filter(FeatureUpTo(time), fs))
  {
    if fs != [] {
      FeatureEventsUpTo(Front(fs), time);
      assert Front(FeatureEvents(fs)) == FeatureEvents(Front(fs));
    }
  }

  lemma SameMarketEvents(a: SimulationInput, b: SimulationInput, time: int)
    requires ExtendsAfter(a, b, time)
    ensures Filter(UpTo(time), MarketEvents(a.bars)) == Filter(UpTo(time), MarketEvents(b.bars))
  {
    var more := b.bars[|a.bars|..];
    assert b.bars == a.bars + more;
    forall i | 0 <= i < |more| ensures more[i].available > time {
      assert more[i] == b.bars[|a.bars| + i];
    }
    MoreMarketEvents(a.bars, more, time);
  }

  lemma MoreMarketEvents(bars: seq<Bar>, more: seq<Bar>, time: int)
    requires forall i :: 0 <= i < |more| ==> more[i].available > time
    ensures Filter(UpTo(time), MarketEvents(bars + more)) == Filter(UpTo(time), MarketEvents(bars))
  {
    MarketEventsAppend(bars, more);
    FilterAppend(UpTo(time), MarketEvents(bars), MarketEvents(more));
    LaterMarketEvents(more, time);
  }

  lemma MarketEventsAppend(bars: seq<Bar>, more: seq<Bar>)
    ensures MarketEvents(bars + more) == MarketEvents(bars) + MarketEvents(more)
  {
  }

  lemma LaterMarketEvents(bars: seq<Bar>, time: int)
    requires forall i :: 0 <= i < |bars| ==> bars[i].available > time
    ensures Filter(UpTo(time), MarketEvents(bars)) == []
  {
    forall e | e in MarketEvents(bars) ensures e.time > time {
      var i :| 0 <= i < |bars| && MarketEvents(bars)[i] == e;
    }
    FilterNone(UpTo(time), MarketEvents(bars));
  }

  // Features, evaluations and signals up to the time are unchanged.
  lemma DecisionsUnchanged(a: SimulationInput, b: SimulationInput, time: int)
    requires Accepted(a) && Accepted(b) && ExtendsAfter(a, b, time)
    ensures Filter(FeatureUpTo(time), Features(a)) == Filter(FeatureUpTo(time), Features(b))
    ensures Filter(EvaluationUpTo(time), RunEvaluations(a)) == Filter(EvaluationUpTo(time), RunEvaluations(b))
    ensures Filter(UpTo(time), SignalEvents(RunEvaluations(a))) == Filter(UpTo(time), SignalEvents(RunEvaluations(b)))
  {
    FeaturesUpTo(a, b, time);
    SameDecisions(a, b, time);
    var n := EvaluationsUpTo(a, time);
    var m := EvaluationsUpTo(b, time);
    SameEvaluations(a, b, time, RunDecisions(a)[..n]);
  }

  lemma OrderUnchanged(a: SimulationInput, b: SimulationInput, time: int)
    requires Accepted(a) && Accepted(b) && ExtendsAfter(a, b, time)
    ensures Filter(UpTo(time), RunOrder(a)) == Filter(UpTo(time), RunOrder(b))
  {
    DecisionsUnchanged(a, b, time);
    SameMarketEvents(a, b, time);
    SameOpportunities(a, b, time);
    FeatureEventsUpTo(Features(a), time);
    FeatureEventsUpTo(Features(b), time);
    EventsUpTo(a, time);
    EventsUpTo(b, time);
  }

  // The records up to a time are those of the events up to it.
  lemma RecordsUpTo(rules: Rules, es: seq<Event>, time: int)
    requires Sorted(EventKey(), es) && !Raises(rules, es)
    ensures !Raises(rules, Filter(UpTo(time), es))
    ensures Filter(RecordUpTo(time), Records(rules, es)) == Records(rules, Filter(UpTo(time), es))
  {
    UpToPrefix(es, time);
    var n := |Filter(UpTo(time), es)|;
    RecordsPrefix(rules, es, n);
    forall i | 0 <= i < |es| ensures RecordUpTo(time)(Records(rules, es)[i]) <==> i < n {
      RecordTime(rules, es, i);
      if i < n {
        assert es[i] == Filter(UpTo(time), es)[i] && es[i] in Filter(UpTo(time), es);
      }
    }
    FilterByIndex(RecordUpTo(time), Records(rules, es), n);
  }

  lemma RecordTime(rules: Rules, es: seq<Event>, i: nat)
    requires !Raises(rules, es) && i < |es|
    ensures |Records(rules, es)| == |es| && Records(rules, es)[i].time == es[i].time
  {
    RecordAt(rules, es, i);
    TurnTime(rules, SlotAfter(rules, Front(es[..i + 1]), es[i].instrument), es[i]);
  }

  lemma TurnTime(rules: Rules, s: InstrumentState, e: Event)
    ensures Next(rules, s, e).Ok? ==>
              && Next(rules, s, e).value.record.time == e.time
              && Next(rules, s, e).value.record.event == e.id
              && Next(rules, s, e).value.record.instrument == e.instrument
  {
  }

  // Append-only causality: every feature, evaluation, signal, lifecycle record
  // and execution outcome up to the time is the same in both runs.
  lemma AppendOnly(a: SimulationInput, b: SimulationInput, time: int)
    requires a.Valid() && b.Valid() && Succeeds(a) && Succeeds(b) && ExtendsAfter(a, b, time)
    ensures Filter(FeatureUpTo(time), Account(a).features) == Filter(FeatureUpTo(time), Account(b).features)
    ensures Filter(EvaluationUpTo(time), Account(a).evaluations) == Filter(EvaluationUpTo(time), Account(b).evaluations)
    ensures Filter(RecordUpTo(time), Account(a).lifecycle.records) == Filter(RecordUpTo(time), Account(b).lifecycle.records)
    ensures Outcomes(Filter(RecordUpTo(time), Account(a).lifecycle.records))
         == Outcomes(Filter(RecordUpTo(time), Account(b).lifecycle.records))
  {
    DecisionsUnchanged(a, b, time);
    OrderUnchanged(a, b, time);
    RunOrderFacts(a);
    RunOrderFacts(b);
    RecordsUpTo(RunRules(a), RunOrder(a), time);
    RecordsUpTo(RunRules(b), RunOrder(b), time);
    var es := Filter(UpTo(time), RunOrder(a));
    forall e | e in es ensures e.Valid() && Agree(RunRules(a), RunRules(b), e) {
      SameLegalQuotes(a, b, time, e.instrument, e.time);
    }
    RecordsAgree(RunRules(a), RunRules(b), es);
  }
}
