// Completed trades are the consecutive entry and exit fills of the trace.
module Pairs {
  import opened Collections
  import opened Order
  import opened Domain
  import opened Events
  import opened Execution
  import opened Lifecycle
  import opened Process
  import opened Economics
  import opened Runner
  import opened Replay
  import opened Run
  import opened Trades
  import opened Soundness
  import opened Documents
  import opened Coverage
  import opened Completeness

  // The outcomes the records of these events carry, in order.
  function TraceOutcomes(records: map<EventId, Record>, es: seq<Event>): seq<Outcome> {
    if es == [] then []
    else
      var id := Last(es).id;
      TraceOutcomes(records, Front(es)) +
      if id in records && records[id].outcome.Some? then [records[id].outcome.value] else []
  }

  function FilledFor(instrument: Instrument): Outcome -> bool {
    (o: Outcome) => o.status == Filled && o.attempt.instrument == instrument
  }

  function TradeOf(instrument: Instrument): TradeRecord -> bool {
    (x: TradeRecord) => x.Instrument() == instrument
  }

  function OpeningOf(instrument: Instrument): Opening -> bool {
    (o: Opening) => o.economic.outcome.attempt.instrument == instrument
  }

  function OpenFor(instrument: Instrument): EconomicExecution -> bool {
    (x: EconomicExecution) => x.outcome.attempt.instrument == instrument
  }

  function OutcomeOf(): EconomicExecution -> Outcome {
    (x: EconomicExecution) => x.outcome
  }

  // Entry and exit of every trade, trade by trade.
  function Legs(trades: seq<TradeRecord>): seq<Outcome> {
    if trades == [] then []
    else Legs(Front(trades)) + [Last(trades).entry.outcome, Last(trades).exit.outcome]
  }

  function OpenLegs(openings: seq<Opening>): seq<Outcome> {
    if openings == [] then [] else OpenLegs(Front(openings)) + [Last(openings).economic.outcome]
  }

  // Fills as the legs of trades, one after another, and then of at most one opening.
  ghost predicate PairedAs(fills: seq<Outcome>, trades: seq<TradeRecord>, openings: seq<Opening>) {
    fills == Legs(trades) + OpenLegs(openings) && |openings| <= 1
  }

  // The fills of an instrument so far, as its trades and its opening.
  ghost predicate Paired(fills: seq<Outcome>, w: Walked, instrument: Instrument) {
    PairedAs(fills, Filter(TradeOf(instrument), w.trades), Filter(OpeningOf(instrument), w.openings))
  }

  // An accepted event that carries a fill adds a trade or an opening.
  lemma FillGrows(result: SimulationResult, t: Tables, w: Walked, e: Event, next: Walked)
    requires TablesSound(t) && CheckEvent(result, t, w, e) == Ok(next)
    ensures e.id in t.records
    ensures t.records[e.id].outcome.Some? && t.records[e.id].outcome.value.status == Filled ==>
              |next.trades| == |w.trades| + 1 || |next.openings| == |w.openings| + 1
  {
    Stepped(result, t, w, e, next);
    var r := t.records[e.id];
    if r.outcome.Some? && r.outcome.value.status == Filled {
      if r.action.value.kind == Entry {
        var _ := EntryStep(result, t, w, e, r.outcome.value, next);
      } else {
        var _, _ := ExitStep(result, t, w, e, r.outcome.value, next);
      }
    }
  }

  lemma LegsSnoc(trades: seq<TradeRecord>, x: TradeRecord)
    ensures Legs(trades + [x]) == Legs(trades) + [x.entry.outcome, x.exit.outcome]
  {
    assert Front(trades + [x]) == trades;
  }

  lemma NoOpeningYet(w: Walked, instrument: Instrument)
    requires Linked(w) && StateOf(w.states, instrument).position.None?
    ensures Filter(OpeningOf(instrument), w.openings) == []
  {
    forall o | o in w.openings ensures !OpeningOf(instrument)(o) {
      assert Holds(w, o);
    }
    FilterNone(OpeningOf(instrument), w.openings);
  }

  lemma OneLeg(o: Opening)
    ensures OpenLegs([o]) == [o.economic.outcome]
  {
    assert Front([o]) == [];
  }

  lemma PairOpened(fills: seq<Outcome>, trades: seq<TradeRecord>, o: Opening)
    requires PairedAs(fills, trades, [])
    ensures PairedAs(fills + [o.economic.outcome], trades, [o])
  {
    OneLeg(o);
  }

  lemma PairClosed(
    fills: seq<Outcome>, trades: seq<TradeRecord>, before: seq<Opening>, o: Opening, after: seq<Opening>, x: TradeRecord)
    requires PairedAs(fills, trades, before + [o] + after) && x.entry == o.economic
    ensures PairedAs(fills + [x.exit.outcome], trades + [x], before + after)
  {
    OneLeg(o);
    LegsSnoc(trades, x);
    assert before + [o] + after == [o];
  }

  // The fill an outcome adds for an instrument.
  function FillBy(instrument: Instrument, o: Outcome): seq<Outcome> {
    if FilledFor(instrument)(o) then [o] else []
  }

  lemma PairedOpened(t: Tables, w: Walked, next: Walked, e: Event, o: Opening, fills: seq<Outcome>, instrument: Instrument)
    requires Paired(fills, w, instrument) && Linked(w) && Opened(t, w, next, e, o)
    ensures Paired(fills + FillBy(instrument, o.economic.outcome), next, instrument)
  {
    FilterSnoc(OpeningOf(instrument), w.openings, o);
    if instrument == e.instrument {
      NoOpeningYet(w, instrument);
      PairOpened(fills, Filter(TradeOf(instrument), w.trades), o);
    } else {
      assert fills + [] == fills;
    }
  }

  lemma {:induction false} FilterRemove<T(!new)>(p: T -> bool, s: seq<T>, k: nat)
    requires k < |s|
    ensures Filter(p, s) == Filter(p, s[..k]) + (if p(s[k]) then [s[k]] else []) + Filter(p, s[k + 1..])
    ensures Filter(p, s[..k] + s[k + 1..]) == Filter(p, s[..k]) + Filter(p, s[k + 1..])
  {
    assert s == s[..k] + [s[k]] + s[k + 1..];
    FilterAppend(p, s[..k] + [s[k]], s[k + 1..]);
    FilterSnoc(p, s[..k], s[k]);
    FilterAppend(p, s[..k], s[k + 1..]);
  }

  lemma PairedClosed(
    t: Tables, w: Walked, next: Walked, e: Event, k: nat, x: TradeRecord, fills: seq<Outcome>, instrument: Instrument)
    requires Paired(fills, w, instrument) && Closed(t, w, next, e, k, x)
    ensures Paired(fills + FillBy(instrument, x.exit.outcome), next, instrument)
  {
    FilterSnoc(TradeOf(instrument), w.trades, x);
    FilterRemove(OpeningOf(instrument), w.openings, k);
    if instrument == e.instrument {
      PairClosed(fills, Filter(TradeOf(instrument), w.trades), Filter(OpeningOf(instrument), w.openings[..k]),
                 w.openings[k], Filter(OpeningOf(instrument), w.openings[k + 1..]), x);
    } else {
      assert fills + [] == fills;
    }
  }

  lemma TraceSnoc(records: map<EventId, Record>, front: seq<Event>, e: Event, instrument: Instrument)
    requires e.id in records
    ensures Filter(FilledFor(instrument), TraceOutcomes(records, front + [e]))
         == Filter(FilledFor(instrument), TraceOutcomes(records, front))
            + if records[e.id].outcome.Some? then FillBy(instrument, records[e.id].outcome.value) else []
  {
    assert Front(front + [e]) == front;
    var before := TraceOutcomes(records, front);
    if records[e.id].outcome.Some? {
      FilterSnoc(FilledFor(instrument), before, records[e.id].outcome.value);
    } else {
      assert TraceOutcomes(records, front + [e]) == before;
    }
  }

  lemma QuietPaired(
    result: SimulationResult, t: Tables, w: Walked, e: Event, next: Walked, fills: seq<Outcome>, instrument: Instrument)
    requires TablesSound(t) && CheckEvent(result, t, w, e) == Ok(next) && e.id in t.records
    requires Paired(fills, w, instrument) && NoFill(t, w, next)
    ensures Paired(fills, next, instrument)
    ensures t.records[e.id].outcome.Some? ==> FillBy(instrument, t.records[e.id].outcome.value) == []
  {
    FillGrows(result, t, w, e, next);
  }

  lemma StepPaired(
    result: SimulationResult, t: Tables, w: Walked, e: Event, next: Walked, fills: seq<Outcome>, instrument: Instrument)
    requires TablesSound(t) && CheckEvent(result, t, w, e) == Ok(next) && e.id in t.records
    requires Paired(fills, w, instrument) && Linked(w)
    ensures Paired(fills + if t.records[e.id].outcome.Some? then FillBy(instrument, t.records[e.id].outcome.value) else [],
                   next, instrument)
  {
    StepCases(result, t, w, e, next);
    if NoFill(t, w, next) {
      QuietPaired(result, t, w, e, next, fills, instrument);
    } else if o :| Opened(t, w, next, e, o) {
      PairedOpened(t, w, next, e, o, fills, instrument);
    } else {
      var k: nat, x :| Closed(t, w, next, e, k, x);
      PairedClosed(t, w, next, e, k, x, fills, instrument);
    }
  }

  // At every moment of an accepted walk, the fills of an instrument so far are the legs of its
  // completed trades, one trade after another, and then at most one open entry.
  lemma {:induction false} WalkPaired(result: SimulationResult, t: Tables, es: seq<Event>, instrument: Instrument)
    requires TablesSound(t) && Walk(result, t, es).Ok? && Sorted(EventKey(), es)
    ensures Paired(Filter(FilledFor(instrument), TraceOutcomes(t.records, es)), Walk(result, t, es).value, instrument)
  {
    if es != [] {
      var front, e := Front(es), Last(es);
      FrontAndLast(es);
      WalkPaired(result, t, front, instrument);
      PairedSnoc(result, t, front, e, instrument);
    }
  }

  lemma PairedSnoc(result: SimulationResult, t: Tables, front: seq<Event>, e: Event, instrument: Instrument)
    requires TablesSound(t) && Walk(result, t, front + [e]).Ok? && Sorted(EventKey(), front)
    requires Walk(result, t, front).Ok?
    requires Paired(Filter(FilledFor(instrument), TraceOutcomes(t.records, front)), Walk(result, t, front).value, instrument)
    ensures Paired(Filter(FilledFor(instrument), TraceOutcomes(t.records, front + [e])),
                   Walk(result, t, front + [e]).value, instrument)
  {
    assert Front(front + [e]) == front;
    var w, next := Walk(result, t, front).value, Walk(result, t, front + [e]).value;
    WalkTimed(result, t, front);
    NoMissingRecord(result, t, w, e, next);
    StepPaired(result, t, w, e, next, Filter(FilledFor(instrument), TraceOutcomes(t.records, front)), instrument);
    TraceSnoc(t.records, front, e, instrument);
  }

  lemma NoMissingRecord(result: SimulationResult, t: Tables, w: Walked, e: Event, next: Walked)
    requires CheckEvent(result, t, w, e) == Ok(next)
    ensures e.id in t.records
  {
  }

  // ----- the reported trades -----

  lemma LaterTradeKey(x: TradeRecord, y: TradeRecord)
    requires x.ExitTime() < y.ExitTime()
    ensures KeyLe(TradeKey()(x), TradeKey()(y))
  {
    assert TradeKey()(x)[0] == Num(x.ExitTime()) && TradeKey()(y)[0] == Num(y.ExitTime());
  }

  // Reporting order keeps the trades of one instrument in walk order.
  lemma ReportedInOrder(trades: seq<TradeRecord>, instrument: Instrument)
    requires Disjoint(trades) && forall x :: x in trades ==> x.Valid()
    ensures Filter(TradeOf(instrument), Sort(TradeKey(), trades)) == Filter(TradeOf(instrument), trades)
  {
    var mine := Filter(TradeOf(instrument), trades);
    var earlier := (x: TradeRecord, y: TradeRecord) =>
      x.Instrument() == y.Instrument() ==> x.ExitTime() < y.EntryTime();
    FilterPairwise(TradeOf(instrument), earlier, trades);
    forall i, j | 0 <= i < j < |mine| ensures KeyLe(TradeKey()(mine[i]), TradeKey()(mine[j])) {
      assert earlier(mine[i], mine[j]) && mine[i] in mine && mine[j] in mine;
      LaterTradeKey(mine[i], mine[j]);
    }
    SortFilter(TradeKey(), TradeOf(instrument), trades);
    SortOfSorted(TradeKey(), mine);
  }

  lemma {:induction false} OpenEntriesReported(openings: seq<Opening>, instrument: Instrument)
    ensures Map(OutcomeOf(), Filter(OpenFor(instrument), Map(EconomicOf(), openings)))
         == OpenLegs(Filter(OpeningOf(instrument), openings))
  {
    if openings != [] {
      OpenEntriesReported(Front(openings), instrument);
      var entries := Map(EconomicOf(), openings);
      assert Front(entries) == Map(EconomicOf(), Front(openings));
      var kept := Filter(OpenFor(instrument), Front(entries));
      assert Map(OutcomeOf(), kept + [Last(entries)]) == Map(OutcomeOf(), kept) + [Last(entries).outcome];
    }
  }

  lemma ShortSorted(openings: seq<Opening>, instrument: Instrument)
    requires |Filter(OpeningOf(instrument), openings)| <= 1
    ensures Filter(OpeningOf(instrument), Sort(OpeningKey(), openings)) == Filter(OpeningOf(instrument), openings)
  {
    SortFilter(OpeningKey(), OpeningOf(instrument), openings);
    SortOfSorted(OpeningKey(), Filter(OpeningOf(instrument), openings));
  }

  lemma ReportedPairs(fills: seq<Outcome>, w: Walked, now: int, instrument: Instrument)
    requires Paired(fills, w, instrument) && Timed(w, now)
    ensures var open := Filter(OpenFor(instrument), Map(EconomicOf(), Sort(OpeningKey(), w.openings)));
            && fills == Legs(Filter(TradeOf(instrument), Sort(TradeKey(), w.trades))) + Map(OutcomeOf(), open)
            && |open| <= 1
  {
    ReportedInOrder(w.trades, instrument);
    ShortSorted(w.openings, instrument);
    OpenEntriesReported(Sort(OpeningKey(), w.openings), instrument);
    OpenLegsLength(Filter(OpeningOf(instrument), w.openings));
  }

  lemma {:induction false} OpenLegsLength(openings: seq<Opening>)
    ensures |OpenLegs(openings)| == |openings|
  {
    if openings != [] {
      OpenLegsLength(Front(openings));
    }
  }

  // The fills of an instrument among these outcomes are entry and exit of its first reconstructed
  // trade, of its second, and so on, and then at most one open entry.
  ghost predicate FillPairs(result: SimulationResult, outcomes: seq<Outcome>, instrument: Instrument)
    requires Reconstruct(result).Ok?
  {
    var r := Reconstruct(result).value;
    var open := Filter(OpenFor(instrument), r.openEntries);
    && Filter(FilledFor(instrument), outcomes) == Legs(Filter(TradeOf(instrument), r.trades)) + Map(OutcomeOf(), open)
    && |open| <= 1
  }

  // On any evidence the reconciler accepts, the fills of an instrument in trace order are the
  // entry and exit of its first trade, of its second, and so on, and then at most one open entry.
  lemma TradesPairConsecutiveFills(result: SimulationResult, instrument: Instrument) returns (t: Tables)
    requires Reconstruct(result).Ok?
    ensures Cover(result) == Ok(t)
    ensures FillPairs(result, TraceOutcomes(t.records, WalkOrder(result)), instrument)
  {
    var w: Walked;
    t, w := Reconstructed(result);
    var es := WalkOrder(result);
    CoverSound(result, t);
    SortSorted(EventKey(), result.timeline.ordered);
    WalkPaired(result, t, es, instrument);
    WalkTimed(result, t, es);
    ReportedPairs(Filter(FilledFor(instrument), TraceOutcomes(t.records, es)), w,
                  if es == [] then 0 else Last(es).time, instrument);
  }

  // ----- of a simulated run -----

  lemma {:induction false} TraceOfPass(records: map<EventId, Record>, rules: Rules, es: seq<Event>)
    requires !Raises(rules, es)
    requires forall n :: 0 <= n < |es| ==> es[n].id in records && LastTurn(rules, es[..n + 1]).Ok?
                                           && records[es[n].id] == LastTurn(rules, es[..n + 1]).value.record
    ensures TraceOutcomes(records, es) == Outcomes(Records(rules, es))
  {
    if es != [] {
      var front := Front(es);
      forall n | 0 <= n < |front| ensures front[n].id in records && LastTurn(rules, front[..n + 1]).Ok?
                                          && records[front[n].id] == LastTurn(rules, front[..n + 1]).value.record
      {
        assert es[n].id in records && front[..n + 1] == es[..n + 1];
      }
      TraceOfPass(records, rules, front);
      assert es[..|front| + 1] == es && es[|front|].id in records;
      assert Front(Records(rules, es)) == Records(rules, front);
    }
  }

  lemma DocumentedTrace(result: SimulationResult, t: Tables, rules: Rules, es: seq<Event>)
    requires Documented(result, t, rules, es)
    ensures TraceOutcomes(t.records, es) == Outcomes(Records(rules, es))
  {
    forall n: nat | n < |es| ensures es[n].id in t.records && LastTurn(rules, es[..n + 1]).Ok?
                                && t.records[es[n].id] == LastTurn(rules, es[..n + 1]).value.record
    {
      assert DocumentedAt(t, rules, es, n);
    }
    TraceOfPass(t.records, rules, es);
  }

  // The trades of a pass are the consecutive fills of its outcomes.
  lemma PassTradesAreFillPairs(result: SimulationResult, rules: Rules, es: seq<Event>, instrument: Instrument)
    requires PassEvidence(result, rules, es) && EconomicEvidence(result)
    ensures Reconstruct(result).Ok? && FillPairs(result, result.outcomes, instrument)
  {
    var _ := PassReconciles(result, rules, es);
    var t := TradesPairConsecutiveFills(result, instrument);
    CoverOk(result, rules, es);
    PassDocumented(result, rules, es);
    SortOfSorted(EventKey(), es);
    DocumentedTrace(result, t, rules, es);
  }

  // The reconstructed trades of a run are exactly the consecutive entry and exit fills of its
  // outcomes, instrument by instrument; a fill left over is the open entry.
  lemma RunTradesAreFillPairs(input: SimulationInput, instrument: Instrument)
    requires input.Valid() && Succeeds(input) && input.economics.Some?
    ensures Reconstruct(Account(input)).Ok? && FillPairs(Account(input), Account(input).outcomes, instrument)
  {
    RunPassEvidence(input);
    RunEconomicEvidence(input);
    PassTradesAreFillPairs(Account(input), RunRules(input), RunOrder(input), instrument);
  }
}
