// What a reconstruction reports: every outcome, position and trade of the evidence, once and in
// order.
module Accounting {
  import opened Collections
  import opened Order
  import opened Domain
  import opened Events
  import opened Execution
  import opened Lifecycle
  import opened Process
  import opened Economics
  import opened Runner
  import opened Run
  import opened Trades
  import opened Soundness
  import opened Completeness

  // ----- the unsuccessful outcomes -----

  lemma {:induction false} FilterPartition<T(!new)>(p: T -> bool, s: seq<T>)
    ensures |Filter(p, s)| + |Filter(Not(p), s)| == |s|
  {
    if s != [] {
      FilterPartition(p, Front(s));
    }
  }

  // Earlier attempts come first.
  ghost predicate ByAttempt(outcomes: seq<Outcome>) {
    forall i, j :: 0 <= i < j < |outcomes| ==> outcomes[i].attempt.time <= outcomes[j].attempt.time
  }

  lemma AttemptOrder(a: Outcome, b: Outcome)
    requires KeyLe(OutcomeKey()(a), OutcomeKey()(b))
    ensures a.attempt.time <= b.attempt.time
  {
    assert AttemptKey()(a.attempt)[0] == Num(a.attempt.time) && AttemptKey()(b.attempt)[0] == Num(b.attempt.time);
  }

  lemma SortedByAttempt(outcomes: seq<Outcome>)
    ensures ByAttempt(Sort(OutcomeKey(), outcomes))
  {
    var sorted := Sort(OutcomeKey(), outcomes);
    SortSorted(OutcomeKey(), outcomes);
    forall i, j | 0 <= i < j < |sorted| ensures sorted[i].attempt.time <= sorted[j].attempt.time {
      AttemptOrder(sorted[i], sorted[j]);
    }
  }

  lemma KeysDistinct<K, V>(key: V -> K, items: seq<V>)
    requires DistinctKeys(key, items)
    ensures Distinct(items)
  {
    forall i, j | 0 <= i < j < |items| ensures items[i] != items[j] {
      assert key(items[i]) != key(items[j]);
    }
  }

  lemma UnsuccessfulOf(outcomes: seq<Outcome>)
    requires DistinctKeys(OutcomeAttempt(), outcomes)
    ensures var u := Sort(OutcomeKey(), Filter(Not(IsFilled()), outcomes));
            && (forall o :: o in u <==> o in outcomes && o.status != Filled)
            && Distinct(u) && ByAttempt(u) && |u| + |Filter(IsFilled(), outcomes)| == |outcomes|
  {
    var failed := Filter(Not(IsFilled()), outcomes);
    FilterPartition(IsFilled(), outcomes);
    SortElements(OutcomeKey(), failed);
    SortedByAttempt(failed);
    KeysDistinct(OutcomeAttempt(), outcomes);
    FilterDistinct(Not(IsFilled()), outcomes);
    DistinctPermute(failed, Sort(OutcomeKey(), failed));
  }

  lemma Reports(result: SimulationResult, t: Tables, w: Walked, es: seq<Event>, r: Reconstruction)
    requires Trades.Conclude(result, t, w, es) == Ok(r)
    ensures r.unsuccessful == Sort(OutcomeKey(), Filter(Not(IsFilled()), result.outcomes))
    ensures r.incomplete == Filter(NotFlat(), Map(i => StateOf(w.states, i), Sort(InstrumentKey(), Seen(es))))
  {
  }

  // On any accepted evidence every outcome that is not a fill is reported as unsuccessful, once,
  // earlier attempts first, and outcomes are the unsuccessful ones, two for every trade and one
  // for every open entry.
  lemma EveryOutcomeReported(result: SimulationResult)
    requires Reconstruct(result).Ok?
    ensures var r := Reconstruct(result).value;
            && (forall o :: o in r.unsuccessful <==> o in result.outcomes && o.status != Filled)
            && Distinct(r.unsuccessful) && ByAttempt(r.unsuccessful)
            && |r.unsuccessful| + 2 * |r.trades| + |r.openEntries| == |result.outcomes|
  {
    var t, w := Reconstructed(result);
    Reports(result, t, w, WalkOrder(result), Reconstruct(result).value);
    FilledAreEconomics(result, t);
    UnsuccessfulOf(result.outcomes);
    ReconciliationSound(result);
  }

  // The same for every successful run.
  lemma RunOutcomesReported(input: SimulationInput)
    requires input.Valid() && Succeeds(input) && input.economics.Some?
    ensures Reconstruct(Account(input)).Ok?
    ensures var r := Reconstruct(Account(input)).value;
            && (forall o :: o in r.unsuccessful <==> o in Account(input).outcomes && o.status != Filled)
            && Distinct(r.unsuccessful) && ByAttempt(r.unsuccessful)
            && |r.unsuccessful| + 2 * |r.trades| + |r.openEntries| == |Account(input).outcomes|
  {
    ReconcilerAcceptsEveryRun(input);
    EveryOutcomeReported(Account(input));
  }

  // ----- trades, open entries and incomplete states -----

  lemma TradeOrder(a: TradeRecord, b: TradeRecord)
    requires KeyLe(TradeKey()(a), TradeKey()(b))
    ensures a.exit.outcome.attempt.time <= b.exit.outcome.attempt.time
  {
    assert TradeKey()(a)[0] == Num(a.ExitTime()) && TradeKey()(b)[0] == Num(b.ExitTime());
  }

  // The trades come in the order of their exits.
  lemma TradesByExit(result: SimulationResult)
    requires Reconstruct(result).Ok?
    ensures var trades := Reconstruct(result).value.trades;
            forall i, j :: 0 <= i < j < |trades| ==>
              trades[i].exit.outcome.attempt.time <= trades[j].exit.outcome.attempt.time
  {
    var t, w := Reconstructed(result);
    var trades := Reconstruct(result).value.trades;
    SortSorted(TradeKey(), w.trades);
    forall i, j | 0 <= i < j < |trades|
      ensures trades[i].exit.outcome.attempt.time <= trades[j].exit.outcome.attempt.time
    {
      TradeOrder(trades[i], trades[j]);
    }
  }

  // The states of a walk are those of the instruments it met.
  ghost predicate Met(w: Walked, es: seq<Event>) {
    forall i :: i in w.states <==> i in Seen(es)
  }

  ghost predicate AddsKey(w: Walked, next: Walked, instrument: Instrument) {
    next.states.Keys == w.states.Keys + {instrument}
  }

  lemma CreationAdds(t: Tables, w: Walked, current: InstrumentState, e: Event, r: Record, next: Walked)
    requires CheckCreation(t, w, current, e, r) == Ok(next)
    ensures AddsKey(w, next, e.instrument)
  {
  }

  lemma OutcomeAdds(
    result: SimulationResult, t: Tables, w: Walked, current: InstrumentState, e: Event, r: Record, o: Outcome,
    next: Walked)
    requires CheckOutcome(result, t, w, current, e, r, o) == Ok(next)
    ensures AddsKey(w, next, e.instrument)
  {
    var used := w.(used := w.used + {o.attempt.id}, states := w.states[e.instrument := current]);
    assert used.states.Keys == w.states.Keys + {e.instrument};
    if o.status == Filled {
      var economic := t.economics[o.attempt.id];
      if r.action.value.kind == Entry {
        EntryAdds(used, current, e, r, economic, next);
      } else {
        ExitAdds(used, current, e, r, economic, next);
      }
    }
  }

  lemma EntryAdds(
    w: Walked, current: InstrumentState, e: Event, r: Record, economic: EconomicExecution, next: Walked)
    requires r.action.Some? && CheckEntry(w, current, e, r, economic) == Ok(next)
    ensures AddsKey(w, next, e.instrument)
  {
  }

  lemma ExitAdds(
    w: Walked, current: InstrumentState, e: Event, r: Record, economic: EconomicExecution, next: Walked)
    requires CheckExit(w, current, e, r, economic) == Ok(next)
    ensures AddsKey(w, next, e.instrument)
  {
  }

  lemma MoveAdds(
    result: SimulationResult, t: Tables, w: Walked, current: InstrumentState, e: Event, r: Record, next: Walked)
    requires CheckMove(result, t, w, current, e, r) == Ok(next)
    ensures AddsKey(w, next, e.instrument)
  {
    if r.decision == ActionCreated {
      CreationAdds(t, w, current, e, r, next);
    } else if r.outcome.Some? {
      OutcomeAdds(result, t, w, current, e, r, r.outcome.value, next);
    }
  }

  lemma EventMoves(result: SimulationResult, t: Tables, w: Walked, e: Event, next: Walked)
    requires CheckEvent(result, t, w, e) == Ok(next)
    ensures e.id in t.records
    ensures CheckMove(result, t, w, StateOf(w.states, e.instrument), e, t.records[e.id]) == Ok(next)
  {
  }

  lemma {:induction false} WalkMeets(result: SimulationResult, t: Tables, es: seq<Event>)
    requires Walk(result, t, es).Ok?
    ensures Met(Walk(result, t, es).value, es)
  {
    if es != [] {
      var w, next := Walk(result, t, Front(es)).value, Walk(result, t, es).value;
      WalkMeets(result, t, Front(es));
      EventMoves(result, t, w, Last(es), next);
      MoveAdds(result, t, w, StateOf(w.states, Last(es).instrument), Last(es), t.records[Last(es).id], next);
      assert forall i :: i in next.states <==> i in w.states || i == Last(es).instrument;
    }
  }

  lemma FinalIsWalked(result: SimulationResult, t: Tables, w: Walked, es: seq<Event>)
    requires Trades.Conclude(result, t, w, es).Ok?
    ensures w.states == Table(StateInstrument(), result.lifecycle.finalStates)
    ensures |w.states| == |result.lifecycle.finalStates|
  {
  }

  // The states of the walk, one for every instrument met, are the declared final states.
  lemma StatesDeclared(w: Walked, es: seq<Event>, final: seq<InstrumentState>)
    requires Met(w, es) && ValidStates(w) && w.states == Table(StateInstrument(), final) && |w.states| == |final|
    ensures forall s :: s in Map(i => StateOf(w.states, i), Sort(InstrumentKey(), Seen(es))) <==> s in final
  {
    var instruments := Sort(InstrumentKey(), Seen(es));
    var states := Map(i => StateOf(w.states, i), instruments);
    SortElements(InstrumentKey(), Seen(es));
    TableDistinct(StateInstrument(), final);
    TableElements(StateInstrument(), final);
    forall s ensures s in states <==> s in final {
      if s in states {
        var k :| 0 <= k < |states| && states[k] == s;
        assert instruments[k] in instruments && instruments[k] in w.states && w.states[instruments[k]] == s;
      }
      if s in final {
        assert StateInstrument()(s) in w.states && w.states[s.instrument] == s;
        var k :| 0 <= k < |instruments| && instruments[k] == s.instrument;
        assert states[k] == s;
      }
    }
  }

  // On any accepted evidence the incomplete states are exactly the declared final states that are
  // not flat.
  lemma IncompleteExactly(result: SimulationResult)
    requires Reconstruct(result).Ok?
    ensures forall s :: s in Reconstruct(result).value.incomplete <==>
                        s in result.lifecycle.finalStates && s.state != Flat
  {
    var t, w := Reconstructed(result);
    var es := WalkOrder(result);
    ReportsFrom(result, t, w, es);
    WalkMeets(result, t, es);
    CoverSound(result, t);
    SortSorted(EventKey(), result.timeline.ordered);
    WalkTimed(result, t, es);
    StatesDeclared(w, es, result.lifecycle.finalStates);
  }

  lemma ReportsFrom(result: SimulationResult, t: Tables, w: Walked, es: seq<Event>)
    requires Reconstruct(result).Ok? && Cover(result) == Ok(t) && es == WalkOrder(result)
    requires Walk(result, t, es) == Ok(w)
    ensures Reconstruct(result).value.incomplete
         == Filter(NotFlat(), Map(i => StateOf(w.states, i), Sort(InstrumentKey(), Seen(es))))
    ensures w.states == Table(StateInstrument(), result.lifecycle.finalStates)
    ensures |w.states| == |result.lifecycle.finalStates|
  {
    Reports(result, t, w, es, Reconstruct(result).value);
    FinalIsWalked(result, t, w, es);
  }

  // ----- every outcome of accepted evidence is explained by its event -----

  // The outcome is that of an attempt on its record's action, at an opportunity of its instrument
  // strictly after the action became eligible, over the run's configuration and quotes.
  ghost predicate Explained(result: SimulationResult, records: map<EventId, Record>, e: Event, o: Outcome) {
    && e.id in records && records[e.id].outcome == Some(o) && records[e.id].attempt == Some(o.attempt)
    && records[e.id].action.Some?
    && var a := o.attempt;
    && e.kind == ExecutionOpportunity && e.id == a.opportunity && e.instrument == a.instrument == a.opportunityInstrument
    && e.time == a.time == a.opportunityTime && a.time > a.eligibleAfter
    && a.action == records[e.id].action.value.id && a.signal == records[e.id].action.value.signal
    && a.kind == records[e.id].action.value.kind && a.eligibleAfter == records[e.id].action.value.eligibleAfter
    && o.config == result.execution && a.model == "shadow.execution.quote_bid_ask.v2"
    && (o.evidence.Some? ==> o.evidence.value in result.quotes)
  }

  ghost predicate AllExplained(result: SimulationResult, t: Tables, es: seq<Event>, used: set<AttemptId>) {
    forall id :: id in used ==> id in t.outcomes && exists e :: e in es && Explained(result, t.records, e, t.outcomes[id])
  }

  lemma OutcomeExplained(
    result: SimulationResult, t: Tables, w: Walked, current: InstrumentState, e: Event, o: Outcome, next: Walked)
    requires e.id in t.records && t.records[e.id].outcome == Some(o)
    requires CheckOutcome(result, t, w, current, e, t.records[e.id], o) == Ok(next)
    ensures Explained(result, t.records, e, o) && next.used == w.used + {o.attempt.id}
    ensures o.attempt.id in t.outcomes && t.outcomes[o.attempt.id] == o
  {
    OutcomeUses(result, t, w, current, e, t.records[e.id], o, next);
  }

  lemma OutcomeUses(
    result: SimulationResult, t: Tables, w: Walked, current: InstrumentState, e: Event, r: Record, o: Outcome,
    next: Walked)
    requires CheckOutcome(result, t, w, current, e, r, o) == Ok(next)
    ensures AttemptMatches(result, t.outcomes, w.used, current, e, r, o)
    ensures o.evidence.Some? ==> o.evidence.value in result.quotes
    ensures next.used == w.used + {o.attempt.id}
  {
  }

  lemma ExplainedMore(result: SimulationResult, t: Tables, es: seq<Event>, e: Event, used: set<AttemptId>, o: Outcome)
    requires AllExplained(result, t, es, used) && Explained(result, t.records, e, o)
    requires o.attempt.id in t.outcomes && t.outcomes[o.attempt.id] == o
    ensures AllExplained(result, t, es + [e], used + {o.attempt.id})
  {
    forall id | id in used + {o.attempt.id}
      ensures id in t.outcomes && exists x :: x in es + [e] && Explained(result, t.records, x, t.outcomes[id])
    {
      if id == o.attempt.id {
        assert e in es + [e];
      } else {
        var x :| x in es && Explained(result, t.records, x, t.outcomes[id]);
        assert x in es + [e];
      }
    }
  }

  lemma ExplainedStill(result: SimulationResult, t: Tables, es: seq<Event>, e: Event, used: set<AttemptId>)
    requires AllExplained(result, t, es, used)
    ensures AllExplained(result, t, es + [e], used)
  {
    forall id | id in used ensures exists x :: x in es + [e] && Explained(result, t.records, x, t.outcomes[id]) {
      var x :| x in es && Explained(result, t.records, x, t.outcomes[id]);
      assert x in es + [e];
    }
  }

  lemma {:induction false} WalkExplained(result: SimulationResult, t: Tables, es: seq<Event>)
    requires Walk(result, t, es).Ok?
    ensures AllExplained(result, t, es, Walk(result, t, es).value.used)
  {
    if es != [] {
      var front, e := Front(es), Last(es);
      var w, next := Walk(result, t, front).value, Walk(result, t, es).value;
      WalkExplained(result, t, front);
      FrontAndLast(es);
      Stepped(result, t, w, e, next);
      var r := t.records[e.id];
      if r.decision == ActionCreated || r.outcome.None? {
        ExplainedStill(result, t, front, e, w.used);
      } else {
        OutcomeExplained(result, t, w, StateOf(w.states, e.instrument), e, r.outcome.value, next);
        ExplainedMore(result, t, front, e, w.used, r.outcome.value);
      }
    }
  }

  lemma RecordsListed(result: SimulationResult, t: Tables)
    requires CoverEvents(result) == Ok((t.events, t.records))
    ensures forall id :: id in t.records ==> t.records[id] in result.lifecycle.records && t.records[id].event == id
  {
    TableElements(RecordEvent(), result.lifecycle.records);
  }

  // On any accepted evidence every outcome is explained by an event of the timeline and the
  // lifecycle record of that event.
  lemma AcceptedOutcomesExplained(result: SimulationResult, o: Outcome) returns (e: Event, r: Record)
    requires Reconstruct(result).Ok? && o in result.outcomes
    ensures e in result.timeline.ordered && r in result.lifecycle.records && r.event == e.id
    ensures Explained(result, map[e.id := r], e, o)
  {
    var t, w := Reconstructed(result);
    var es := WalkOrder(result);
    CoverParts(result, t);
    OutcomesKeyed(result, t.attempts, t.outcomes);
    TableDistinct(OutcomeAttempt(), result.outcomes);
    assert OutcomeAttempt()(o) in t.outcomes && t.outcomes[o.attempt.id] == o;
    WalkExplained(result, t, es);
    e :| e in es && Explained(result, t.records, e, o);
    SortElements(EventKey(), result.timeline.ordered);
    RecordsListed(result, t);
    r := t.records[e.id];
  }
}
