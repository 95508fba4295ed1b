// What accepted evidence must say, in its own parts: evaluation/trades.py.
module EvidenceTable {
  import opened Collections
  import opened Order
  import opened Domain
  import opened Events
  import opened Execution
  import opened Lifecycle
  import opened Process
  import opened Economics
  import opened Runner
  import opened Trades
  import opened Soundness
  import opened Accounting
  import LifecycleTable

  // ----- the parts of the evidence agree -----

  ghost predicate Same<T(!new)>(a: seq<T>, b: seq<T>) { forall x :: x in a <==> x in b }

  lemma UniqueTable<K(!new), V(!new)>(key: V -> K, items: seq<V>, duplicate: string)
    requires Unique(key, items, duplicate).Ok?
    ensures DistinctKeys(key, items)
    ensures forall x :: x in items <==> key(x) in Table(key, items) && Table(key, items)[key(x)] == x
    ensures forall k :: k in Table(key, items) <==> exists x :: x in items && key(x) == k
  {
    TableDistinct(key, items);
    TableElements(key, items);
  }

  lemma SameTables<K(!new), V(!new)>(key: V -> K, a: seq<V>, b: seq<V>, duplicate: string, again: string)
    requires Unique(key, a, duplicate).Ok? && Unique(key, b, again).Ok? && Table(key, a) == Table(key, b)
    ensures DistinctKeys(key, a) && DistinctKeys(key, b) && Same(a, b)
  {
    UniqueTable(key, a, duplicate);
    UniqueTable(key, b, again);
  }

  lemma SameKeys<K(!new), V(!new), W(!new)>(key: V -> K, a: seq<V>, other: W -> K, b: seq<W>)
    requires Table(key, a).Keys == Table(other, b).Keys
    ensures forall x :: x in a ==> exists y :: y in b && other(y) == key(x)
    ensures forall y :: y in b ==> exists x :: x in a && key(x) == other(y)
  {
    TableElements(key, a);
    TableElements(other, b);
    forall x | x in a ensures exists y :: y in b && other(y) == key(x) {
      assert key(x) in Table(other, b);
    }
    forall y | y in b ensures exists x :: x in a && key(x) == other(y) {
      assert other(y) in Table(key, a);
    }
  }

  // Timeline and lifecycle hold the same events, each once, and one record for each.
  ghost predicate EventsAgree(result: SimulationResult) {
    && Same(result.timeline.ordered, result.lifecycle.ordered)
    && UniqueIds(result.timeline.ordered) && UniqueIds(result.lifecycle.ordered)
    && DistinctKeys(RecordEvent(), result.lifecycle.records)
    && (forall e :: e in result.timeline.ordered ==> exists r :: r in result.lifecycle.records && r.event == e.id)
    && (forall r :: r in result.lifecycle.records ==> exists e :: e in result.timeline.ordered && e.id == r.event)
  }

  lemma CoveredEvents(result: SimulationResult)
    requires CoverEvents(result).Ok?
    ensures EventsAgree(result)
  {
    var events, records := result.timeline.ordered, result.lifecycle.records;
    SameTables(IdOf(), events, result.lifecycle.ordered, "duplicate events", "duplicate lifecycle events");
    UniqueTable(RecordEvent(), records, "duplicate lifecycle records");
    SameKeys(IdOf(), events, RecordEvent(), records);
    KeyedEvents(events);
    KeyedEvents(result.lifecycle.ordered);
  }

  lemma KeyedEvents(es: seq<Event>)
    requires DistinctKeys(IdOf(), es)
    ensures UniqueIds(es)
  {
    forall i, j | 0 <= i < j < |es| ensures es[i].id != es[j].id {
      assert IdOf()(es[i]) != IdOf()(es[j]);
    }
  }

  // Run and lifecycle hold the same attempts and outcomes, each once, and the attempts are those of
  // the outcomes.
  ghost predicate OutcomesAgree(result: SimulationResult) {
    && Same(result.attempts, result.lifecycle.attempts) && Same(result.outcomes, result.lifecycle.outcomes)
    && DistinctKeys(AttemptIdOf(), result.attempts) && DistinctKeys(OutcomeAttempt(), result.outcomes)
    && (forall a :: a in result.attempts <==> exists o :: o in result.outcomes && o.attempt == a)
  }

  lemma CoveredOutcomes(result: SimulationResult)
    requires CoverOutcomes(result).Ok?
    ensures OutcomesAgree(result)
  {
    SameTables(AttemptIdOf(), result.attempts, result.lifecycle.attempts, "duplicate attempts", "duplicate lifecycle attempts");
    SameTables(OutcomeAttempt(), result.outcomes, result.lifecycle.outcomes, "duplicate outcomes",
               "duplicate lifecycle outcomes");
    AttemptsListed(result.attempts, result.outcomes);
  }

  lemma AttemptsListed(attempts: seq<Attempt>, outcomes: seq<Outcome>)
    requires Unique(AttemptIdOf(), attempts, "").Ok? && Unique(OutcomeAttempt(), outcomes, "").Ok?
    requires Table(AttemptIdOf(), attempts) == AttemptsOf(Table(OutcomeAttempt(), outcomes))
    ensures forall a :: a in attempts <==> exists o :: o in outcomes && o.attempt == a
  {
    UniqueTable(AttemptIdOf(), attempts, "");
    UniqueTable(OutcomeAttempt(), outcomes, "");
    var byId, listed := Table(AttemptIdOf(), attempts), Table(OutcomeAttempt(), outcomes);
    forall a ensures a in attempts <==> exists o :: o in outcomes && o.attempt == a {
      if a in attempts {
        assert AttemptIdOf()(a) in byId && byId[a.id] == a && a.id in listed && listed[a.id].attempt == a;
        TableElements(OutcomeAttempt(), outcomes);
      }
      if o :| o in outcomes && o.attempt == a {
        assert OutcomeAttempt()(o) in listed && listed[a.id] == o && byId[a.id] == a;
      }
    }
  }

  // There is economics of exactly the fills, once each, by the one configuration of its instrument;
  // configurations and strategies are of the same instruments.
  ghost predicate EconomicsAgree(result: SimulationResult) {
    && result.economics.Some?
    && DistinctKeys(EconomicsInstrument(), result.economics.value) && DistinctKeys(StrategyInstrument(), result.configs)
    && (forall c :: c in result.configs ==> exists x :: x in result.economics.value && x.instrument == c.instrument)
    && (forall x :: x in result.economics.value ==> exists c :: c in result.configs && c.instrument == x.instrument)
    && DistinctKeys(EconomicAttempt(), result.economicExecutions)
    && (forall x :: x in result.economicExecutions ==>
          x.config in result.economics.value && x.config.instrument == x.outcome.attempt.instrument)
    && (forall o :: o in result.outcomes && o.status == Filled <==>
          exists x :: x in result.economicExecutions && x.outcome == o)
  }

  lemma CoveredConfigs(result: SimulationResult)
    requires CoverConfigs(result).Ok?
    ensures result.economics.Some?
    ensures DistinctKeys(EconomicsInstrument(), result.economics.value) && DistinctKeys(StrategyInstrument(), result.configs)
    ensures forall c :: c in result.configs ==> exists x :: x in result.economics.value && x.instrument == c.instrument
    ensures forall x :: x in result.economics.value ==> exists c :: c in result.configs && c.instrument == x.instrument
    ensures CoverConfigs(result).value
         == (Table(EconomicsInstrument(), result.economics.value), Table(StrategyInstrument(), result.configs))
  {
    UniqueTable(EconomicsInstrument(), result.economics.value, "duplicate economics configs");
    UniqueTable(StrategyInstrument(), result.configs, "duplicate strategy configs");
    SameKeys(EconomicsInstrument(), result.economics.value, StrategyInstrument(), result.configs);
  }

  lemma CoveredEconomics(
    result: SimulationResult, configs: map<Instrument, EconomicsConfig>, outcomes: map<AttemptId, Outcome>)
    requires CoverEconomics(result, configs, outcomes).Ok? && outcomes == Table(OutcomeAttempt(), result.outcomes)
    requires Unique(OutcomeAttempt(), result.outcomes, "duplicate outcomes").Ok?
    ensures DistinctKeys(EconomicAttempt(), result.economicExecutions)
    ensures forall x :: x in result.economicExecutions ==> ConfiguredAs(configs, x)
    ensures forall o :: o in result.outcomes && o.status == Filled <==>
                        exists x :: x in result.economicExecutions && x.outcome == o
  {
    var economics := Table(EconomicAttempt(), result.economicExecutions);
    UniqueTable(EconomicAttempt(), result.economicExecutions, "duplicate economic executions");
    UniqueTable(OutcomeAttempt(), result.outcomes, "duplicate outcomes");
    TableElements(EconomicAttempt(), result.economicExecutions);
    TableElements(OutcomeAttempt(), result.outcomes);
    assert FilledOnly(outcomes) == OutcomesOf(economics);
    forall x | x in result.economicExecutions ensures ConfiguredAs(configs, x) {
      assert EconomicAttempt()(x) in economics && economics[x.outcome.attempt.id] == x;
    }
    forall o ensures o in result.outcomes && o.status == Filled <==>
                     exists x :: x in result.economicExecutions && x.outcome == o {
      FilledListed(result.outcomes, result.economicExecutions, o);
    }
  }

  lemma FilledListed(outcomes: seq<Outcome>, economics: seq<EconomicExecution>, o: Outcome)
    requires Unique(OutcomeAttempt(), outcomes, "").Ok? && Unique(EconomicAttempt(), economics, "").Ok?
    requires FilledOnly(Table(OutcomeAttempt(), outcomes)) == OutcomesOf(Table(EconomicAttempt(), economics))
    ensures o in outcomes && o.status == Filled <==> exists x :: x in economics && x.outcome == o
  {
    UniqueTable(OutcomeAttempt(), outcomes, "");
    UniqueTable(EconomicAttempt(), economics, "");
    TableElements(OutcomeAttempt(), outcomes);
    TableElements(EconomicAttempt(), economics);
    var filled, costed := FilledOnly(Table(OutcomeAttempt(), outcomes)), Table(EconomicAttempt(), economics);
    if o in outcomes && o.status == Filled {
      assert OutcomeAttempt()(o) in filled && o.attempt.id in costed && costed[o.attempt.id].outcome == o;
    }
    if x :| x in economics && x.outcome == o {
      assert EconomicAttempt()(x) in costed && o.attempt.id in filled && filled[o.attempt.id] == o;
    }
  }

  lemma ConfiguredListed(configs: seq<EconomicsConfig>, x: EconomicExecution)
    requires ConfiguredAs(Table(EconomicsInstrument(), configs), x)
    ensures x.config in configs && x.config.instrument == x.outcome.attempt.instrument
  {
    TableElements(EconomicsInstrument(), configs);
  }

  lemma ConfigsTabled(result: SimulationResult, t: Tables)
    requires Cover(result) == Ok(t)
    ensures CoverConfigs(result) == Ok((t.configs, t.strategies)) && result.economics.Some?
    ensures t.configs == Table(EconomicsInstrument(), result.economics.value)
  {
    CoveredConfigs(result);
  }

  lemma AllConfigured(configs: seq<EconomicsConfig>, xs: seq<EconomicExecution>)
    requires forall x :: x in xs ==> ConfiguredAs(Table(EconomicsInstrument(), configs), x)
    ensures forall x :: x in xs ==> x.config in configs && x.config.instrument == x.outcome.attempt.instrument
  {
    forall x | x in xs ensures x.config in configs && x.config.instrument == x.outcome.attempt.instrument {
      ConfiguredListed(configs, x);
    }
  }

  lemma EconomicsListed(
    result: SimulationResult, configs: map<Instrument, EconomicsConfig>, outcomes: map<AttemptId, Outcome>)
    requires CoverConfigs(result).Ok? && result.economics.Some?
    requires configs == Table(EconomicsInstrument(), result.economics.value)
    requires CoverEconomics(result, configs, outcomes).Ok? && outcomes == Table(OutcomeAttempt(), result.outcomes)
    requires Unique(OutcomeAttempt(), result.outcomes, "duplicate outcomes").Ok?
    ensures EconomicsAgree(result)
  {
    CoveredConfigs(result);
    CoveredEconomics(result, configs, outcomes);
    AllConfigured(result.economics.value, result.economicExecutions);
  }

  lemma EconomicsCovered(result: SimulationResult, t: Tables)
    requires Cover(result) == Ok(t)
    ensures EconomicsAgree(result)
  {
    CoverParts(result, t);
    ConfigsTabled(result, t);
    OutcomesKeyed(result, t.attempts, t.outcomes);
    EconomicsListed(result, t.configs, t.outcomes);
  }

  // On any accepted evidence its parts agree.
  lemma PartsAgree(result: SimulationResult)
    requires Reconstruct(result).Ok?
    ensures EventsAgree(result) && OutcomesAgree(result) && EconomicsAgree(result)
  {
    var t, w := Reconstructed(result);
    CoverParts(result, t);
    CoveredEvents(result);
    CoveredOutcomes(result);
    EconomicsCovered(result, t);
  }

  // ----- every event of accepted evidence -----

  // The record of an event is about it, and says where its instrument was and went.
  predicate RecordsMove(e: Event, r: Record, s: InstrumentState, next: InstrumentState) {
    && r.event == e.id && r.kind == e.kind && r.time == e.time && r.source == e.source && r.instrument == e.instrument
    && r.prior == s.state && r.resulting == next.state
  }

  // A proposal of an instrument without a pending action creates one of its direction.
  predicate Creates(e: Event, r: Record, s: InstrumentState, next: InstrumentState) {
    && e.signal.Some? && s.pending.None? && r.attempt.None? && r.outcome.None? && r.position == s.position
    && r.action.Some?
    && var a := r.action.value;
    && a.signal == e.id && a.instrument == e.instrument && a.created == e.time && a.origin == s.state
    && a.kind == (if e.signal.value.kind == LongEntry then Entry else Exit)
    && next == InstrumentState(e.instrument, if a.kind == Entry then PendingEntry else PendingExit, Some(a), s.position)
  }

  // An attempt of the pending action: a filled entry opens a position there, a filled exit closes the
  // one that was open, and a failed attempt moves nothing.
  predicate Tries(e: Event, r: Record, s: InstrumentState, next: InstrumentState) {
    && r.outcome.Some? && r.action.Some? && r.action == s.pending && r.attempt == Some(r.outcome.value.attempt)
    && match r.outcome.value.status
       case Unfilled => r.decision == AttemptUnfilled && r.position == s.position && next == s
       case Rejected => r.decision == AttemptRejected && r.position == s.position && next == s
       case Filled =>
         && r.decision == ActionFilled
         && if r.action.value.kind == Entry then
              && s.position.None? && r.position == Some(Position(e.instrument, r.action.value.id, e.time))
              && next == InstrumentState(e.instrument, Holding, None, r.position)
            else s.position.Some? && r.position == s.position && next == InstrumentState(e.instrument, Flat, None, None)
  }

  // Nothing moves, and what the record shows is what is pending and held.
  predicate Stays(r: Record, s: InstrumentState, next: InstrumentState) {
    && next == s && r.attempt.None? && r.outcome.None?
    && r.decision != ActionFilled && r.decision != AttemptUnfilled && r.decision != AttemptRejected
    && (r.action.Some? ==> r.action == s.pending) && (r.position.Some? ==> r.position == s.position)
  }

  predicate Moves(e: Event, r: Record, s: InstrumentState, next: InstrumentState) {
    && RecordsMove(e, r, s, next)
    && if r.decision == ActionCreated then Creates(e, r, s, next)
       else if r.outcome.Some? then Tries(e, r, s, next)
       else Stays(r, s, next)
  }

  lemma CreationMoves(t: Tables, w: Walked, s: InstrumentState, e: Event, r: Record, next: Walked)
    requires CheckCreation(t, w, s, e, r) == Ok(next)
    ensures Creates(e, r, s, StateOf(next.states, e.instrument))
  {
  }

  lemma EntryMoves(w: Walked, s: InstrumentState, e: Event, r: Record, economic: EconomicExecution, next: Walked)
    requires r.action.Some? && r.outcome == Some(economic.outcome) && r.event == e.id && r.time == e.time
    requires r.instrument == e.instrument && r.action.value.kind == Entry
    requires CheckEntry(w, s, e, r, economic) == Ok(next)
    ensures s.position.None? && r.decision == ActionFilled
    ensures r.position == Some(Position(e.instrument, r.action.value.id, e.time))
    ensures StateOf(next.states, e.instrument) == InstrumentState(e.instrument, Holding, None, r.position)
  {
  }

  lemma ExitMoves(w: Walked, s: InstrumentState, e: Event, r: Record, economic: EconomicExecution, next: Walked)
    requires CheckExit(w, s, e, r, economic) == Ok(next)
    ensures s.position.Some? && r.position == s.position && r.decision == ActionFilled
    ensures StateOf(next.states, e.instrument) == InstrumentState(e.instrument, Flat, None, None)
  {
  }

  lemma OutcomeMoves(
    result: SimulationResult, t: Tables, w: Walked, s: InstrumentState, e: Event, r: Record, next: Walked)
    requires TablesSound(t) && r.outcome.Some? && r.event == e.id && r.time == e.time && r.instrument == e.instrument
    requires CheckOutcome(result, t, w, s, e, r, r.outcome.value) == Ok(next)
    ensures Tries(e, r, s, StateOf(next.states, e.instrument))
  {
    var o := r.outcome.value;
    var used := w.(used := w.used + {o.attempt.id}, states := w.states[e.instrument := s]);
    if o.status == Filled {
      var economic := t.economics[o.attempt.id];
      if r.action.value.kind == Entry {
        EntryMoves(used, s, e, r, economic, next);
      } else {
        ExitMoves(used, s, e, r, economic, next);
      }
    }
  }

  lemma EventMoved(result: SimulationResult, t: Tables, w: Walked, e: Event, next: Walked)
    requires TablesSound(t) && CheckEvent(result, t, w, e) == Ok(next)
    requires e.id in t.records && t.records[e.id].event == e.id
    ensures Moves(e, t.records[e.id], StateOf(w.states, e.instrument), StateOf(next.states, e.instrument))
  {
    var r, s := t.records[e.id], StateOf(w.states, e.instrument);
    EventMoves(result, t, w, e, next);
    if r.decision == ActionCreated {
      CreationMoves(t, w, s, e, r, next);
    } else if r.outcome.Some? {
      OutcomeMoves(result, t, w, s, e, r, next);
    }
  }

  // The state an instrument had before an event, by the walk over the events in causal order.
  function StateBefore(result: SimulationResult, t: Tables, i: nat, instrument: Instrument): InstrumentState
    requires i <= |WalkOrder(result)| && Walk(result, t, WalkOrder(result)[..i]).Ok?
  {
    StateOf(Walk(result, t, WalkOrder(result)[..i]).value.states, instrument)
  }

  lemma StepAt(result: SimulationResult, t: Tables, es: seq<Event>, i: nat)
    requires Walk(result, t, es).Ok? && i < |es|
    ensures Walk(result, t, es[..i]).Ok? && Walk(result, t, es[..i + 1]).Ok?
    ensures CheckEvent(result, t, Walk(result, t, es[..i]).value, es[i]) == Ok(Walk(result, t, es[..i + 1]).value)
  {
    if Walk(result, t, es[..i + 1]).Err? {
      WalkFails(result, t, es, i + 1);
    }
    if Walk(result, t, es[..i]).Err? {
      WalkFails(result, t, es, i);
    }
    WalkSnoc(result, t, es, i);
  }

  lemma OthersStay(result: SimulationResult, t: Tables, es: seq<Event>, e: Event, next: Walked)
    requires TablesSound(t) && Sorted(EventKey(), es) && Walk(result, t, es).Ok?
    requires CheckEvent(result, t, Walk(result, t, es).value, e) == Ok(next)
    ensures Framed(Walk(result, t, es).value, next, e)
  {
    WalkTimed(result, t, es);
    StepStates(result, t, Walk(result, t, es).value, e, next);
  }

  lemma RecordOfEvent(records: seq<Record>, e: Event)
    requires e.id in Table(RecordEvent(), records)
    ensures Table(RecordEvent(), records)[e.id].event == e.id && Table(RecordEvent(), records)[e.id] in records
  {
    TableElements(RecordEvent(), records);
  }

  lemma CoveredRecords(result: SimulationResult)
    requires CoverEvents(result).Ok?
    ensures CoverEvents(result).value.1 == Table(RecordEvent(), result.lifecycle.records)
  {
  }

  lemma RecordsTabled(result: SimulationResult, t: Tables)
    requires Cover(result) == Ok(t)
    ensures t.records == Table(RecordEvent(), result.lifecycle.records)
  {
    CoverParts(result, t);
    CoveredRecords(result);
  }

  lemma MovedAt(result: SimulationResult, t: Tables, es: seq<Event>, i: nat)
    requires TablesSound(t) && t.records == Table(RecordEvent(), result.lifecycle.records)
    requires Sorted(EventKey(), es) && Walk(result, t, es).Ok? && i < |es|
    ensures Walk(result, t, es[..i]).Ok? && Walk(result, t, es[..i + 1]).Ok?
    ensures es[i].id in t.records && t.records[es[i].id] in result.lifecycle.records
    ensures var before, after := Walk(result, t, es[..i]).value, Walk(result, t, es[..i + 1]).value;
            && Framed(before, after, es[i])
            && Moves(es[i], t.records[es[i].id], StateOf(before.states, es[i].instrument),
                     StateOf(after.states, es[i].instrument))
  {
    StepAt(result, t, es, i);
    var before, after := Walk(result, t, es[..i]).value, Walk(result, t, es[..i + 1]).value;
    EventMoves(result, t, before, es[i], after);
    RecordOfEvent(result.lifecycle.records, es[i]);
    EventMoved(result, t, before, es[i], after);
    OthersStay(result, t, es[..i], es[i], after);
  }

  // On any accepted evidence every event, in causal order, has its record, and moves its instrument
  // and no other, as the record says and the lifecycle allows.
  lemma AcceptedMoves(result: SimulationResult, i: nat) returns (t: Tables, r: Record)
    requires Reconstruct(result).Ok? && i < |WalkOrder(result)|
    ensures Walk(result, t, WalkOrder(result)[..i]).Ok? && Walk(result, t, WalkOrder(result)[..i + 1]).Ok?
    ensures r in result.lifecycle.records
    ensures var e := WalkOrder(result)[i];
            && Moves(e, r, StateBefore(result, t, i, e.instrument), StateBefore(result, t, i + 1, e.instrument))
            && forall other :: other != e.instrument ==> StateBefore(result, t, i + 1, other) == StateBefore(result, t, i, other)
  {
    var w;
    t, w := Reconstructed(result);
    CoverSound(result, t);
    RecordsTabled(result, t);
    SortSorted(EventKey(), result.timeline.ordered);
    MovedAt(result, t, WalkOrder(result), i);
    r := t.records[WalkOrder(result)[i].id];
  }

  // ----- how accepted evidence ends -----

  lemma SameStates(w: Walked, es: seq<Event>, s: InstrumentState)
    ensures s in WalkedStates(w, es) <==> s in Map(i => StateOf(w.states, i), Sort(InstrumentKey(), Seen(es)))
  {
    var instruments := Sort(InstrumentKey(), Seen(es));
    SortElements(InstrumentKey(), Seen(es));
    MapListed(i => StateOf(w.states, i), Seen(es), s);
    MapListed(i => StateOf(w.states, i), instruments, s);
  }

  lemma MapListed<T, U>(f: T -> U, items: seq<T>, y: U)
    ensures y in Map(f, items) <==> exists x :: x in items && f(x) == y
  {
    if y in Map(f, items) {
      var k :| 0 <= k < |items| && Map(f, items)[k] == y;
      assert items[k] in items;
    }
    if x :| x in items && f(x) == y {
      var k :| 0 <= k < |items| && items[k] == x;
      assert Map(f, items)[k] == y;
    }
  }

  lemma EndsListed(result: SimulationResult, states: seq<InstrumentState>, final: seq<InstrumentState>)
    requires CheckPending(result, states).Ok? && CheckPositions(result, states).Ok?
    requires forall s :: s in states <==> s in final
    ensures forall a :: a in result.lifecycle.unresolved <==> exists s :: s in final && s.pending == Some(a)
    ensures forall p :: p in result.lifecycle.openPositions <==> exists s :: s in final && s.position == Some(p)
    ensures DistinctKeys(ActionIdOf(), result.lifecycle.unresolved)
    ensures DistinctKeys(PositionOpening(), result.lifecycle.openPositions)
  {
    SameTables(ActionIdOf(), PendingActions(states), result.lifecycle.unresolved, "duplicate pending actions",
               "duplicate unresolved actions");
    SameTables(PositionOpening(), OpenPositions(states), result.lifecycle.openPositions, "duplicate positions",
               "duplicate open positions");
    forall a ensures a in result.lifecycle.unresolved <==> exists s :: s in final && s.pending == Some(a) {
      LifecycleTable.PendingExactly(states, a);
    }
    forall p ensures p in result.lifecycle.openPositions <==> exists s :: s in final && s.position == Some(p) {
      LifecycleTable.OpenExactly(states, p);
    }
  }

  lemma EndChecks(result: SimulationResult, t: Tables, w: Walked, es: seq<Event>)
    requires Trades.Conclude(result, t, w, es).Ok?
    ensures CheckPending(result, WalkedStates(w, es)).Ok? && CheckPositions(result, WalkedStates(w, es)).Ok?
    ensures OpeningIds(w.openings) == Table(PositionOpening(), result.lifecycle.openPositions).Keys
  {
  }

  // On any accepted evidence the declared final states are those the walk over its events ends in,
  // the unresolved actions and open positions are theirs, and every open entry has its position.
  lemma AcceptedEnds(result: SimulationResult) returns (t: Tables)
    requires Reconstruct(result).Ok?
    ensures Walk(result, t, WalkOrder(result)).Ok?
    ensures var final, w := result.lifecycle.finalStates, Walk(result, t, WalkOrder(result)).value;
            && (forall s :: s in final <==> s.instrument in Seen(WalkOrder(result)) && s == StateOf(w.states, s.instrument))
            && DistinctKeys(StateInstrument(), final)
            && (forall a :: a in result.lifecycle.unresolved <==> exists s :: s in final && s.pending == Some(a))
            && (forall p :: p in result.lifecycle.openPositions <==> exists s :: s in final && s.position == Some(p))
  {
    var w;
    t, w := Reconstructed(result);
    var es, final := WalkOrder(result), result.lifecycle.finalStates;
    CoverSound(result, t);
    SortSorted(EventKey(), result.timeline.ordered);
    WalkTimed(result, t, es);
    WalkMeets(result, t, es);
    FinalIsWalked(result, t, w, es);
    EndChecks(result, t, w, es);
    StatesDeclared(w, es, final);
    FinalsWalked(w, es, final);
    EndsListed(result, WalkedStates(w, es), final);
  }

  lemma FinalsWalked(w: Walked, es: seq<Event>, final: seq<InstrumentState>)
    requires ValidStates(w) && w.states == Table(StateInstrument(), final) && |w.states| == |final|
    requires forall s :: s in Map(i => StateOf(w.states, i), Sort(InstrumentKey(), Seen(es))) <==> s in final
    ensures forall s :: s in WalkedStates(w, es) <==> s in final
    ensures forall s :: s in final <==> s.instrument in Seen(es) && s == StateOf(w.states, s.instrument)
    ensures DistinctKeys(StateInstrument(), final)
  {
    TableDistinct(StateInstrument(), final);
    forall s ensures s in WalkedStates(w, es) <==> s in final {
      SameStates(w, es, s);
    }
    forall s ensures s in final <==> s.instrument in Seen(es) && s == StateOf(w.states, s.instrument) {
      MapListed(i => StateOf(w.states, i), Seen(es), s);
    }
  }

  ghost predicate EntriesOf(entries: seq<EconomicExecution>, openings: seq<Opening>) {
    entries == Map(EconomicOf(), Sort(OpeningKey(), openings))
  }

  lemma EntryListed(entries: seq<EconomicExecution>, openings: seq<Opening>, x: EconomicExecution)
    requires EntriesOf(entries, openings)
    ensures x in entries <==> exists o :: o in openings && o.economic == x
  {
    SortElements(OpeningKey(), openings);
    MapListed(EconomicOf(), Sort(OpeningKey(), openings), x);
    if x in entries {
      var o :| o in Sort(OpeningKey(), openings) && EconomicOf()(o) == x;
      assert o in openings && o.economic == x;
    }
    if o :| o in openings && o.economic == x {
      assert o in Sort(OpeningKey(), openings) && EconomicOf()(o) == x;
    }
  }

  // An opening is kept under the action of its own attempt.
  ghost predicate OwnActions(openings: seq<Opening>) {
    forall o :: o in openings ==> o.action == o.economic.outcome.attempt.action
  }

  lemma StepOwnActions(t: Tables, w: Walked, e: Event, next: Walked)
    requires OwnActions(w.openings)
    requires NoFill(t, w, next) || (exists o :: Opened(t, w, next, e, o))
             || (exists k, trade :: Closed(t, w, next, e, k, trade))
    ensures OwnActions(next.openings)
  {
    forall o | o in next.openings && o !in w.openings ensures o.action == o.economic.outcome.attempt.action {
    }
  }

  lemma {:induction false} WalkOwnActions(result: SimulationResult, t: Tables, es: seq<Event>)
    requires TablesSound(t) && Walk(result, t, es).Ok?
    ensures OwnActions(Walk(result, t, es).value.openings)
  {
    if es != [] {
      var w, next := Walk(result, t, Front(es)).value, Walk(result, t, es).value;
      WalkOwnActions(result, t, Front(es));
      StepCases(result, t, w, Last(es), next);
      StepOwnActions(t, w, Last(es), next);
    }
  }

  // The open entries are those of the declared open positions.
  lemma EntriesHeld(entries: seq<EconomicExecution>, openings: seq<Opening>, held: seq<Position>)
    requires OwnActions(openings) && EntriesOf(entries, openings)
    requires OpeningIds(openings) == Table(PositionOpening(), held).Keys
    ensures forall x :: x in entries ==> exists p :: p in held && p.opening == x.outcome.attempt.action
    ensures forall p :: p in held ==> exists x :: x in entries && x.outcome.attempt.action == p.opening
  {
    TableElements(PositionOpening(), held);
    forall x | x in entries ensures exists p :: p in held && p.opening == x.outcome.attempt.action {
      EntryListed(entries, openings, x);
      var o :| o in openings && o.economic == x;
      assert o.action in Table(PositionOpening(), held);
    }
    forall p | p in held ensures exists x :: x in entries && x.outcome.attempt.action == p.opening {
      assert PositionOpening()(p) in OpeningIds(openings);
      var o :| o in openings && o.action == p.opening;
      EntryListed(entries, openings, o.economic);
    }
  }

  // On any accepted evidence every open position has its open entry, and every open entry its
  // position.
  lemma AcceptedEntries(result: SimulationResult)
    requires Reconstruct(result).Ok?
    ensures var entries := Reconstruct(result).value.openEntries;
            && (forall x :: x in entries ==>
                  exists p :: p in result.lifecycle.openPositions && p.opening == x.outcome.attempt.action)
            && (forall p :: p in result.lifecycle.openPositions ==>
                  exists x :: x in entries && x.outcome.attempt.action == p.opening)
  {
    var t, w := Reconstructed(result);
    CoverSound(result, t);
    WalkOwnActions(result, t, WalkOrder(result));
    EndChecks(result, t, w, WalkOrder(result));
    EntriesHeld(Reconstruct(result).value.openEntries, w.openings, result.lifecycle.openPositions);
  }
}
