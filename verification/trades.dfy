// Reconciling finished simulation evidence into long trades:
// evaluation/trades.py and evaluation/models.py.
module Trades {
  import opened Collections
  import opened Order
  import opened Domain
  import opened Events
  import opened Execution
  import opened Lifecycle
  import opened Process
  import opened Economics
  import opened Runner

  // The reference chain of one fill.
  predicate ValidFill(record: Record, economic: EconomicExecution) {
    && record.decision == ActionFilled
    && record.action.Some? && record.attempt.Some? && record.position.Some?
    && record.outcome == Some(economic.outcome)
    && economic.outcome.status == Filled
    && var action, attempt, position := record.action.value, record.attempt.value, record.position.value;
    && var instrument := economic.outcome.attempt.instrument;
    && economic.outcome.attempt == attempt
    && record.instrument == instrument && action.instrument == instrument
    && position.instrument == instrument && attempt.opportunityInstrument == instrument
    && action.id == attempt.action && action.kind == attempt.kind && action.signal == attempt.signal
    && action.eligibleAfter == attempt.eligibleAfter
    && record.event == attempt.opportunity && record.time == attempt.time
    && attempt.time == attempt.opportunityTime && attempt.time > action.eligibleAfter
    && (record.prior, record.resulting)
       == (if action.kind == Entry then (PendingEntry, Holding) else (PendingExit, Flat))
    && (action.kind == Entry ==> position.opening == action.id && position.openedAt == record.time)
    && economic.outcome.evidence.Some?
    && economic.outcome.evidence.value.available <= attempt.time
    && attempt.model == EXECUTION_MODEL
    && attempt.time - economic.outcome.evidence.value.observed <= economic.outcome.config.maximumQuoteAge
  }

  datatype TradeRecord = TradeRecord(
    entry: EconomicExecution, exit: EconomicExecution, opening: Record, closing: Record)
  {
    function Instrument(): Instrument { entry.outcome.attempt.instrument }

    function EntryTime(): int { entry.outcome.attempt.time }

    function ExitTime(): int { exit.outcome.attempt.time }

    // When the exit was decided.
    function ExitDecided(): int { exit.outcome.attempt.eligibleAfter }

    function Ordinary(): bool { entry.Price() > 0.0 && exit.Price() > 0.0 }

    function Gross(): real { (exit.Price() - entry.Price()) * entry.config.quantity }

    function Fees(): real { entry.fee + exit.fee }

    function Net(): real { Gross() - Fees() }

    predicate Valid() {
      && ValidFill(opening, entry)
      && ValidFill(closing, exit)
      && entry.outcome.attempt.kind == Entry && exit.outcome.attempt.kind == Exit
      && entry.outcome.attempt.instrument == exit.outcome.attempt.instrument
      && opening.position == closing.position
      && entry.outcome.attempt.action != exit.outcome.attempt.action
      && entry.outcome.attempt.id != exit.outcome.attempt.id
      && entry.config.quantity == exit.config.quantity
      && entry.config.currency == exit.config.currency
      && EntryTime() < ExitTime() && EntryTime() < ExitDecided()
      && (Ordinary() ==> entry.grossNotional > 0.0)
    }
  }

  // An entry fill whose exit has not been met yet.
  datatype Opening = Opening(action: ActionId, record: Record, economic: EconomicExecution)

  // Items by key; a repeated key keeps its last item.
  function Table<K, V>(key: V -> K, items: seq<V>): map<K, V> {
    if items == [] then map[] else Table(key, Front(items))[key(Last(items)) := Last(items)]
  }

  // Duplicates are rejected, even identical ones.
  function Unique<K, V>(key: V -> K, items: seq<V>, duplicate: string): Result<map<K, V>> {
    var table := Table(key, items);
    if |table| != |items| then Err(duplicate) else Ok(table)
  }

  function EconomicsInstrument(): EconomicsConfig -> Instrument { (c: EconomicsConfig) => c.instrument }
  function StrategyInstrument(): MeanReversionConfig -> Instrument { (c: MeanReversionConfig) => c.instrument }
  function RecordEvent(): Record -> EventId { (r: Record) => r.event }
  function AttemptIdOf(): Attempt -> AttemptId { (a: Attempt) => a.id }
  function OutcomeAttempt(): Outcome -> AttemptId { (o: Outcome) => o.attempt.id }
  function EconomicAttempt(): EconomicExecution -> AttemptId { (e: EconomicExecution) => e.outcome.attempt.id }
  function StateInstrument(): InstrumentState -> Instrument { (s: InstrumentState) => s.instrument }
  function ActionIdOf(): Action -> ActionId { (a: Action) => a.id }
  function PositionOpening(): Position -> ActionId { (p: Position) => p.opening }

  datatype Tables = Tables(
    configs: map<Instrument, EconomicsConfig>, strategies: map<Instrument, MeanReversionConfig>,
    events: map<EventId, Event>, records: map<EventId, Record>,
    attempts: map<AttemptId, Attempt>, outcomes: map<AttemptId, Outcome>,
    economics: map<AttemptId, EconomicExecution>)

  function FilledOnly(outcomes: map<AttemptId, Outcome>): map<AttemptId, Outcome> {
    map k | k in outcomes && outcomes[k].status == Filled :: outcomes[k]
  }

  function AttemptsOf(outcomes: map<AttemptId, Outcome>): map<AttemptId, Attempt> {
    map k | k in outcomes :: outcomes[k].attempt
  }

  function OutcomesOf(economics: map<AttemptId, EconomicExecution>): map<AttemptId, Outcome> {
    map k | k in economics :: economics[k].outcome
  }

  predicate ConfiguredAs(configs: map<Instrument, EconomicsConfig>, economic: EconomicExecution) {
    && economic.outcome.attempt.instrument in configs
    && economic.config == configs[economic.outcome.attempt.instrument]
  }

  function CoverEvents(result: SimulationResult): Result<(map<EventId, Event>, map<EventId, Record>)> {
    var events :- Unique(IdOf(), result.timeline.ordered, "duplicate events");
    var same :- Unique(IdOf(), result.lifecycle.ordered, "duplicate lifecycle events");
    if events != same then Err("timeline and lifecycle events disagree") else
    var records :- Unique(RecordEvent(), result.lifecycle.records, "duplicate lifecycle records");
    if records.Keys != events.Keys then Err("lifecycle records must cover every event exactly")
    else Ok((events, records))
  }

  function CoverOutcomes(result: SimulationResult): Result<(map<AttemptId, Attempt>, map<AttemptId, Outcome>)> {
    var attempts :- Unique(AttemptIdOf(), result.attempts, "duplicate attempts");
    var outcomes :- Unique(OutcomeAttempt(), result.outcomes, "duplicate outcomes");
    var sameAttempts :- Unique(AttemptIdOf(), result.lifecycle.attempts, "duplicate lifecycle attempts");
    if attempts != sameAttempts then Err("simulation and lifecycle attempts disagree") else
    var sameOutcomes :- Unique(OutcomeAttempt(), result.lifecycle.outcomes, "duplicate lifecycle outcomes");
    if outcomes != sameOutcomes then Err("simulation and lifecycle outcomes disagree")
    else if attempts != AttemptsOf(outcomes) then Err("attempts and outcomes must have exact coverage")
    else Ok((attempts, outcomes))
  }

  function CoverEconomics(
    result: SimulationResult, configs: map<Instrument, EconomicsConfig>, outcomes: map<AttemptId, Outcome>)
    : Result<map<AttemptId, EconomicExecution>>
  {
    var economics :- Unique(EconomicAttempt(), result.economicExecutions, "duplicate economic executions");
    if FilledOnly(outcomes) != OutcomesOf(economics)
    then Err("economic evidence must cover every filled outcome exactly")
    else if exists k :: k in economics && !ConfiguredAs(configs, economics[k])
    then Err("economic configuration disagrees with run")
    else Ok(economics)
  }

  function CoverConfigs(result: SimulationResult)
    : Result<(map<Instrument, EconomicsConfig>, map<Instrument, MeanReversionConfig>)>
  {
    if result.economics.None? then Err("evaluation requires enabled economics") else
    var configs :- Unique(EconomicsInstrument(), result.economics.value, "duplicate economics configs");
    var strategies :- Unique(StrategyInstrument(), result.configs, "duplicate strategy configs");
    if configs.Keys != strategies.Keys then Err("economics configurations must cover strategies exactly")
    else Ok((configs, strategies))
  }

  // The evidence tables, when the parts of the result cover each other exactly.
  function Cover(result: SimulationResult): Result<Tables> {
    var (configs, strategies) :- CoverConfigs(result);
    var (events, records) :- CoverEvents(result);
    var (attempts, outcomes) :- CoverOutcomes(result);
    var economics :- CoverEconomics(result, configs, outcomes);
    Ok(Tables(configs, strategies, events, records, attempts, outcomes, economics))
  }

  // What the walk has established so far.
  datatype Walked = Walked(
    states: map<Instrument, InstrumentState>, openings: seq<Opening>,
    used: set<AttemptId>, actions: set<ActionId>, trades: seq<TradeRecord>)

  const Unwalked := Walked(map[], [], {}, {}, [])

  function IndexOf(openings: seq<Opening>, action: ActionId): (k: nat)
    ensures k <= |openings|
    ensures k < |openings| ==> openings[k].action == action
    ensures k == |openings| ==> forall o :: o in openings ==> o.action != action
  {
    if openings == [] then 0
    else if openings[0].action == action then 0
    else 1 + IndexOf(openings[1..], action)
  }

  predicate CreationMatches(
    strategies: map<Instrument, MeanReversionConfig>, actions: set<ActionId>, current: InstrumentState, e: Event,
    r: Record)
  {
    && e.signal.Some? && r.action.Some? && r.outcome.None? && r.attempt.None?
    && var action := r.action.value;
    && action.id !in actions
    && action.signal == e.id && action.instrument == e.instrument && action.created == e.time
    && action.origin == current.state
    && r.position == current.position && current.pending.None?
    && e.instrument in strategies
    && action.kind == (if e.signal.value.kind == LongEntry then Entry else Exit)
  }

  predicate AttemptMatches(
    result: SimulationResult, outcomes: map<AttemptId, Outcome>, used: set<AttemptId>, current: InstrumentState,
    e: Event, r: Record, outcome: Outcome)
  {
    var attempt := outcome.attempt;
    && r.action.Some? && r.action == current.pending && r.attempt == Some(attempt)
    && var action := r.action.value;
    && attempt.id in outcomes && outcomes[attempt.id] == outcome
    && attempt.id !in used
    && attempt.action == action.id && attempt.signal == action.signal && attempt.kind == action.kind
    && attempt.instrument == e.instrument && attempt.opportunityInstrument == e.instrument
    && attempt.opportunity == e.id && attempt.time == e.time && attempt.opportunityTime == e.time
    && attempt.eligibleAfter == action.eligibleAfter && e.time > action.eligibleAfter
    && e.kind == ExecutionOpportunity
    && outcome.config == result.execution
    && attempt.model == EXECUTION_MODEL
  }

  predicate IdleMatches(current: InstrumentState, r: Record) {
    && r.attempt.None?
    && r.decision !in {ActionFilled, AttemptUnfilled, AttemptRejected}
    && (r.action.Some? ==> r.action == current.pending)
    && (r.position.Some? ==> r.position == current.position)
  }

  function SetState(w: Walked, s: InstrumentState): Result<Walked> {
    if !s.Valid() then Err("lifecycle state contract")
    else Ok(w.(states := w.states[s.instrument := s]))
  }

  function CheckCreation(t: Tables, w: Walked, current: InstrumentState, e: Event, r: Record): Result<Walked> {
    if !CreationMatches(t.strategies, w.actions, current, e, r) then Err("invalid or duplicate lifecycle action creation")
    else
      SetState(w.(actions := w.actions + {r.action.value.id}),
               InstrumentState(e.instrument, if r.action.value.kind == Entry then PendingEntry else PendingExit,
                               r.action, current.position))
  }

  function CheckEntry(w: Walked, current: InstrumentState, e: Event, r: Record, economic: EconomicExecution)
    : Result<Walked>
    requires r.action.Some?
  {
    if !ValidFill(r, economic) then Err("fill must match authoritative evidence")
    else if current.position.Some? || IndexOf(w.openings, r.action.value.id) < |w.openings|
    then Err("entry already opened")
    else
      SetState(w.(openings := w.openings + [Opening(r.action.value.id, r, economic)]),
               InstrumentState(e.instrument, Holding, None, r.position))
  }

  function CheckExit(w: Walked, current: InstrumentState, e: Event, r: Record, economic: EconomicExecution)
    : Result<Walked>
  {
    if current.position.None? || r.position != current.position
    then Err("exit must close the authoritative open position")
    else
      var k := IndexOf(w.openings, current.position.value.opening);
      if k == |w.openings| then Err("exit has no unique filled opening action")
      else
        var trade := TradeRecord(w.openings[k].economic, economic, w.openings[k].record, r);
        if !trade.Valid() then Err("inconsistent trade")
        else
          SetState(w.(openings := w.openings[..k] + w.openings[k + 1..], trades := w.trades + [trade]),
                   FlatState(e.instrument))
  }

  function CheckOutcome(
    result: SimulationResult, t: Tables, w: Walked, current: InstrumentState, e: Event, r: Record, o: Outcome)
    : Result<Walked>
  {
    if !AttemptMatches(result, t.outcomes, w.used, current, e, r, o)
    then Err("attempt does not match the pending action and opportunity")
    else if o.evidence.Some? && o.evidence.value !in result.quotes
    then Err("outcome quote is absent from supplied quote evidence")
    else
      var used := w.(used := w.used + {o.attempt.id}, states := w.states[e.instrument := current]);
      if o.status == Filled then
        if o.attempt.id !in t.economics then Err("missing economics")
        else if r.action.value.kind == Entry then CheckEntry(used, current, e, r, t.economics[o.attempt.id])
        else CheckExit(used, current, e, r, t.economics[o.attempt.id])
      else if r.decision != (if o.status == Unfilled then AttemptUnfilled else AttemptRejected)
              || r.position != current.position
      then Err("unsuccessful attempt must retain its pending state")
      else Ok(used)
  }

  predicate RecordMatches(current: InstrumentState, e: Event, r: Record) {
    && r.instrument == e.instrument && r.kind == e.kind && r.time == e.time && r.source == e.source
    && r.prior == current.state
  }

  // Creation, attempt, or nothing.
  function CheckMove(result: SimulationResult, t: Tables, w: Walked, current: InstrumentState, e: Event, r: Record)
    : Result<Walked>
  {
    if r.decision == ActionCreated then CheckCreation(t, w, current, e, r)
    else if r.outcome.Some? then CheckOutcome(result, t, w, current, e, r, r.outcome.value)
    else if IdleMatches(current, r) then Ok(w.(states := w.states[e.instrument := current]))
    else Err("missing execution evidence or inconsistent non-transition")
  }

  // One event of the walk.
  function CheckEvent(result: SimulationResult, t: Tables, w: Walked, e: Event): Result<Walked> {
    if e.id !in t.records then Err("missing record") else
    var r := t.records[e.id];
    var current := StateOf(w.states, e.instrument);
    if !RecordMatches(current, e, r) then Err("lifecycle record disagrees with event or prior state") else
    var moved :- CheckMove(result, t, w, current, e, r);
    if r.resulting != StateOf(moved.states, e.instrument).state
    then Err("lifecycle resulting state disagrees with evidence")
    else Ok(moved)
  }

  function Walk(result: SimulationResult, t: Tables, es: seq<Event>): Result<Walked> {
    if es == [] then Ok(Unwalked)
    else
      var w :- Walk(result, t, Front(es));
      CheckEvent(result, t, w, Last(es))
  }

  datatype Reconstruction = Reconstruction(
    trades: seq<TradeRecord>, incomplete: seq<InstrumentState>,
    openEntries: seq<EconomicExecution>, unsuccessful: seq<Outcome>)

  function TradeKey(): TradeRecord -> Key {
    (t: TradeRecord) =>
      [Num(t.ExitTime()), Text(t.Instrument().identifier)] + IdKey(t.exit.outcome.attempt.action.signal)
  }

  function OpeningKey(): Opening -> Key { (o: Opening) => IdKey(o.action.signal) }
  function OutcomeKey(): Outcome -> Key { (o: Outcome) => AttemptKey()(o.attempt) }
  function NotFlat(): InstrumentState -> bool { (s: InstrumentState) => s.state != Flat }
  function IsFilled(): Outcome -> bool { (o: Outcome) => o.status == Filled }
  function EconomicOf(): Opening -> EconomicExecution { (o: Opening) => o.economic }

  function WalkedStates(w: Walked, es: seq<Event>): seq<InstrumentState> {
    Map(i => StateOf(w.states, i), Seen(es))
  }

  // The final states the result declares are those the walk ended in.
  function CheckFinal(result: SimulationResult, w: Walked): Result<map<Instrument, InstrumentState>> {
    var final :- Unique(StateInstrument(), result.lifecycle.finalStates, "duplicate final states");
    if final != w.states then Err("final states disagree with lifecycle trace") else Ok(final)
  }

  function CheckPending(result: SimulationResult, states: seq<InstrumentState>): Result<map<ActionId, Action>> {
    var pending :- Unique(ActionIdOf(), PendingActions(states), "duplicate pending actions");
    var unresolved :- Unique(ActionIdOf(), result.lifecycle.unresolved, "duplicate unresolved actions");
    if pending != unresolved then Err("unresolved actions disagree with final states") else Ok(pending)
  }

  function CheckPositions(result: SimulationResult, states: seq<InstrumentState>): Result<map<ActionId, Position>> {
    var positions :- Unique(PositionOpening(), OpenPositions(states), "duplicate positions");
    var open :- Unique(PositionOpening(), result.lifecycle.openPositions, "duplicate open positions");
    if positions != open then Err("open positions disagree with final states") else Ok(positions)
  }

  function OpeningIds(openings: seq<Opening>): set<ActionId> {
    set o | o in openings :: o.action
  }

  function Summary(result: SimulationResult, w: Walked, es: seq<Event>): Reconstruction {
    Reconstruction(
      Sort(TradeKey(), w.trades),
      Filter(NotFlat(), Map(i => StateOf(w.states, i), Sort(InstrumentKey(), Seen(es)))),
      Map(EconomicOf(), Sort(OpeningKey(), w.openings)),
      Sort(OutcomeKey(), Filter(Not(IsFilled()), result.outcomes)))
  }

  // Everything the walk found must be what the result declares at its end.
  function Conclude(result: SimulationResult, t: Tables, w: Walked, es: seq<Event>): Result<Reconstruction> {
    if w.used != t.attempts.Keys then Err("orphan execution attempts") else
    var _ :- CheckFinal(result, w);
    var _ :- CheckPending(result, WalkedStates(w, es));
    var positions :- CheckPositions(result, WalkedStates(w, es));
    if OpeningIds(w.openings) != positions.Keys then Err("filled entries must be completed or explicitly open")
    else Ok(Summary(result, w, es))
  }

  function WalkOrder(result: SimulationResult): seq<Event> {
    Sort(EventKey(), result.timeline.ordered)
  }

  function Reconstruct(result: SimulationResult): Result<Reconstruction> {
    var t :- Cover(result);
    var w :- Walk(result, t, WalkOrder(result));
    Conclude(result, t, w, WalkOrder(result))
  }

  // ----- the walk as a loop over changing variables -----

  lemma {:induction false} WalkFails(result: SimulationResult, t: Tables, es: seq<Event>, n: nat)
    requires n <= |es| && Walk(result, t, es[..n]).Err?
    ensures Walk(result, t, es).Err? && Walk(result, t, es) == Walk(result, t, es[..n])
  {
    if n == |es| {
      assert es[..n] == es;
    } else {
      assert Front(es)[..n] == es[..n];
      WalkFails(result, t, Front(es), n);
    }
  }

  lemma WalkSnoc(result: SimulationResult, t: Tables, es: seq<Event>, n: nat)
    requires n < |es| && Walk(result, t, es[..n]).Ok?
    ensures Walk(result, t, es[..n + 1]) == CheckEvent(result, t, Walk(result, t, es[..n]).value, es[n])
  {
    assert Front(es[..n + 1]) == es[..n];
  }

  lemma PutTwice<K, V>(m: map<K, V>, k: K, a: V, b: V)
    ensures m[k := a][k := b] == m[k := b]
  {
  }

  // Entering the flat state for an instrument not met before changes no later check.
  lemma Entered(
    result: SimulationResult, t: Tables, w: Walked, current: InstrumentState, e: Event, r: Record, entered: Walked)
    requires entered == w.(states := w.states[e.instrument := current])
    ensures CheckMove(result, t, w, current, e, r) == CheckMove(result, t, entered, current, e, r)
  {
    PutTwice(w.states, e.instrument, current, current);
    if r.decision == ActionCreated && CreationMatches(t.strategies, w.actions, current, e, r) {
      PutTwice(w.states, e.instrument, current,
               InstrumentState(e.instrument, if r.action.value.kind == Entry then PendingEntry else PendingExit,
                               r.action, current.position));
    }
  }

  // What the walk has established, or the condition it raised.
  function Told(raised: Option<string>, w: Walked): Result<Walked> {
    if raised.Some? then Err(raised.value) else Ok(w)
  }

  // The variables the walk updates event by event.
  class Walker {
    var states: map<Instrument, InstrumentState>
    var openings: seq<Opening>
    var used: set<AttemptId>
    var actions: set<ActionId>
    var trades: seq<TradeRecord>

    constructor ()
      ensures Reached() == Unwalked
    {
      states, openings, used, actions, trades := map[], [], {}, {}, [];
    }

    function Reached(): Walked
      reads this
    {
      Walked(states, openings, used, actions, trades)
    }

    method Create(t: Tables, current: InstrumentState, e: Event, record: Record) returns (raised: Option<string>)
      modifies this`states, this`actions
      ensures Told(raised, Reached()) == CheckCreation(t, old(Reached()), current, e, record)
    {
      if !CreationMatches(t.strategies, actions, current, e, record) {
        return Some("invalid or duplicate lifecycle action creation");
      }
      var action := record.action.value;
      actions := actions + {action.id};
      var pending := InstrumentState(e.instrument, if action.kind == Entry then PendingEntry else PendingExit,
                                     record.action, current.position);
      if !pending.Valid() {
        return Some("lifecycle state contract");
      }
      states := states[e.instrument := pending];
      raised := None;
    }

    // An entry fill is kept until its exit is met.
    method Open(current: InstrumentState, e: Event, record: Record, economic: EconomicExecution)
      returns (raised: Option<string>)
      requires record.action.Some?
      modifies this`states, this`openings
      ensures Told(raised, Reached()) == CheckEntry(old(Reached()), current, e, record, economic)
    {
      if !ValidFill(record, economic) {
        return Some("fill must match authoritative evidence");
      }
      var action := record.action.value.id;
      if current.position.Some? || IndexOf(openings, action) < |openings| {
        return Some("entry already opened");
      }
      openings := openings + [Opening(action, record, economic)];
      var holding := InstrumentState(e.instrument, Holding, None, record.position);
      if !holding.Valid() {
        return Some("lifecycle state contract");
      }
      states := states[e.instrument := holding];
      raised := None;
    }

    // An exit fill takes its entry out and closes a trade.
    method Close(current: InstrumentState, e: Event, record: Record, economic: EconomicExecution)
      returns (raised: Option<string>)
      modifies this`states, this`openings, this`trades
      ensures Told(raised, Reached()) == CheckExit(old(Reached()), current, e, record, economic)
    {
      if current.position.None? || record.position != current.position {
        return Some("exit must close the authoritative open position");
      }
      var k := IndexOf(openings, current.position.value.opening);
      if k == |openings| {
        return Some("exit has no unique filled opening action");
      }
      var opening := openings[k];
      openings := openings[..k] + openings[k + 1..];
      var trade := TradeRecord(opening.economic, economic, opening.record, record);
      if !trade.Valid() {
        return Some("inconsistent trade");
      }
      trades := trades + [trade];
      states := states[e.instrument := FlatState(e.instrument)];
      raised := None;
    }

    // An attempt is used once; a fill opens an entry or closes one.
    method Attempted(
      result: SimulationResult, t: Tables, current: InstrumentState, e: Event, record: Record, outcome: Outcome)
      returns (raised: Option<string>)
      requires e.instrument in states && states[e.instrument] == current
      modifies this`states, this`openings, this`used, this`trades
      ensures Told(raised, Reached()) == CheckOutcome(result, t, old(Reached()), current, e, record, outcome)
    {
      if !AttemptMatches(result, t.outcomes, used, current, e, record, outcome) {
        return Some("attempt does not match the pending action and opportunity");
      }
      if outcome.evidence.Some? && outcome.evidence.value !in result.quotes {
        return Some("outcome quote is absent from supplied quote evidence");
      }
      used := used + {outcome.attempt.id};
      assert states[e.instrument := current] == states;
      if outcome.status == Filled {
        if outcome.attempt.id !in t.economics {
          return Some("missing economics");
        }
        var economic := t.economics[outcome.attempt.id];
        if record.action.value.kind == Entry {
          raised := Open(current, e, record, economic);
        } else {
          raised := Close(current, e, record, economic);
        }
        return;
      }
      var expected := if outcome.status == Unfilled then AttemptUnfilled else AttemptRejected;
      if record.decision != expected || record.position != current.position {
        return Some("unsuccessful attempt must retain its pending state");
      }
      raised := None;
    }

    // Creation, attempt, or nothing.
    method Move(result: SimulationResult, t: Tables, current: InstrumentState, e: Event, record: Record)
      returns (raised: Option<string>)
      requires e.instrument in states && states[e.instrument] == current
      modifies this
      ensures Told(raised, Reached()) == CheckMove(result, t, old(Reached()), current, e, record)
    {
      assert states[e.instrument := current] == states;
      if record.decision == ActionCreated {
        raised := Create(t, current, e, record);
      } else if record.outcome.Some? {
        raised := Attempted(result, t, current, e, record, record.outcome.value);
      } else if IdleMatches(current, record) {
        raised := None;
      } else {
        raised := Some("missing execution evidence or inconsistent non-transition");
      }
    }

    // One event: its record is checked against the state, moves it, and declares where it leads.
    method TakeUp(result: SimulationResult, t: Tables, e: Event) returns (raised: Option<string>)
      modifies this
      ensures Told(raised, Reached()) == CheckEvent(result, t, old(Reached()), e)
    {
      if e.id !in t.records {
        return Some("missing record");
      }
      var record := t.records[e.id];
      if e.instrument !in states {
        states := states[e.instrument := FlatState(e.instrument)];
      }
      var current := states[e.instrument];
      assert old(states)[e.instrument := current] == states;
      Entered(result, t, old(Reached()), current, e, record, Reached());
      if !RecordMatches(current, e, record) {
        return Some("lifecycle record disagrees with event or prior state");
      }
      raised := Move(result, t, current, e, record);
      if raised.None? && record.resulting != StateOf(states, e.instrument).state {
        raised := Some("lifecycle resulting state disagrees with evidence");
      }
    }
  }

  method WalkEvents(result: SimulationResult, t: Tables, es: seq<Event>) returns (r: Result<Walked>)
    ensures r == Walk(result, t, es)
  {
    var walker := new Walker();
    for i := 0 to |es|
      invariant fresh(walker) && Walk(result, t, es[..i]) == Ok(walker.Reached())
    {
      WalkSnoc(result, t, es, i);
      var raised := walker.TakeUp(result, t, es[i]);
      if raised.Some? {
        WalkFails(result, t, es, i + 1);
        return Err(raised.value);
      }
    }
    assert es[..|es|] == es;
    r := Ok(walker.Reached());
  }

  method ReconstructTrades(result: SimulationResult) returns (r: Result<Reconstruction>)
    ensures r == Reconstruct(result)
  {
    var tables := Cover(result);
    if tables.Err? {
      return Err(tables.error);
    }
    var walked := WalkEvents(result, tables.value, WalkOrder(result));
    if walked.Err? {
      return Err(walked.error);
    }
    r := Conclude(result, tables.value, walked.value, WalkOrder(result));
  }
}
