// Authoritative lifecycle transitions: simulation/lifecycle.py.
module Lifecycle {
  import opened Collections
  import opened Order
  import opened Domain
  import opened Events
  import opened Execution

  datatype LifecycleState = Flat | PendingEntry | Holding | PendingExit

  datatype Decision =
    | NotApplicable | ActionCreated | ActionFilled | AttemptUnfilled | AttemptRejected
    | SignalRejected | IgnoredRedundant | Ineligible

  datatype Reason =
    | EventNotLifecycleRelevant
    | EntryActionCreated | ExitActionCreated | EntryActionFilled | ExitActionFilled
    | ExecutionUnfilled | ExecutionRejected | ExecutionModelNotConfigured
    | EntryAlreadyPending | EntryAlreadyHolding | EntryWhileExitPending
    | ExitWhileFlat | ExitAlreadyPending | ExitWhileEntryPending
    | SimultaneousEntryAndExit
    | OpportunityNotStrictlyAfterBoundary | OpportunityWithoutPendingAction

  datatype Action = Action(
    id: ActionId, signal: EventId, instrument: Instrument, kind: ActionType,
    created: int, eligibleAfter: int, origin: LifecycleState)
  {
    predicate Valid() {
      created == eligibleAfter && origin == (if kind == Entry then Flat else Holding)
    }
  }

  datatype Position = Position(instrument: Instrument, opening: ActionId, openedAt: int)

  datatype InstrumentState = InstrumentState(
    instrument: Instrument, state: LifecycleState, pending: Option<Action>, position: Option<Position>)
  {
    // The contract every constructed state meets.
    predicate Valid() {
      && (pending.Some? ==> pending.value.instrument == instrument && pending.value.Valid())
      && (position.Some? ==> position.value.instrument == instrument)
      && match state
         case Flat => pending.None? && position.None?
         case PendingEntry => pending.Some? && pending.value.kind == Entry && position.None?
         case Holding => pending.None? && position.Some?
         case PendingExit => pending.Some? && pending.value.kind == Exit && position.Some?
    }
  }

  datatype Record = Record(
    event: EventId, kind: EventKind, time: int, source: Source, instrument: Instrument,
    prior: LifecycleState, decision: Decision, reason: Reason, resulting: LifecycleState,
    action: Option<Action>, position: Option<Position>,
    attempt: Option<Attempt>, outcome: Option<Outcome>)

  datatype LifecycleResult = LifecycleResult(
    ordered: seq<Event>, records: seq<Record>, finalStates: seq<InstrumentState>,
    unresolved: seq<Action>, openPositions: seq<Position>,
    attempts: seq<Attempt>, outcomes: seq<Outcome>)

  // What stays fixed during one pass.
  datatype Rules = Rules(conflicts: set<EventId>, config: Option<ExecutionConfig>, quotes: seq<Quote>)

  // The state after one event, and its record.
  datatype Turn = Turn(next: InstrumentState, record: Record)

  function FlatState(instrument: Instrument): InstrumentState {
    InstrumentState(instrument, Flat, None, None)
  }

  function ActionFor(e: Event, origin: LifecycleState): Action
    requires e.signal.Some?
  {
    Action(ActionId(e.id), e.id, e.instrument, if e.signal.value.kind == LongEntry then Entry else Exit,
           e.time, e.signal.value.available, origin)
  }

  function AttemptFor(a: Action, o: Event): Attempt {
    Attempt(AttemptId(a.id, o.id), a.id, a.signal, a.instrument, a.kind, a.eligibleAfter,
            o.id, o.instrument, o.time, o.time, EXECUTION_MODEL)
  }

  function RecordOf(
    e: Event, prior: LifecycleState, decision: Decision, reason: Reason, resulting: LifecycleState,
    action: Option<Action>, position: Option<Position>): Record
  {
    Record(e.id, e.kind, e.time, e.source, e.instrument, prior, decision, reason, resulting,
           action, position, None, None)
  }

  // A proposal meets each state in exactly one way.
  function Meet(kind: SignalType, state: LifecycleState): (Decision, Reason) {
    match (kind, state)
    case (LongEntry, Flat) => (ActionCreated, EntryActionCreated)
    case (LongEntry, PendingEntry) => (IgnoredRedundant, EntryAlreadyPending)
    case (LongEntry, Holding) => (SignalRejected, EntryAlreadyHolding)
    case (LongEntry, PendingExit) => (SignalRejected, EntryWhileExitPending)
    case (LongExit, Holding) => (ActionCreated, ExitActionCreated)
    case (LongExit, PendingExit) => (IgnoredRedundant, ExitAlreadyPending)
    case (LongExit, Flat) => (SignalRejected, ExitWhileFlat)
    case (LongExit, PendingEntry) => (SignalRejected, ExitWhileEntryPending)
  }

  function OnSignal(rules: Rules, current: InstrumentState, e: Event): Turn
    requires e.signal.Some?
  {
    if e.id in rules.conflicts then
      Turn(current, RecordOf(e, current.state, SignalRejected, SimultaneousEntryAndExit, current.state, None, None))
    else
      var (decision, reason) := Meet(e.signal.value.kind, current.state);
      var next :=
        if decision == ActionCreated then
          InstrumentState(e.instrument, if e.signal.value.kind == LongEntry then PendingEntry else PendingExit,
                          Some(ActionFor(e, current.state)), current.position)
        else current;
      Turn(next, RecordOf(e, current.state, decision, reason, next.state, next.pending, next.position))
  }

  function OnOutcome(current: InstrumentState, e: Event, outcome: Outcome): Result<Turn>
    requires current.pending.Some?
  {
    var pending := current.pending.value;
    if outcome.status != Filled then
      var unfilled := outcome.status == Unfilled;
      Ok(Turn(current,
              RecordOf(e, current.state, if unfilled then AttemptUnfilled else AttemptRejected,
                       if unfilled then ExecutionUnfilled else ExecutionRejected, current.state,
                       current.pending, current.position)
              .(attempt := Some(outcome.attempt), outcome := Some(outcome))))
    else if current.state == PendingEntry then
      var position := Position(e.instrument, pending.id, e.time);
      Ok(Turn(InstrumentState(e.instrument, Holding, None, Some(position)),
              RecordOf(e, current.state, ActionFilled, EntryActionFilled, Holding,
                       current.pending, Some(position))
              .(attempt := Some(outcome.attempt), outcome := Some(outcome))))
    else if current.state == PendingExit && current.position.Some? then
      Ok(Turn(FlatState(e.instrument),
              RecordOf(e, current.state, ActionFilled, ExitActionFilled, Flat,
                       current.pending, current.position)
              .(attempt := Some(outcome.attempt), outcome := Some(outcome))))
    else Err("pending action is incompatible with lifecycle state")
  }

  function OnOpportunity(rules: Rules, current: InstrumentState, e: Event, eligible: bool): Result<Turn> {
    if current.pending.None? then
      Ok(Turn(current, RecordOf(e, current.state, NotApplicable, OpportunityWithoutPendingAction,
                                current.state, None, current.position)))
    else if !eligible then
      Ok(Turn(current, RecordOf(e, current.state, Ineligible, OpportunityNotStrictlyAfterBoundary,
                                current.state, current.pending, current.position)))
    else if rules.config.None? then
      Ok(Turn(current, RecordOf(e, current.state, NotApplicable, ExecutionModelNotConfigured,
                                current.state, current.pending, current.position)))
    else
      match Resolve(AttemptFor(current.pending.value, e), rules.quotes, rules.config.value)
      case Err(error) => Err(error)
      case Ok(outcome) => OnOutcome(current, e, outcome)
  }

  // One event, given whether its opportunity is eligible for the pending action.
  function Apply(rules: Rules, current: InstrumentState, e: Event, eligible: bool): Result<Turn> {
    if e.kind == SignalAvailable && e.signal.Some? then Ok(OnSignal(rules, current, e))
    else if e.kind == ExecutionOpportunity then OnOpportunity(rules, current, e, eligible)
    else Ok(Turn(current, RecordOf(e, current.state, NotApplicable, EventNotLifecycleRelevant,
                                   current.state, None, current.position)))
  }

  function Next(rules: Rules, current: InstrumentState, e: Event): Result<Turn> {
    Apply(rules, current, e, current.pending.Some? && e.time > current.pending.value.eligibleAfter)
  }

  function Advance(rules: Rules, current: InstrumentState, e: Event): InstrumentState {
    match Next(rules, current, e)
    case Ok(turn) => turn.next
    case Err(_) => current
  }

  // The state of one instrument after a sequence of events.
  function SlotAfter(rules: Rules, es: seq<Event>, instrument: Instrument): InstrumentState {
    if es == [] then FlatState(instrument)
    else
      var prior := SlotAfter(rules, Front(es), instrument);
      if Last(es).instrument == instrument then Advance(rules, prior, Last(es)) else prior
  }

  function LastTurn(rules: Rules, es: seq<Event>): Result<Turn>
    requires es != []
  {
    Next(rules, SlotAfter(rules, Front(es), Last(es).instrument), Last(es))
  }

  // Some event of the pass raises.
  predicate Raises(rules: Rules, es: seq<Event>) {
    es != [] && (Raises(rules, Front(es)) || LastTurn(rules, es).Err?)
  }

  function Records(rules: Rules, es: seq<Event>): seq<Record> {
    if es == [] then []
    else
      Records(rules, Front(es)) +
      match LastTurn(rules, es) case Ok(turn) => [turn.record] case Err(_) => []
  }

  function Outcomes(records: seq<Record>): seq<Outcome> {
    if records == [] then []
    else Outcomes(Front(records)) + if Last(records).outcome.Some? then [Last(records).outcome.value] else []
  }

  function AttemptOf(): Outcome -> Attempt {
    (o: Outcome) => o.attempt
  }

  // Instruments in order of first appearance.
  function Seen(es: seq<Event>): seq<Instrument> {
    if es == [] then []
    else if Last(es).instrument in Seen(Front(es)) then Seen(Front(es))
    else Seen(Front(es)) + [Last(es).instrument]
  }

  function InstrumentKey(): Instrument -> Key {
    (i: Instrument) => [Text(i.identifier)]
  }

  function FinalStates(rules: Rules, es: seq<Event>): seq<InstrumentState> {
    Map(i => SlotAfter(rules, es, i), Sort(InstrumentKey(), Seen(es)))
  }

  function PendingActions(states: seq<InstrumentState>): seq<Action> {
    if states == [] then []
    else PendingActions(Front(states)) + if Last(states).pending.Some? then [Last(states).pending.value] else []
  }

  function OpenPositions(states: seq<InstrumentState>): seq<Position> {
    if states == [] then []
    else OpenPositions(Front(states)) + if Last(states).position.Some? then [Last(states).position.value] else []
  }

  function Pass(rules: Rules, es: seq<Event>): LifecycleResult {
    var records := Records(rules, es);
    var states := FinalStates(rules, es);
    var outcomes := Outcomes(records);
    LifecycleResult(es, records, states, PendingActions(states), OpenPositions(states),
                    Map(AttemptOf(), outcomes), outcomes)
  }

  // Signals proposed against an opposing signal of the same instrument and instant.
  ghost predicate Conflicted(es: seq<Event>, e: Event) {
    && e in es && e.kind == SignalAvailable && e.signal.Some?
    && exists x :: x in es && x.kind == SignalAvailable && x.signal.Some?
                   && x.time == e.time && x.instrument == e.instrument
                   && x.signal.value.kind != e.signal.value.kind
  }

  ghost function Conflicts(es: seq<Event>): set<EventId> {
    set e | e in es && Conflicted(es, e) :: e.id
  }

  ghost function RulesFor(es: seq<Event>, config: Option<ExecutionConfig>, quotes: seq<Quote>): Rules {
    Rules(Conflicts(es), config, quotes)
  }

  // The lifecycle of an event set, or the reason it is refused.
  ghost function LifecycleOf(events: seq<Event>, config: Option<ExecutionConfig>, quotes: seq<Quote>)
    : Result<LifecycleResult>
  {
    var ordered := Sort(EventKey(), events);
    var rules := RulesFor(ordered, config, quotes);
    if config.None? && quotes != [] then Err("quotes require an explicit execution_config")
    else if !UniqueIds(events) then Err("event_id values must be unique within a timeline")
    else if Raises(rules, ordered) then Err("lifecycle contract")
    else Ok(Pass(rules, ordered))
  }

  function StateFor(states: seq<InstrumentState>, instrument: Instrument): InstrumentState {
    if states == [] then FlatState(instrument)
    else if states[0].instrument == instrument then states[0]
    else StateFor(states[1..], instrument)
  }

  // ----- what every event keeps -----

  lemma NextValid(rules: Rules, current: InstrumentState, e: Event)
    requires current.Valid() && current.instrument == e.instrument && e.Valid()
    ensures Advance(rules, current, e).Valid() && Advance(rules, current, e).instrument == e.instrument
  {
  }

  // A state traces back to the signals that produced it.
  ghost predicate Grounded(es: seq<Event>, s: InstrumentState) {
    && s.Valid()
    && (s.pending.Some? ==> exists e :: e in es && e.kind == SignalAvailable && e.signal.Some?
                                        && e.instrument == s.instrument && e.time == s.pending.value.created
                                        && s.pending.value == ActionFor(e, s.pending.value.origin))
    && (s.position.Some? ==> exists e :: e in es && e.kind == SignalAvailable
                                         && e.instrument == s.instrument && s.position.value.opening == ActionId(e.id))
  }

  lemma {:induction false} SlotGrounded(rules: Rules, es: seq<Event>, instrument: Instrument)
    requires ValidEvents(es)
    ensures SlotAfter(rules, es, instrument).instrument == instrument
    ensures Grounded(es, SlotAfter(rules, es, instrument))
  {
    if es != [] {
      assert es == Front(es) + [Last(es)];
      SlotGrounded(rules, Front(es), instrument);
      GroundedGrows(Front(es), Last(es), SlotAfter(rules, Front(es), instrument));
      if Last(es).instrument == instrument {
        AdvanceGrounded(rules, es, SlotAfter(rules, Front(es), instrument), Last(es));
      }
    }
  }

  lemma GroundedGrows(es: seq<Event>, e: Event, s: InstrumentState)
    requires Grounded(es, s)
    ensures Grounded(es + [e], s)
  {
    assert forall x :: x in es ==> x in es + [e];
  }

  lemma AdvanceGrounded(rules: Rules, es: seq<Event>, s: InstrumentState, e: Event)
    requires Grounded(es, s) && e in es && e.Valid() && s.instrument == e.instrument
    ensures Grounded(es, Advance(rules, s, e))
  {
    NextValid(rules, s, e);
  }

  // Market and feature events move nothing.
  predicate Moves(e: Event) {
    e.kind == SignalAvailable || e.kind == ExecutionOpportunity
  }

  // Events that cannot move an instrument may be left out of its history.
  lemma {:induction false} SlotFilter(rules: Rules, p: Event -> bool, es: seq<Event>, instrument: Instrument)
    requires forall e :: e in es && e.instrument == instrument && Moves(e) ==> p(e)
    ensures SlotAfter(rules, Filter(p, es), instrument) == SlotAfter(rules, es, instrument)
  {
    if es != [] {
      assert es == Front(es) + [Last(es)];
      SlotFilter(rules, p, Front(es), instrument);
      if p(Last(es)) {
        assert Front(Filter(p, Front(es)) + [Last(es)]) == Filter(p, Front(es));
      }
    }
  }

  // Two passes treat an event alike.
  ghost predicate Agree(a: Rules, b: Rules, e: Event) {
    && (e.id in a.conflicts <==> e.id in b.conflicts)
    && a.config == b.config
    && Filter(Legal(e.instrument, e.time), a.quotes) == Filter(Legal(e.instrument, e.time), b.quotes)
  }

  lemma NextAgree(a: Rules, b: Rules, current: InstrumentState, e: Event)
    requires current.Valid() && current.instrument == e.instrument && Agree(a, b, e)
    ensures Next(a, current, e) == Next(b, current, e)
  {
    if current.pending.Some? && a.config.Some? {
      ResolveAgree(AttemptFor(current.pending.value, e), a.quotes, b.quotes, a.config.value);
    }
    if e.kind == ExecutionOpportunity {
      var eligible := current.pending.Some? && e.time > current.pending.value.eligibleAfter;
      assert OnOpportunity(a, current, e, eligible) == OnOpportunity(b, current, e, eligible);
    }
  }

  lemma ResolveAgree(a: Attempt, x: seq<Quote>, y: seq<Quote>, config: ExecutionConfig)
    requires Filter(Legal(a.instrument, a.time), x) == Filter(Legal(a.instrument, a.time), y)
    ensures Resolve(a, x, config) == Resolve(a, y, config)
  {
  }

  lemma {:induction false} SlotAgree(a: Rules, b: Rules, es: seq<Event>, instrument: Instrument)
    requires ValidEvents(es)
    requires forall e :: e in es && e.instrument == instrument ==> Agree(a, b, e)
    ensures SlotAfter(a, es, instrument) == SlotAfter(b, es, instrument)
  {
    if es != [] {
      assert es == Front(es) + [Last(es)];
      SlotAgree(a, b, Front(es), instrument);
      SlotGrounded(a, Front(es), instrument);
      if Last(es).instrument == instrument {
        NextAgree(a, b, SlotAfter(a, Front(es), instrument), Last(es));
      }
    }
  }

  lemma {:induction false} RaisesExtends(rules: Rules, es: seq<Event>, n: nat)
    requires n <= |es|
    ensures Raises(rules, es[..n]) ==> Raises(rules, es)
  {
    if n == |es| {
      assert es[..n] == es;
    } else {
      RaisesExtends(rules, Front(es), n);
      assert Front(es)[..n] == es[..n];
    }
  }

  // The record of each event.
  lemma {:induction false} RecordAt(rules: Rules, es: seq<Event>, i: nat)
    requires !Raises(rules, es) && i < |es|
    ensures |Records(rules, es)| == |es|
    ensures LastTurn(rules, es[..i + 1]).Ok? && Records(rules, es)[i] == LastTurn(rules, es[..i + 1]).value.record
  {
    if i == |es| - 1 {
      assert es[..i + 1] == es;
      RecordsLength(rules, es);
      RecordsLength(rules, Front(es));
    } else {
      RecordAt(rules, Front(es), i);
      RecordsLength(rules, es);
      assert Front(es)[..i + 1] == es[..i + 1];
    }
  }

  lemma {:induction false} RecordsLength(rules: Rules, es: seq<Event>)
    requires !Raises(rules, es)
    ensures |Records(rules, es)| == |es|
  {
    if es != [] {
      RecordsLength(rules, Front(es));
    }
  }

  lemma {:induction false} UnseenFlat(rules: Rules, es: seq<Event>, instrument: Instrument)
    requires instrument !in Seen(es)
    ensures SlotAfter(rules, es, instrument) == FlatState(instrument)
  {
    if es != [] {
      UnseenFlat(rules, Front(es), instrument);
    }
  }
}
