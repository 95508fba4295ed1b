// What every event of a lifecycle does, and what is recorded of it: simulation/lifecycle.py and
// simulation/timeline.py.
module LifecycleTable {
  import opened Collections
  import opened Order
  import opened Domain
  import opened Events
  import opened Timeline
  import opened Execution
  import opened Lifecycle
  import Endings

  // The record is of that event, from the state before it to the state after it.
  ghost predicate RecordsEvent(e: Event, s: InstrumentState, turn: Turn) {
    var r := turn.record;
    && r.event == e.id && r.kind == e.kind && r.time == e.time && r.source == e.source && r.instrument == e.instrument
    && r.prior == s.state && r.resulting == turn.next.state
  }

  // The event moves nothing, for that reason, and the record shows that pending action.
  ghost predicate Nothing(
    s: InstrumentState, turn: Turn, decision: Decision, reason: Reason, action: Option<Action>)
  {
    && turn.next == s && turn.record.decision == decision && turn.record.reason == reason
    && turn.record.action == action && turn.record.position == s.position
    && turn.record.attempt.None? && turn.record.outcome.None?
  }

  // A signal opposed at its own instant is rejected and moves nothing; otherwise an entry is
  // proposed to a flat instrument and an exit to a holding one creates the pending action, a
  // repetition is ignored, and anything else is rejected.
  ghost predicate SignalTable(rules: Rules, s: InstrumentState, e: Event, turn: Turn)
    requires e.signal.Some?
  {
    if e.id in rules.conflicts then
      && turn.next == s && turn.record.decision == SignalRejected && turn.record.reason == SimultaneousEntryAndExit
      && turn.record.action.None? && turn.record.position.None?
      && turn.record.attempt.None? && turn.record.outcome.None?
    else
      match (e.signal.value.kind, s.state)
      case (LongEntry, Flat) => Created(s, e, turn, Entry, PendingEntry, EntryActionCreated)
      case (LongExit, Holding) => Created(s, e, turn, Exit, PendingExit, ExitActionCreated)
      case (LongEntry, PendingEntry) => Nothing(s, turn, IgnoredRedundant, EntryAlreadyPending, s.pending)
      case (LongExit, PendingExit) => Nothing(s, turn, IgnoredRedundant, ExitAlreadyPending, s.pending)
      case (LongEntry, Holding) => Nothing(s, turn, SignalRejected, EntryAlreadyHolding, s.pending)
      case (LongEntry, PendingExit) => Nothing(s, turn, SignalRejected, EntryWhileExitPending, s.pending)
      case (LongExit, Flat) => Nothing(s, turn, SignalRejected, ExitWhileFlat, s.pending)
      case (LongExit, PendingEntry) => Nothing(s, turn, SignalRejected, ExitWhileEntryPending, s.pending)
  }

  ghost predicate Created(
    s: InstrumentState, e: Event, turn: Turn, kind: ActionType, state: LifecycleState, reason: Reason)
    requires e.signal.Some?
  {
    var action := Action(ActionId(e.id), e.id, e.instrument, kind, e.time, e.signal.value.available, s.state);
    && turn.next == InstrumentState(e.instrument, state, Some(action), s.position)
    && turn.record.decision == ActionCreated && turn.record.reason == reason && turn.record.action == Some(action)
    && turn.record.position == s.position && turn.record.attempt.None? && turn.record.outcome.None?
  }

  // The attempt failed and the action stays pending.
  ghost predicate Unmoved(s: InstrumentState, turn: Turn, decision: Decision, reason: Reason) {
    turn.next == s && turn.record.decision == decision && turn.record.reason == reason && turn.record.position == s.position
  }

  // A filled entry opens a position there; a filled exit leaves none, its record showing the closed one.
  ghost predicate FilledAt(s: InstrumentState, e: Event, pending: Action, turn: Turn) {
    && turn.record.decision == ActionFilled
    && if pending.kind == Entry then
         var held := Position(e.instrument, pending.id, e.time);
         && turn.record.reason == EntryActionFilled && turn.record.position == Some(held)
         && turn.next == InstrumentState(e.instrument, Holding, None, Some(held))
       else
         && turn.record.reason == ExitActionFilled && turn.record.position == s.position
         && turn.next == InstrumentState(e.instrument, Flat, None, None)
  }

  // An opportunity without a pending action, not strictly after it became eligible, or without an
  // execution model does nothing; otherwise the action is attempted there, and only a fill moves the
  // instrument, an entry to holding what it opened and an exit to flat.
  ghost predicate OpportunityTable(rules: Rules, s: InstrumentState, e: Event, turn: Turn) {
    if s.pending.None? then Nothing(s, turn, NotApplicable, OpportunityWithoutPendingAction, None)
    else if e.time <= s.pending.value.eligibleAfter then Nothing(s, turn, Ineligible, OpportunityNotStrictlyAfterBoundary, s.pending)
    else if rules.config.None? then Nothing(s, turn, NotApplicable, ExecutionModelNotConfigured, s.pending)
    else
      var p, r := s.pending.value, turn.record;
      var a := Attempt(AttemptId(p.id, e.id), p.id, p.signal, p.instrument, p.kind, p.eligibleAfter,
                       e.id, e.instrument, e.time, e.time, "shadow.execution.quote_bid_ask.v2");
      && r.attempt == Some(a) && r.outcome.Some? && r.action == s.pending
      && Resolve(a, rules.quotes, rules.config.value) == Ok(r.outcome.value)
      && (match r.outcome.value.status
          case Unfilled => Unmoved(s, turn, AttemptUnfilled, ExecutionUnfilled)
          case Rejected => Unmoved(s, turn, AttemptRejected, ExecutionRejected)
          case Filled => FilledAt(s, e, p, turn))
  }

  ghost predicate EventTable(rules: Rules, s: InstrumentState, e: Event, turn: Turn) {
    && RecordsEvent(e, s, turn)
    && (if e.kind == SignalAvailable && e.signal.Some? then SignalTable(rules, s, e, turn)
        else if e.kind == ExecutionOpportunity then OpportunityTable(rules, s, e, turn)
        else Nothing(s, turn, NotApplicable, EventNotLifecycleRelevant, None))
  }

  lemma SignalTabled(rules: Rules, s: InstrumentState, e: Event)
    requires s.Valid() && s.instrument == e.instrument && e.signal.Some?
    ensures RecordsEvent(e, s, OnSignal(rules, s, e)) && SignalTable(rules, s, e, OnSignal(rules, s, e))
  {
  }

  lemma OutcomeTabled(s: InstrumentState, e: Event, o: Outcome)
    requires s.Valid() && s.instrument == e.instrument && s.pending.Some? && OnOutcome(s, e, o).Ok?
    ensures var turn := OnOutcome(s, e, o).value;
            && RecordsEvent(e, s, turn) && turn.record.attempt == Some(o.attempt) && turn.record.outcome == Some(o)
            && turn.record.action == s.pending
            && (match o.status
                case Unfilled => Unmoved(s, turn, AttemptUnfilled, ExecutionUnfilled)
                case Rejected => Unmoved(s, turn, AttemptRejected, ExecutionRejected)
                case Filled => FilledAt(s, e, s.pending.value, turn))
  {
  }

  lemma OpportunityTabled(rules: Rules, s: InstrumentState, e: Event, turn: Turn)
    requires s.Valid() && s.instrument == e.instrument
    requires OnOpportunity(rules, s, e, s.pending.Some? && e.time > s.pending.value.eligibleAfter) == Ok(turn)
    ensures RecordsEvent(e, s, turn) && OpportunityTable(rules, s, e, turn)
  {
    if s.pending.Some? && e.time > s.pending.value.eligibleAfter && rules.config.Some? {
      OutcomeTabled(s, e, Resolve(AttemptFor(s.pending.value, e), rules.quotes, rules.config.value).value);
    }
  }

  lemma NextTabled(rules: Rules, s: InstrumentState, e: Event, turn: Turn)
    requires s.Valid() && s.instrument == e.instrument && Next(rules, s, e) == Ok(turn)
    ensures EventTable(rules, s, e, turn)
  {
    if e.kind == SignalAvailable && e.signal.Some? {
      SignalTabled(rules, s, e);
    } else if e.kind == ExecutionOpportunity {
      OpportunityTabled(rules, s, e, turn);
    }
  }

  // Every record of a pass is what the table says of its event and the state before it, and the
  // event moves its instrument as the table says.
  lemma PassTabled(rules: Rules, es: seq<Event>, i: nat) returns (turn: Turn)
    requires ValidEvents(es) && !Raises(rules, es) && i < |es|
    ensures |Records(rules, es)| == |es| && Records(rules, es)[i] == turn.record
    ensures EventTable(rules, SlotAfter(rules, es[..i], es[i].instrument), es[i], turn)
    ensures SlotAfter(rules, es[..i + 1], es[i].instrument) == turn.next
    ensures forall other :: other != es[i].instrument ==> SlotAfter(rules, es[..i + 1], other) == SlotAfter(rules, es[..i], other)
  {
    RecordsLength(rules, es);
    RecordAt(rules, es, i);
    assert Front(es[..i + 1]) == es[..i] && Last(es[..i + 1]) == es[i];
    turn := LastTurn(rules, es[..i + 1]).value;
    SlotGrounded(rules, es[..i], es[i].instrument);
    NextTabled(rules, SlotAfter(rules, es[..i], es[i].instrument), es[i], turn);
  }

  // ----- what a pass leaves -----

  lemma {:induction false} SeenExactly(es: seq<Event>, instrument: Instrument)
    ensures instrument in Seen(es) <==> exists e :: e in es && e.instrument == instrument
  {
    if es != [] {
      FrontAndLast(es);
      SeenExactly(Front(es), instrument);
      SeenExactly(Front(es), Last(es).instrument);
      assert Last(es) in es;
    }
  }

  lemma {:induction false} PendingExactly(states: seq<InstrumentState>, a: Action)
    ensures a in PendingActions(states) <==> exists s :: s in states && s.pending == Some(a)
  {
    if states != [] {
      FrontAndLast(states);
      PendingExactly(Front(states), a);
      assert Last(states) in states;
    }
  }

  lemma {:induction false} OpenExactly(states: seq<InstrumentState>, p: Position)
    ensures p in OpenPositions(states) <==> exists s :: s in states && s.position == Some(p)
  {
    if states != [] {
      FrontAndLast(states);
      OpenExactly(Front(states), p);
      assert Last(states) in states;
    }
  }

  predicate HasOutcome(r: Record) { r.outcome.Some? }

  // The outcomes are those of the records, in order.
  lemma {:induction false} OutcomesInOrder(records: seq<Record>)
    ensures |Outcomes(records)| == |Filter(HasOutcome, records)|
    ensures forall k :: 0 <= k < |Outcomes(records)| ==> Filter(HasOutcome, records)[k].outcome == Some(Outcomes(records)[k])
  {
    if records != [] {
      OutcomesInOrder(Front(records));
    }
  }

  lemma FinalExactly(rules: Rules, es: seq<Event>, s: InstrumentState)
    ensures s in FinalStates(rules, es) <==> exists e :: e in es && s == SlotAfter(rules, es, e.instrument)
  {
    var instruments := Sort(InstrumentKey(), Seen(es));
    SortElements(InstrumentKey(), Seen(es));
    if s in FinalStates(rules, es) {
      var k :| 0 <= k < |instruments| && FinalStates(rules, es)[k] == s;
      assert instruments[k] in instruments;
      SeenExactly(es, instruments[k]);
      var e :| e in es && e.instrument == instruments[k];
      assert s == SlotAfter(rules, es, e.instrument);
    }
    if e :| e in es && s == SlotAfter(rules, es, e.instrument) {
      SeenExactly(es, e.instrument);
      var k :| 0 <= k < |instruments| && instruments[k] == e.instrument;
      assert FinalStates(rules, es)[k] == s;
    }
  }

  // The final states come in the order of their instruments' identifiers, one for each.
  lemma FinalOrder(rules: Rules, es: seq<Event>, i: nat, j: nat)
    requires ValidEvents(es) && i < j < |FinalStates(rules, es)|
    ensures var a, b := FinalStates(rules, es)[i].instrument, FinalStates(rules, es)[j].instrument;
            a != b && TextLe(a.identifier, b.identifier)
  {
    var seen := Seen(es);
    var instruments := Sort(InstrumentKey(), seen);
    Endings.SeenDistinct(es);
    DistinctPermute(seen, instruments);
    SortSorted(InstrumentKey(), seen);
    SlotGrounded(rules, es, instruments[i]);
    SlotGrounded(rules, es, instruments[j]);
    assert KeyLe(InstrumentKey()(instruments[i]), InstrumentKey()(instruments[j]));
    TextKeys(instruments[i].identifier, instruments[j].identifier);
  }

  lemma TextKeys(a: string, b: string)
    requires KeyLe([Text(a)], [Text(b)])
    ensures TextLe(a, b)
  {
    TextOrder(a, a, a);
  }

  // What is left after a pass: the state every instrument of its events ended in, their pending
  // actions and open positions, and the attempts and outcomes of its records.
  lemma PassResults(rules: Rules, es: seq<Event>)
    ensures var r := Pass(rules, es);
            && r.ordered == es && r.records == Records(rules, es)
            && (forall s :: s in r.finalStates <==> exists e :: e in es && s == SlotAfter(rules, es, e.instrument))
            && (forall a :: a in r.unresolved <==> exists s :: s in r.finalStates && s.pending == Some(a))
            && (forall p :: p in r.openPositions <==> exists s :: s in r.finalStates && s.position == Some(p))
            && |r.outcomes| == |Filter(HasOutcome, r.records)| == |r.attempts|
            && (forall k :: 0 <= k < |r.outcomes| ==>
                  && Filter(HasOutcome, r.records)[k].outcome == Some(r.outcomes[k])
                  && r.attempts[k] == r.outcomes[k].attempt)
  {
    forall s: InstrumentState {
      FinalExactly(rules, es, s);
    }
    forall a: Action {
      PendingExactly(FinalStates(rules, es), a);
    }
    forall p: Position {
      OpenExactly(FinalStates(rules, es), p);
    }
    OutcomesInOrder(Records(rules, es));
  }

  // ----- opposed signals -----

  // What is recorded of a signal opposed at its own instant.
  ghost predicate Rejection(e: Event, r: Record) {
    && r.event == e.id && r.decision == SignalRejected && r.reason == SimultaneousEntryAndExit
    && r.resulting == r.prior && r.outcome.None?
  }

  // Exactly the signals named among the conflicts of a pass are recorded as opposed, and they move nothing.
  lemma NamedConflictRejected(rules: Rules, es: seq<Event>, i: nat)
    requires ValidEvents(es) && !Raises(rules, es)
    requires i < |es| && es[i].kind == SignalAvailable && es[i].signal.Some?
    ensures |Records(rules, es)| == |es|
    ensures Rejection(es[i], Records(rules, es)[i]) <==> es[i].id in rules.conflicts
    ensures Rejection(es[i], Records(rules, es)[i]) ==>
              SlotAfter(rules, es[..i + 1], es[i].instrument) == SlotAfter(rules, es[..i], es[i].instrument)
  {
    var turn := PassTabled(rules, es, i);
  }

  // Some signal of the same instrument and instant proposes the opposite.
  ghost predicate Opposing(events: seq<Event>, e: Event)
    requires e.signal.Some?
  {
    exists x :: x in events && x.kind == SignalAvailable && x.signal.Some? && x.time == e.time
                && x.instrument == e.instrument && x.signal.value.kind != e.signal.value.kind
  }

  lemma ConflictsNamed(ordered: seq<Event>, e: Event)
    requires UniqueIds(ordered) && e in ordered
    ensures e.id in Conflicts(ordered) <==> Conflicted(ordered, e)
  {
    if e.id in Conflicts(ordered) {
      var c :| c in ordered && Conflicted(ordered, c) && c.id == e.id;
      SameIdSameEvent(ordered, c, e);
    }
  }

  lemma OpposingMembers(events: seq<Event>, ordered: seq<Event>, e: Event)
    requires (forall x :: x in ordered <==> x in events) && e in events && e.kind == SignalAvailable && e.signal.Some?
    ensures Conflicted(ordered, e) <==> Opposing(events, e)
  {
  }

  lemma OpposedNamed(events: seq<Event>, e: Event)
    requires UniqueIds(events) && e in events && e.kind == SignalAvailable && e.signal.Some?
    ensures e.id in Conflicts(Sort(EventKey(), events)) <==> Opposing(events, e)
  {
    var ordered := Sort(EventKey(), events);
    SortElements(EventKey(), events);
    UniqueIdsPermute(events, ordered);
    ConflictsNamed(ordered, e);
    OpposingMembers(events, ordered, e);
  }

  // Whatever events a caller supplies: exactly the signals opposed by one of their instrument at their
  // instant are recorded so, and they move nothing.
  lemma ConflictRejected(events: seq<Event>, config: Option<ExecutionConfig>, quotes: seq<Quote>, i: nat)
    requires ValidEvents(events) && LifecycleOf(events, config, quotes).Ok?
    requires var ordered := Sort(EventKey(), events);
             i < |ordered| && ordered[i].kind == SignalAvailable && ordered[i].signal.Some?
    ensures var ordered, r := Sort(EventKey(), events), LifecycleOf(events, config, quotes).value;
            && |r.records| == |ordered|
            && (Rejection(ordered[i], r.records[i]) <==> Opposing(events, ordered[i]))
            && var rules := RulesFor(ordered, config, quotes);
               Opposing(events, ordered[i]) ==>
                 SlotAfter(rules, ordered[..i + 1], ordered[i].instrument) == SlotAfter(rules, ordered[..i], ordered[i].instrument)
  {
    var ordered := Sort(EventKey(), events);
    SortElements(EventKey(), events);
    OpposedNamed(events, ordered[i]);
    NamedConflictRejected(RulesFor(ordered, config, quotes), ordered, i);
  }
}
