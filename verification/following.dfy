// Walking the evidence of a documented pass follows the pass event by event.
module Following {
  import opened Collections
  import opened Order
  import opened Domain
  import opened Events
  import opened Timeline
  import opened Execution
  import opened Lifecycle
  import opened Process
  import opened Economics
  import opened Runner
  import opened Trace
  import opened Trades
  import opened Soundness
  import opened Documents

  // Where an opening came from: an entry filled after its signal and before any
  // exit that is pending now.
  ghost predicate OpeningTracks(t: Tables, front: seq<Event>, s: InstrumentState, o: Opening) {
    var attempt := o.economic.outcome.attempt;
    && InTable(t, o.economic) && ValidFill(o.record, o.economic) && attempt.kind == Entry
    && o.action == attempt.action
    && s.position.Some? && s.position == o.record.position && s.position.value.opening == o.action
    && (s.pending.Some? ==> attempt.time < s.pending.value.created)
    && (exists x :: x in front && x.kind == ExecutionOpportunity && x.time == attempt.time)
    && (exists x :: x in front && ActionId(x.id) == o.action && x.time < attempt.time
                    && x.instrument == attempt.instrument)
  }

  ghost predicate HasOpening(openings: seq<Opening>, instrument: Instrument) {
    exists o :: o in openings && o.economic.outcome.attempt.instrument == instrument
  }

  // One step of a pass over distinct events in causal order.
  ghost predicate Turned(rules: Rules, front: seq<Event>, e: Event, s: InstrumentState, turn: Turn) {
    && ValidEvents(front + [e]) && UniqueIds(front + [e]) && Sorted(EventKey(), front + [e])
    && s == SlotAfter(rules, front, e.instrument)
    && s.Valid() && s.instrument == e.instrument && Grounded(front, s)
    && Next(rules, s, e) == Ok(turn)
  }

  lemma PrefixOrder(es: seq<Event>, n: nat)
    requires ValidEvents(es) && UniqueIds(es) && Sorted(EventKey(), es) && n < |es|
    ensures ValidEvents(es[..n] + [es[n]]) && UniqueIds(es[..n] + [es[n]]) && Sorted(EventKey(), es[..n] + [es[n]])
    ensures es[..n + 1] == es[..n] + [es[n]] && Front(es[..n + 1]) == es[..n]
  {
    assert es[..n + 1] == es[..n] + [es[n]];
    assert forall x :: x in es[..n + 1] ==> x in es;
  }

  lemma StepTurned(rules: Rules, es: seq<Event>, n: nat)
    requires ValidEvents(es) && UniqueIds(es) && Sorted(EventKey(), es) && !Raises(rules, es) && n < |es|
    ensures LastTurn(rules, es[..n + 1]).Ok?
    ensures Turned(rules, es[..n], es[n], SlotAfter(rules, es[..n], es[n].instrument),
                   LastTurn(rules, es[..n + 1]).value)
  {
    PrefixOrder(es, n);
    RecordAt(rules, es, n);
    assert ValidEvents(es[..n]);
    SlotGrounded(rules, es[..n], es[n].instrument);
  }

  // An event later in order than an opportunity, and not one itself, is later in time.
  lemma AfterOpportunity(front: seq<Event>, e: Event, x: Event)
    requires Sorted(EventKey(), front + [e]) && x in front
    ensures x.time <= e.time
    ensures x.kind == ExecutionOpportunity && e.kind == SignalAvailable ==> x.time < e.time
  {
    LastIsLatest(front, e, x);
  }

  // ----- actions are created as the walk expects -----

  lemma FreshId(front: seq<Event>, e: Event, x: Event)
    requires UniqueIds(front + [e]) && x in front
    ensures x.id != e.id
  {
    var i :| 0 <= i < |front| && front[i] == x;
    assert (front + [e])[i].id != (front + [e])[|front|].id;
  }

  lemma FreshAction(front: seq<Event>, e: Event, actions: set<ActionId>)
    requires UniqueIds(front + [e])
    requires forall a :: a in actions ==> exists x :: x in front && a == ActionId(x.id)
    ensures ActionId(e.id) !in actions
  {
    forall x | x in front ensures x.id != e.id {
      FreshId(front, e, x);
    }
  }

  lemma CreatedTurn(rules: Rules, s: InstrumentState, e: Event, turn: Turn)
    requires s.Valid() && s.instrument == e.instrument && e.Valid()
    requires Next(rules, s, e) == Ok(turn) && turn.record.decision == ActionCreated
    ensures e.kind == SignalAvailable && e.signal.Some? && s.pending.None?
    ensures turn.record.action == Some(ActionFor(e, s.state)) && turn.record.position == s.position
    ensures turn.record.outcome.None? && turn.record.attempt.None?
    ensures turn.next == InstrumentState(
              e.instrument, if ActionFor(e, s.state).kind == Entry then PendingEntry else PendingExit,
              turn.record.action, s.position)
    ensures turn.next.Valid() && turn.record.resulting == turn.next.state
  {
    NextValid(rules, s, e);
  }

  lemma CreationAccepted(
    t: Tables, rules: Rules, front: seq<Event>, e: Event, s: InstrumentState, turn: Turn, w: Walked)
    requires Turned(rules, front, e, s, turn)
    requires forall a :: a in w.actions ==> exists x :: x in front && a == ActionId(x.id)
    requires turn.record.decision == ActionCreated && e.instrument in t.strategies
    ensures CheckCreation(t, w, s, e, turn.record)
         == Ok(w.(actions := w.actions + {ActionId(e.id)}, states := w.states[e.instrument := turn.next]))
  {
    FreshAction(front, e, w.actions);
    assert e in front + [e];
    CreatedTurn(rules, s, e, turn);
    assert CreationMatches(t.strategies, w.actions, s, e, turn.record);
  }

  // ----- attempts and fills match -----

  lemma FreshAttempt(front: seq<Event>, e: Event, rules: Rules, id: AttemptId)
    requires UniqueIds(front + [e]) && id.opportunity == e.id
    ensures id !in OutcomeIds(Outcomes(Records(rules, front)))
  {
    assert UniqueIds(front) by {
      forall i, j | 0 <= i < j < |front| ensures front[i].id != front[j].id {
        assert (front + [e])[i].id != (front + [e])[j].id;
      }
    }
    OutcomeIdsDistinct(rules, front);
    forall x | x in front ensures x.id != e.id {
      FreshId(front, e, x);
    }
  }

  // Evidence is one of the supplied quotes.
  lemma EvidenceSupplied(rules: Rules, s: InstrumentState, e: Event, o: Outcome)
    requires Attempts(rules, s, e, o)
    ensures o.evidence.Some? ==> o.evidence.value in rules.quotes
    ensures o.evidence.Some? ==> o.evidence.value.available <= e.time
    ensures o.status == Filled ==>
              o.evidence.Some? && e.time - o.evidence.value.observed <= rules.config.value.maximumQuoteAge
  {
  }

  lemma FillTurn(rules: Rules, s: InstrumentState, e: Event, turn: Turn, o: Outcome)
    requires s.Valid() && s.instrument == e.instrument && e.Valid()
    requires Next(rules, s, e) == Ok(turn) && turn.record.outcome == Some(o)
    ensures s.pending.Some? && turn.record.action == s.pending && o.attempt == AttemptFor(s.pending.value, e)
    ensures o.status == Filled ==> turn.record.decision == ActionFilled
    ensures o.status != Filled ==>
              && turn.next == s && turn.record.position == s.position
              && turn.record.decision == if o.status == Unfilled then AttemptUnfilled else AttemptRejected
    ensures o.status == Filled && s.pending.value.kind == Entry ==>
              && s.state == PendingEntry
              && turn.record.position == Some(Position(e.instrument, s.pending.value.id, e.time))
              && turn.next == InstrumentState(e.instrument, Holding, None, turn.record.position)
    ensures o.status == Filled && s.pending.value.kind == Exit ==>
              && s.state == PendingExit && turn.record.position == s.position && turn.next == FlatState(e.instrument)
    ensures turn.record.prior == s.state && turn.record.resulting == turn.next.state
  {
  }

  lemma FillValid(rules: Rules, s: InstrumentState, e: Event, turn: Turn, economic: EconomicExecution)
    requires s.Valid() && s.instrument == e.instrument && e.Valid()
    requires Next(rules, s, e) == Ok(turn) && turn.record.outcome == Some(economic.outcome)
    requires economic.outcome.status == Filled
    ensures ValidFill(turn.record, economic)
  {
    OutcomeTurn(rules, s, e);
    FillTurn(rules, s, e, turn, economic.outcome);
    EvidenceSupplied(rules, s, e, economic.outcome);
  }

  // The event is taken up as the walk expects, before its own case is considered.
  lemma RecordOfTurn(rules: Rules, s: InstrumentState, e: Event, turn: Turn)
    requires Next(rules, s, e) == Ok(turn)
    ensures RecordMatches(s, e, turn.record) && turn.record.event == e.id
    ensures turn.record.decision == ActionCreated ==> turn.record.outcome.None?
    ensures turn.record.resulting == turn.next.state
  {
    if e.kind == SignalAvailable && e.signal.Some? {
      RecordOfSignal(rules, s, e);
    } else if e.kind == ExecutionOpportunity {
      RecordOfOpportunity(rules, s, e, s.pending.Some? && e.time > s.pending.value.eligibleAfter, turn);
    }
  }

  lemma RecordOfOpportunity(rules: Rules, s: InstrumentState, e: Event, eligible: bool, turn: Turn)
    requires OnOpportunity(rules, s, e, eligible) == Ok(turn)
    ensures RecordMatches(s, e, turn.record) && turn.record.event == e.id
    ensures turn.record.decision != ActionCreated && turn.record.resulting == turn.next.state
  {
    if turn.record.outcome.Some? {
      RecordOfOutcome(s, e, turn.record.outcome.value);
    }
  }

  lemma RecordOfSignal(rules: Rules, s: InstrumentState, e: Event)
    requires e.signal.Some?
    ensures var turn := OnSignal(rules, s, e);
            && RecordMatches(s, e, turn.record) && turn.record.event == e.id
            && turn.record.outcome.None? && turn.record.resulting == turn.next.state
  {
  }

  lemma RecordOfOutcome(s: InstrumentState, e: Event, o: Outcome)
    requires s.pending.Some? && OnOutcome(s, e, o).Ok?
    ensures var turn := OnOutcome(s, e, o).value;
            && RecordMatches(s, e, turn.record) && turn.record.event == e.id
            && turn.record.decision != ActionCreated && turn.record.resulting == turn.next.state
  {
  }

  lemma IdleTurn(rules: Rules, s: InstrumentState, e: Event, turn: Turn)
    requires Next(rules, s, e) == Ok(turn)
    requires turn.record.decision != ActionCreated && turn.record.outcome.None?
    ensures turn.next == s && IdleMatches(s, turn.record)
  {
  }

  // Where the walk goes at an entry fill.
  function Opens(w: Walked, e: Event, turn: Turn, economic: EconomicExecution): Walked
    requires turn.record.action.Some?
  {
    w.(used := w.used + {economic.outcome.attempt.id},
       openings := w.openings + [Opening(turn.record.action.value.id, turn.record, economic)],
       states := w.states[e.instrument := turn.next])
  }

  // Where the walk goes at an exit fill.
  function Closes(w: Walked, e: Event, turn: Turn, economic: EconomicExecution, k: nat): Walked
    requires k < |w.openings|
  {
    w.(used := w.used + {economic.outcome.attempt.id},
       openings := w.openings[..k] + w.openings[k + 1..],
       trades := w.trades + [TradeRecord(w.openings[k].economic, economic, w.openings[k].record, turn.record)],
       states := w.states[e.instrument := turn.next])
  }

  ghost predicate OpeningsTrack(t: Tables, rules: Rules, front: seq<Event>, openings: seq<Opening>) {
    forall o :: o in openings ==>
      OpeningTracks(t, front, SlotAfter(rules, front, o.economic.outcome.attempt.instrument), o)
  }

  // An opening whose action is the pending one belongs to the same instrument.
  lemma SameActionSameInstrument(t: Tables, front: seq<Event>, s: InstrumentState, held: InstrumentState, o: Opening)
    requires UniqueIds(front) && Grounded(front, s) && s.pending.Some? && OpeningTracks(t, front, held, o)
    ensures o.action == s.pending.value.id ==>
              o.economic.outcome.attempt.instrument == s.instrument
              && s.pending.value.created < o.economic.outcome.attempt.time
  {
    var x :| x in front && ActionId(x.id) == o.action && x.time < o.economic.outcome.attempt.time
             && x.instrument == o.economic.outcome.attempt.instrument;
    var y :| y in front && y.instrument == s.instrument && y.time == s.pending.value.created && y.signal.Some?
             && s.pending.value == ActionFor(y, s.pending.value.origin);
    SameIdSameEvent(front, x, y);
  }

  lemma NotOpenedYet(t: Tables, rules: Rules, front: seq<Event>, s: InstrumentState, openings: seq<Opening>)
    requires UniqueIds(front) && Grounded(front, s) && s == SlotAfter(rules, front, s.instrument)
    requires s.pending.Some? && s.position.None? && OpeningsTrack(t, rules, front, openings)
    ensures IndexOf(openings, s.pending.value.id) == |openings|
  {
    forall o | o in openings ensures o.action != s.pending.value.id {
      SameActionSameInstrument(t, front, s, SlotAfter(rules, front, o.economic.outcome.attempt.instrument), o);
    }
  }

  lemma EntryChecked(w: Walked, s: InstrumentState, e: Event, turn: Turn, economic: EconomicExecution)
    requires turn.record.action.Some? && ValidFill(turn.record, economic)
    requires s.position.None? && IndexOf(w.openings, turn.record.action.value.id) == |w.openings|
    requires turn.next == InstrumentState(e.instrument, Holding, None, turn.record.position) && turn.next.Valid()
    ensures CheckEntry(w.(used := w.used + {economic.outcome.attempt.id}, states := w.states[e.instrument := s]),
                       s, e, turn.record, economic)
         == Ok(Opens(w, e, turn, economic))
  {
    StateTwice(w.states, e.instrument, s, turn.next);
  }

  lemma EntryAccepted(
    t: Tables, rules: Rules, front: seq<Event>, e: Event, s: InstrumentState, turn: Turn, w: Walked,
    economic: EconomicExecution)
    requires Turned(rules, front, e, s, turn) && OpeningsTrack(t, rules, front, w.openings)
    requires turn.record.outcome == Some(economic.outcome) && economic.outcome.status == Filled
    requires s.pending.Some? && s.pending.value.kind == Entry
    ensures turn.record.action.Some?
    ensures CheckEntry(w.(used := w.used + {economic.outcome.attempt.id}, states := w.states[e.instrument := s]),
                       s, e, turn.record, economic)
         == Ok(Opens(w, e, turn, economic))
  {
    StepEvent(front, e);
    FillTurn(rules, s, e, turn, economic.outcome);
    FillValid(rules, s, e, turn, economic);
    NotOpenedYet(t, rules, front, s, w.openings);
    NextValid(rules, s, e);
    EntryChecked(w, s, e, turn, economic);
  }

  lemma StateTwice(states: map<Instrument, InstrumentState>, i: Instrument, a: InstrumentState, b: InstrumentState)
    ensures states[i := a][i := b] == states[i := b]
  {
  }

  lemma StepEvent(front: seq<Event>, e: Event)
    requires ValidEvents(front + [e]) && UniqueIds(front + [e])
    ensures e.Valid() && ValidEvents(front) && UniqueIds(front)
  {
    assert (front + [e])[|front|] == e;
    forall i, j | 0 <= i < j < |front| ensures front[i].id != front[j].id {
      assert (front + [e])[i].id != (front + [e])[j].id;
    }
    forall x | x in front ensures x in front + [e] {
    }
  }

  // The exit closes the opening of its own instrument with a well-formed trade.
  lemma TradeValid(
    t: Tables, front: seq<Event>, s: InstrumentState, e: Event, turn: Turn, o: Opening, economic: EconomicExecution)
    requires UniqueIds(front) && Grounded(front, s) && s.instrument == e.instrument
    requires OpeningTracks(t, front, s, o) && o.economic.outcome.attempt.instrument == e.instrument
    requires o.economic.Valid() && ConfiguredAs(t.configs, o.economic) && ConfiguredAs(t.configs, economic)
    requires o.economic.outcome.attempt.id != economic.outcome.attempt.id
    requires s.pending.Some? && s.pending.value.kind == Exit && e.time > s.pending.value.eligibleAfter
    requires economic.outcome.attempt == AttemptFor(s.pending.value, e)
    requires turn.record.position == s.position && ValidFill(turn.record, economic)
    ensures TradeRecord(o.economic, economic, o.record, turn.record).Valid()
  {
    SameActionSameInstrument(t, front, s, s, o);
    if o.economic.Price() > 0.0 {
      ProductPositive(o.economic.Price(), o.economic.config.quantity);
    }
  }

  lemma OpeningFound(t: Tables, rules: Rules, front: seq<Event>, s: InstrumentState, openings: seq<Opening>)
    requires s == SlotAfter(rules, front, s.instrument) && s.position.Some?
    requires OpeningsTrack(t, rules, front, openings) && HasOpening(openings, s.instrument)
    requires forall a, b :: 0 <= a < b < |openings| ==> openings[a].action != openings[b].action
    ensures var k := IndexOf(openings, s.position.value.opening);
            k < |openings| && openings[k].economic.outcome.attempt.instrument == s.instrument
  {
    var o :| o in openings && o.economic.outcome.attempt.instrument == s.instrument;
    assert OpeningTracks(t, front, s, o);
    var k := IndexOf(openings, s.position.value.opening);
    var j :| 0 <= j < |openings| && openings[j] == o;
    assert j == k;
  }

  lemma ExitChecked(w: Walked, s: InstrumentState, e: Event, turn: Turn, economic: EconomicExecution, k: nat)
    requires s.position.Some? && turn.record.position == s.position && turn.next == FlatState(e.instrument)
    requires k == IndexOf(w.openings, s.position.value.opening) < |w.openings|
    requires TradeRecord(w.openings[k].economic, economic, w.openings[k].record, turn.record).Valid()
    ensures CheckExit(w.(used := w.used + {economic.outcome.attempt.id}, states := w.states[e.instrument := s]),
                      s, e, turn.record, economic)
         == Ok(Closes(w, e, turn, economic, k))
  {
    StateTwice(w.states, e.instrument, s, turn.next);
  }

  lemma ExitTradeValid(
    t: Tables, rules: Rules, front: seq<Event>, e: Event, s: InstrumentState, turn: Turn, o: Opening,
    economic: EconomicExecution)
    requires Turned(rules, front, e, s, turn) && OpeningTracks(t, front, s, o) && EconomicsListed(t)
    requires o.economic.outcome.attempt.instrument == e.instrument
    requires turn.record.outcome == Some(economic.outcome) && economic.outcome.status == Filled
    requires o.economic.outcome.attempt.id != economic.outcome.attempt.id && InTable(t, economic)
    requires s.pending.Some? && s.pending.value.kind == Exit
    ensures TradeRecord(o.economic, economic, o.record, turn.record).Valid()
  {
    StepEvent(front, e);
    FillTurn(rules, s, e, turn, economic.outcome);
    FillValid(rules, s, e, turn, economic);
    OutcomeTurn(rules, s, e);
    TradeValid(t, front, s, e, turn, o, economic);
  }

  lemma ExitAccepted(
    t: Tables, rules: Rules, front: seq<Event>, e: Event, s: InstrumentState, turn: Turn, w: Walked,
    economic: EconomicExecution)
    requires Turned(rules, front, e, s, turn) && EconomicsListed(t)
    requires OpeningsTrack(t, rules, front, w.openings) && HasOpening(w.openings, e.instrument)
    requires forall a, b :: 0 <= a < b < |w.openings| ==> w.openings[a].action != w.openings[b].action
    requires forall o :: o in w.openings ==> o.economic.outcome.attempt.id in w.used
    requires turn.record.outcome == Some(economic.outcome) && economic.outcome.status == Filled
    requires economic.outcome.attempt.id !in w.used && InTable(t, economic)
    requires s.pending.Some? && s.pending.value.kind == Exit
    ensures s.position.Some? && IndexOf(w.openings, s.position.value.opening) < |w.openings|
    ensures w.openings[IndexOf(w.openings, s.position.value.opening)].economic.outcome.attempt.instrument == e.instrument
    ensures CheckExit(w.(used := w.used + {economic.outcome.attempt.id}, states := w.states[e.instrument := s]),
                      s, e, turn.record, economic)
         == Ok(Closes(w, e, turn, economic, IndexOf(w.openings, s.position.value.opening)))
  {
    StepEvent(front, e);
    FillTurn(rules, s, e, turn, economic.outcome);
    OpeningFound(t, rules, front, s, w.openings);
    var k := IndexOf(w.openings, s.position.value.opening);
    var o := w.openings[k];
    assert o in w.openings && OpeningTracks(t, front, s, o);
    ExitTradeValid(t, rules, front, e, s, turn, o, economic);
    ExitChecked(w, s, e, turn, economic, k);
  }

  // ----- one step is accepted, and the walk keeps following -----

  // The part of following that does not concern openings.
  ghost predicate FollowsStates(rules: Rules, front: seq<Event>, w: Walked) {
    && (forall i :: StateOf(w.states, i) == SlotAfter(rules, front, i))
    && (forall i :: i in w.states <==> i in Seen(front))
    && w.used == OutcomeIds(Outcomes(Records(rules, front)))
    && (forall a :: a in w.actions ==> exists e :: e in front && a == ActionId(e.id))
  }

  // Every open position has its opening.
  ghost predicate PositionsOpened(rules: Rules, front: seq<Event>, openings: seq<Opening>) {
    forall i :: SlotAfter(rules, front, i).position.Some? ==> HasOpening(openings, i)
  }

  lemma SlotSnoc(rules: Rules, front: seq<Event>, e: Event, turn: Turn, i: Instrument)
    requires Next(rules, SlotAfter(rules, front, e.instrument), e) == Ok(turn)
    ensures SlotAfter(rules, front + [e], i) == if i == e.instrument then turn.next else SlotAfter(rules, front, i)
  {
    assert Front(front + [e]) == front;
  }

  lemma OutcomeIdsSnoc(rules: Rules, front: seq<Event>, e: Event, turn: Turn)
    requires Next(rules, SlotAfter(rules, front, e.instrument), e) == Ok(turn)
    ensures OutcomeIds(Outcomes(Records(rules, front + [e])))
         == OutcomeIds(Outcomes(Records(rules, front)))
            + if turn.record.outcome.Some? then {turn.record.outcome.value.attempt.id} else {}
  {
    assert Front(front + [e]) == front;
    OutcomesSnoc(Records(rules, front), turn.record);
  }

  lemma StatesFollow(rules: Rules, front: seq<Event>, e: Event, turn: Turn, w: Walked, next: Walked)
    requires FollowsStates(rules, front, w) && Next(rules, SlotAfter(rules, front, e.instrument), e) == Ok(turn)
    requires next.states == w.states[e.instrument := turn.next]
    requires next.used == w.used + if turn.record.outcome.Some? then {turn.record.outcome.value.attempt.id} else {}
    requires forall a :: a in next.actions ==> a in w.actions || a == ActionId(e.id)
    ensures FollowsStates(rules, front + [e], next)
  {
    OutcomeIdsSnoc(rules, front, e, turn);
    forall i ensures StateOf(next.states, i) == SlotAfter(rules, front + [e], i) {
      SlotSnoc(rules, front, e, turn, i);
    }
    assert Front(front + [e]) == front && e in front + [e];
    forall x | x in front ensures x in front + [e] {
    }
  }

  lemma OpeningGrows(t: Tables, front: seq<Event>, e: Event, s: InstrumentState, o: Opening)
    requires OpeningTracks(t, front, s, o)
    ensures OpeningTracks(t, front + [e], s, o)
  {
    forall x | x in front ensures x in front + [e] {
    }
  }

  // The opening of an open position stays apart from an exit proposed later.
  lemma OpeningKept(
    t: Tables, front: seq<Event>, e: Event, s: InstrumentState, next: InstrumentState, o: Opening)
    requires OpeningTracks(t, front, s, o) && Sorted(EventKey(), front + [e])
    requires next.position == s.position
    requires next.pending == s.pending
             || (next.pending.Some? && next.pending.value.created == e.time && e.kind == SignalAvailable)
    ensures OpeningTracks(t, front + [e], next, o)
  {
    OpeningGrows(t, front, e, s, o);
    var x :| x in front && x.kind == ExecutionOpportunity && x.time == o.economic.outcome.attempt.time;
    AfterOpportunity(front, e, x);
  }

  lemma OpeningMade(
    t: Tables, rules: Rules, front: seq<Event>, e: Event, s: InstrumentState, turn: Turn, economic: EconomicExecution)
    requires Turned(rules, front, e, s, turn)
    requires turn.record.outcome == Some(economic.outcome) && economic.outcome.status == Filled
    requires s.pending.Some? && s.pending.value.kind == Entry && InTable(t, economic)
    ensures turn.record.action.Some?
    ensures OpeningTracks(t, front + [e], turn.next, Opening(turn.record.action.value.id, turn.record, economic))
  {
    StepEvent(front, e);
    FillTurn(rules, s, e, turn, economic.outcome);
    FillValid(rules, s, e, turn, economic);
    OutcomeTurn(rules, s, e);
    assert e in front + [e];
    var y :| y in front && y.instrument == s.instrument && y.time == s.pending.value.created && y.signal.Some?
             && s.pending.value == ActionFor(y, s.pending.value.origin);
    assert y in front + [e];
  }

  // Without a fill openings stay as they are.
  lemma OpeningsKept(
    t: Tables, rules: Rules, front: seq<Event>, e: Event, s: InstrumentState, turn: Turn, openings: seq<Opening>)
    requires Turned(rules, front, e, s, turn)
    requires OpeningsTrack(t, rules, front, openings) && PositionsOpened(rules, front, openings)
    requires turn.next.position == s.position
    requires turn.next.pending == s.pending
             || (turn.next.pending.Some? && turn.next.pending.value.created == e.time && e.kind == SignalAvailable)
    ensures OpeningsTrack(t, rules, front + [e], openings) && PositionsOpened(rules, front + [e], openings)
  {
    forall o | o in openings
      ensures OpeningTracks(t, front + [e], SlotAfter(rules, front + [e], o.economic.outcome.attempt.instrument), o)
    {
      var i := o.economic.outcome.attempt.instrument;
      SlotSnoc(rules, front, e, turn, i);
      OpeningKept(t, front, e, SlotAfter(rules, front, i), SlotAfter(rules, front + [e], i), o);
    }
    forall i | SlotAfter(rules, front + [e], i).position.Some? ensures HasOpening(openings, i) {
      SlotSnoc(rules, front, e, turn, i);
    }
  }

  lemma OpeningsAdded(
    t: Tables, rules: Rules, front: seq<Event>, e: Event, s: InstrumentState, turn: Turn, openings: seq<Opening>,
    economic: EconomicExecution)
    requires Turned(rules, front, e, s, turn)
    requires OpeningsTrack(t, rules, front, openings) && PositionsOpened(rules, front, openings)
    requires turn.record.outcome == Some(economic.outcome) && economic.outcome.status == Filled
    requires s.pending.Some? && s.pending.value.kind == Entry && InTable(t, economic)
    ensures turn.record.action.Some?
    ensures var all := openings + [Opening(turn.record.action.value.id, turn.record, economic)];
            OpeningsTrack(t, rules, front + [e], all) && PositionsOpened(rules, front + [e], all)
  {
    OpeningMade(t, rules, front, e, s, turn, economic);
    FillTurn(rules, s, e, turn, economic.outcome);
    var added := Opening(turn.record.action.value.id, turn.record, economic);
    var all := openings + [added];
    forall o | o in all
      ensures OpeningTracks(t, front + [e], SlotAfter(rules, front + [e], o.economic.outcome.attempt.instrument), o)
    {
      var i := o.economic.outcome.attempt.instrument;
      SlotSnoc(rules, front, e, turn, i);
      if o != added {
        OpeningGrows(t, front, e, SlotAfter(rules, front, i), o);
      }
    }
    forall i | SlotAfter(rules, front + [e], i).position.Some? ensures HasOpening(all, i) {
      SlotSnoc(rules, front, e, turn, i);
      if i == e.instrument {
        assert added in all;
      } else {
        var o :| o in openings && o.economic.outcome.attempt.instrument == i;
        assert o in all;
      }
    }
  }

  // Only its own instrument's opening has the action of an open position.
  lemma OneOpeningEach(
    t: Tables, front: seq<Event>, s: InstrumentState, held: InstrumentState, a: Opening, b: Opening)
    requires OpeningTracks(t, front, s, a) && OpeningTracks(t, front, held, b) && a.action != b.action
    ensures held != s
  {
  }

  lemma RestTracks(
    t: Tables, rules: Rules, front: seq<Event>, e: Event, s: InstrumentState, turn: Turn, removed: Opening, o: Opening)
    requires Next(rules, s, e) == Ok(turn) && s == SlotAfter(rules, front, e.instrument)
    requires OpeningTracks(t, front, s, removed) && o.action != removed.action
    requires OpeningTracks(t, front, SlotAfter(rules, front, o.economic.outcome.attempt.instrument), o)
    ensures o.economic.outcome.attempt.instrument != e.instrument
    ensures OpeningTracks(t, front + [e], SlotAfter(rules, front + [e], o.economic.outcome.attempt.instrument), o)
  {
    var i := o.economic.outcome.attempt.instrument;
    OneOpeningEach(t, front, s, SlotAfter(rules, front, i), removed, o);
    SlotSnoc(rules, front, e, turn, i);
    OpeningGrows(t, front, e, SlotAfter(rules, front, i), o);
  }

  lemma OpeningsRemoved(
    t: Tables, rules: Rules, front: seq<Event>, e: Event, s: InstrumentState, turn: Turn, openings: seq<Opening>,
    k: nat)
    requires Next(rules, s, e) == Ok(turn) && s == SlotAfter(rules, front, e.instrument)
    requires turn.next == FlatState(e.instrument)
    requires OpeningsTrack(t, rules, front, openings) && PositionsOpened(rules, front, openings)
    requires forall a, b :: 0 <= a < b < |openings| ==> openings[a].action != openings[b].action
    requires k < |openings| && openings[k].economic.outcome.attempt.instrument == e.instrument
    ensures var rest := openings[..k] + openings[k + 1..];
            OpeningsTrack(t, rules, front + [e], rest) && PositionsOpened(rules, front + [e], rest)
  {
    var rest := openings[..k] + openings[k + 1..];
    forall o | o in rest
      ensures OpeningTracks(t, front + [e], SlotAfter(rules, front + [e], o.economic.outcome.attempt.instrument), o)
    {
      var a :| 0 <= a < |openings| && a != k && openings[a] == o;
      RestTracks(t, rules, front, e, s, turn, openings[k], o);
    }
    RestCovers(rules, front, e, turn, openings, k);
  }

  lemma RestCovers(rules: Rules, front: seq<Event>, e: Event, turn: Turn, openings: seq<Opening>, k: nat)
    requires Next(rules, SlotAfter(rules, front, e.instrument), e) == Ok(turn)
    requires turn.next == FlatState(e.instrument) && PositionsOpened(rules, front, openings)
    requires k < |openings| && openings[k].economic.outcome.attempt.instrument == e.instrument
    ensures PositionsOpened(rules, front + [e], openings[..k] + openings[k + 1..])
  {
    var rest := openings[..k] + openings[k + 1..];
    forall i | SlotAfter(rules, front + [e], i).position.Some? ensures HasOpening(rest, i) {
      SlotSnoc(rules, front, e, turn, i);
      var o :| o in openings && o.economic.outcome.attempt.instrument == i;
      var a :| 0 <= a < |openings| && openings[a] == o;
      assert o == if a < k then rest[a] else rest[a - 1];
    }
  }

  // The walk's variables are those of the pass over the same events.
  ghost predicate Follows(t: Tables, rules: Rules, front: seq<Event>, w: Walked) {
    && FollowsStates(rules, front, w)
    && OpeningsTrack(t, rules, front, w.openings) && PositionsOpened(rules, front, w.openings)
  }

  lemma MoveAccepted(
    result: SimulationResult, t: Tables, rules: Rules, w: Walked, s: InstrumentState, e: Event, turn: Turn, moved: Walked)
    requires e.id in t.records && t.records[e.id] == turn.record && Next(rules, s, e) == Ok(turn)
    requires StateOf(w.states, e.instrument) == s && StateOf(moved.states, e.instrument) == turn.next
    requires CheckMove(result, t, w, s, e, turn.record) == Ok(moved)
    ensures CheckEvent(result, t, w, e) == Ok(moved)
  {
    RecordOfTurn(rules, s, e, turn);
  }

  lemma CreationMoves(
    result: SimulationResult, t: Tables, rules: Rules, front: seq<Event>, e: Event, s: InstrumentState, turn: Turn,
    w: Walked) returns (next: Walked)
    requires Turned(rules, front, e, s, turn) && Follows(t, rules, front, w)
    requires turn.record.decision == ActionCreated && e.instrument in t.strategies
    ensures CheckMove(result, t, w, s, e, turn.record) == Ok(next)
    ensures next.states == w.states[e.instrument := turn.next]
    ensures Follows(t, rules, front + [e], next)
  {
    CreationAccepted(t, rules, front, e, s, turn, w);
    StepEvent(front, e);
    CreatedTurn(rules, s, e, turn);
    next := w.(actions := w.actions + {ActionId(e.id)}, states := w.states[e.instrument := turn.next]);
    StatesFollow(rules, front, e, turn, w, next);
    OpeningsKept(t, rules, front, e, s, turn, w.openings);
  }

  lemma IdleMoves(
    result: SimulationResult, t: Tables, rules: Rules, front: seq<Event>, e: Event, s: InstrumentState, turn: Turn,
    w: Walked) returns (next: Walked)
    requires Turned(rules, front, e, s, turn) && Follows(t, rules, front, w)
    requires turn.record.decision != ActionCreated && turn.record.outcome.None?
    ensures CheckMove(result, t, w, s, e, turn.record) == Ok(next)
    ensures next.states == w.states[e.instrument := turn.next]
    ensures Follows(t, rules, front + [e], next)
  {
    IdleTurn(rules, s, e, turn);
    next := w.(states := w.states[e.instrument := turn.next]);
    StatesFollow(rules, front, e, turn, w, next);
    OpeningsKept(t, rules, front, e, s, turn, w.openings);
  }

  // What the run supplies about an attempt, so that the walk can take it up.
  ghost predicate Supplied(result: SimulationResult, t: Tables, w: Walked, s: InstrumentState, e: Event, turn: Turn, o: Outcome) {
    && turn.record.outcome == Some(o)
    && AttemptMatches(result, t.outcomes, w.used, s, e, turn.record, o)
    && (o.evidence.Some? ==> o.evidence.value in result.quotes)
    && (o.status == Filled ==> o.attempt.id in t.economics && t.economics[o.attempt.id].outcome == o)
    && (forall x :: x in w.openings ==> x.economic.outcome.attempt.id in w.used)
    && (forall a, b :: 0 <= a < b < |w.openings| ==> w.openings[a].action != w.openings[b].action)
  }

  // A supplied fill is checked as an entry or as an exit, by the kind of its action.
  lemma FillChecked(
    result: SimulationResult, t: Tables, w: Walked, s: InstrumentState, e: Event, turn: Turn, o: Outcome)
    requires Supplied(result, t, w, s, e, turn, o) && o.status == Filled && turn.record.decision == ActionFilled
    ensures var used := w.(used := w.used + {o.attempt.id}, states := w.states[e.instrument := s]);
            CheckMove(result, t, w, s, e, turn.record)
            == if turn.record.action.value.kind == Entry
               then CheckEntry(used, s, e, turn.record, t.economics[o.attempt.id])
               else CheckExit(used, s, e, turn.record, t.economics[o.attempt.id])
  {
  }

  lemma UnfilledMoves(
    result: SimulationResult, t: Tables, rules: Rules, front: seq<Event>, e: Event, s: InstrumentState, turn: Turn,
    w: Walked, o: Outcome) returns (next: Walked)
    requires Turned(rules, front, e, s, turn) && Follows(t, rules, front, w)
    requires Supplied(result, t, w, s, e, turn, o) && o.status != Filled
    ensures CheckMove(result, t, w, s, e, turn.record) == Ok(next)
    ensures next.states == w.states[e.instrument := turn.next]
    ensures Follows(t, rules, front + [e], next)
  {
    StepEvent(front, e);
    FillTurn(rules, s, e, turn, o);
    next := w.(used := w.used + {o.attempt.id}, states := w.states[e.instrument := turn.next]);
    StatesFollow(rules, front, e, turn, w, next);
    OpeningsKept(t, rules, front, e, s, turn, w.openings);
  }

  lemma EntryMoves(
    result: SimulationResult, t: Tables, rules: Rules, front: seq<Event>, e: Event, s: InstrumentState, turn: Turn,
    w: Walked, o: Outcome) returns (next: Walked)
    requires Turned(rules, front, e, s, turn) && Follows(t, rules, front, w)
    requires Supplied(result, t, w, s, e, turn, o) && o.status == Filled
    requires s.pending.Some? && s.pending.value.kind == Entry
    ensures CheckMove(result, t, w, s, e, turn.record) == Ok(next)
    ensures next.states == w.states[e.instrument := turn.next]
    ensures Follows(t, rules, front + [e], next)
  {
    StepEvent(front, e);
    FillTurn(rules, s, e, turn, o);
    FillChecked(result, t, w, s, e, turn, o);
    var economic := t.economics[o.attempt.id];
    EntryAccepted(t, rules, front, e, s, turn, w, economic);
    next := Opens(w, e, turn, economic);
    StatesFollow(rules, front, e, turn, w, next);
    OpeningsAdded(t, rules, front, e, s, turn, w.openings, economic);
  }

  lemma ExitMoves(
    result: SimulationResult, t: Tables, rules: Rules, front: seq<Event>, e: Event, s: InstrumentState, turn: Turn,
    w: Walked, o: Outcome) returns (next: Walked)
    requires Turned(rules, front, e, s, turn) && Follows(t, rules, front, w) && EconomicsListed(t)
    requires Supplied(result, t, w, s, e, turn, o) && o.status == Filled
    requires s.pending.Some? && s.pending.value.kind == Exit
    ensures CheckMove(result, t, w, s, e, turn.record) == Ok(next)
    ensures next.states == w.states[e.instrument := turn.next]
    ensures Follows(t, rules, front + [e], next)
  {
    StepEvent(front, e);
    FillTurn(rules, s, e, turn, o);
    FillChecked(result, t, w, s, e, turn, o);
    var economic := t.economics[o.attempt.id];
    assert HasOpening(w.openings, e.instrument);
    ExitAccepted(t, rules, front, e, s, turn, w, economic);
    var k := IndexOf(w.openings, s.position.value.opening);
    next := Closes(w, e, turn, economic, k);
    ExitFollows(t, rules, front, e, s, turn, w, economic, k);
  }

  lemma ExitFollows(
    t: Tables, rules: Rules, front: seq<Event>, e: Event, s: InstrumentState, turn: Turn, w: Walked,
    economic: EconomicExecution, k: nat)
    requires Turned(rules, front, e, s, turn) && Follows(t, rules, front, w) && turn.next == FlatState(e.instrument)
    requires turn.record.outcome == Some(economic.outcome)
    requires forall a, b :: 0 <= a < b < |w.openings| ==> w.openings[a].action != w.openings[b].action
    requires k < |w.openings| && w.openings[k].economic.outcome.attempt.instrument == e.instrument
    ensures Follows(t, rules, front + [e], Closes(w, e, turn, economic, k))
  {
    StatesFollow(rules, front, e, turn, w, Closes(w, e, turn, economic, k));
    OpeningsRemoved(t, rules, front, e, s, turn, w.openings, k);
  }

  lemma OutcomeMoves(
    result: SimulationResult, t: Tables, rules: Rules, front: seq<Event>, e: Event, s: InstrumentState, turn: Turn,
    w: Walked, o: Outcome) returns (next: Walked)
    requires Turned(rules, front, e, s, turn) && Follows(t, rules, front, w) && EconomicsListed(t)
    requires Supplied(result, t, w, s, e, turn, o)
    ensures CheckMove(result, t, w, s, e, turn.record) == Ok(next)
    ensures next.states == w.states[e.instrument := turn.next]
    ensures Follows(t, rules, front + [e], next)
  {
    OutcomeTurn(rules, s, e);
    if o.status != Filled {
      next := UnfilledMoves(result, t, rules, front, e, s, turn, w, o);
    } else if s.pending.value.kind == Entry {
      next := EntryMoves(result, t, rules, front, e, s, turn, w, o);
    } else {
      next := ExitMoves(result, t, rules, front, e, s, turn, w, o);
    }
  }

  // An attempt of a documented pass is supplied with all the evidence the walk asks for.
  lemma AttemptSupplied(
    result: SimulationResult, t: Tables, rules: Rules, front: seq<Event>, e: Event, s: InstrumentState, turn: Turn,
    w: Walked, o: Outcome)
    requires Turned(rules, front, e, s, turn) && turn.record.outcome == Some(o) && TablesSound(t)
    requires rules.config == Some(result.execution) && rules.quotes == result.quotes
    requires o.attempt.id in t.outcomes && t.outcomes[o.attempt.id] == o
    requires w.used == OutcomeIds(Outcomes(Records(rules, front)))
    requires forall x :: x in w.openings ==> x.economic.outcome.attempt.id in w.used
    requires forall a, b :: 0 <= a < b < |w.openings| ==> w.openings[a].action != w.openings[b].action
    ensures Supplied(result, t, w, s, e, turn, o)
  {
    OutcomeTurn(rules, s, e);
    FreshAttempt(front, e, rules, o.attempt.id);
    EvidenceSupplied(rules, s, e, o);
  }

  lemma StepMoves(
    result: SimulationResult, t: Tables, rules: Rules, front: seq<Event>, e: Event, s: InstrumentState, turn: Turn,
    w: Walked) returns (next: Walked)
    requires Turned(rules, front, e, s, turn) && Follows(t, rules, front, w)
    requires TablesSound(t) && EconomicsListed(t)
    requires rules.config == Some(result.execution) && rules.quotes == result.quotes
    requires e.kind == SignalAvailable ==> e.instrument in t.strategies
    requires turn.record.outcome.Some? ==>
               var o := turn.record.outcome.value; o.attempt.id in t.outcomes && t.outcomes[o.attempt.id] == o
    requires forall x :: x in w.openings ==> x.economic.outcome.attempt.id in w.used
    requires forall a, b :: 0 <= a < b < |w.openings| ==> w.openings[a].action != w.openings[b].action
    ensures CheckMove(result, t, w, s, e, turn.record) == Ok(next)
    ensures next.states == w.states[e.instrument := turn.next]
    ensures Follows(t, rules, front + [e], next)
  {
    if turn.record.decision == ActionCreated {
      StepEvent(front, e);
      CreatedTurn(rules, s, e, turn);
      next := CreationMoves(result, t, rules, front, e, s, turn, w);
    } else if turn.record.outcome.None? {
      next := IdleMoves(result, t, rules, front, e, s, turn, w);
    } else {
      var o := turn.record.outcome.value;
      AttemptSupplied(result, t, rules, front, e, s, turn, w, o);
      next := OutcomeMoves(result, t, rules, front, e, s, turn, w, o);
    }
  }

  // ----- the whole walk -----

  lemma WalkKeeps(result: SimulationResult, t: Tables, es: seq<Event>, w: Walked)
    requires TablesSound(t) && Walk(result, t, es) == Ok(w) && Sorted(EventKey(), es)
    ensures forall x :: x in w.openings ==> x.economic.outcome.attempt.id in w.used
    ensures forall a, b :: 0 <= a < b < |w.openings| ==> w.openings[a].action != w.openings[b].action
  {
    WalkTimed(result, t, es);
    WalkAccounts(result, t, es);
    forall x | x in w.openings ensures x.economic.outcome.attempt.id in w.used {
      assert x.economic.outcome.attempt.id in OpenIds(w.openings);
      assert x.economic.outcome.attempt.id in FillIds(t, w);
    }
  }

  lemma PrefixSorted(es: seq<Event>, n: nat)
    requires Sorted(EventKey(), es) && n <= |es|
    ensures Sorted(EventKey(), es[..n])
  {
  }

  // The walk over these events succeeds, following the pass.
  ghost predicate Followed(result: SimulationResult, t: Tables, rules: Rules, es: seq<Event>) {
    Walk(result, t, es).Ok? && Follows(t, rules, es, Walk(result, t, es).value)
  }

  lemma FollowedNext(result: SimulationResult, t: Tables, rules: Rules, es: seq<Event>, n: nat)
    requires Documented(result, t, rules, es) && n < |es| && Followed(result, t, rules, es[..n])
    ensures Followed(result, t, rules, es[..n + 1])
  {
    var w := Walk(result, t, es[..n]).value;
    var s := SlotAfter(rules, es[..n], es[n].instrument);
    PrefixSorted(es, n);
    WalkKeeps(result, t, es[..n], w);
    StepTurned(rules, es, n);
    assert DocumentedAt(t, rules, es, n);
    var turn := LastTurn(rules, es[..n + 1]).value;
    var next := StepMoves(result, t, rules, es[..n], es[n], s, turn, w);
    MoveAccepted(result, t, rules, w, s, es[n], turn, next);
    PrefixOrder(es, n);
  }

  lemma {:induction false} WalkFollows(result: SimulationResult, t: Tables, rules: Rules, es: seq<Event>, n: nat)
    requires Documented(result, t, rules, es) && n <= |es|
    ensures Followed(result, t, rules, es[..n])
  {
    if n == 0 {
      assert es[..0] == [];
    } else {
      WalkFollows(result, t, rules, es, n - 1);
      FollowedNext(result, t, rules, es, n - 1);
    }
  }
}
