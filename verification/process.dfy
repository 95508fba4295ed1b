// The lifecycle loop over a canonical event order: simulation/lifecycle.py.
module Process {
  import opened Collections
  import opened Order
  import opened Domain
  import opened Events
  import opened Timeline
  import opened Execution
  import opened Lifecycle

  type Instant = (int, Instrument)

  function SignalAt(instant: Instant): Event -> bool {
    (e: Event) => e.kind == SignalAvailable && (e.time, e.instrument) == instant
  }

  function GroupAt(groups: map<Instant, seq<Event>>, instant: Instant): seq<Event> {
    if instant in groups then groups[instant] else []
  }

  // The signals of each instant, in order.
  function SignalGroups(es: seq<Event>): map<Instant, seq<Event>> {
    if es == [] then map[]
    else
      var groups, e := SignalGroups(Front(es)), Last(es);
      if e.kind != SignalAvailable then groups
      else groups[(e.time, e.instrument) := GroupAt(groups, (e.time, e.instrument)) + [e]]
  }

  lemma {:induction false} SignalGroupsFilter(es: seq<Event>, instant: Instant)
    ensures GroupAt(SignalGroups(es), instant) == Filter(SignalAt(instant), es)
    ensures instant in SignalGroups(es) <==> Filter(SignalAt(instant), es) != []
  {
    if es != [] {
      SignalGroupsFilter(Front(es), instant);
    }
  }

  predicate Opposed(candidates: seq<Event>)
    requires forall c :: c in candidates ==> c.signal.Some?
  {
    var kinds := set c | c in candidates :: c.signal.value.kind;
    LongEntry in kinds && LongExit in kinds
  }

  // A group proposes both directions exactly when each of its members is conflicted.
  lemma GroupConflicts(es: seq<Event>, instant: Instant, e: Event)
    requires ValidEvents(es) && e in Filter(SignalAt(instant), es)
    ensures Opposed(Filter(SignalAt(instant), es)) <==> Conflicted(es, e)
  {
    var group := Filter(SignalAt(instant), es);
    if Conflicted(es, e) {
      var x :| x in es && x.kind == SignalAvailable && x.signal.Some?
               && x.time == e.time && x.instrument == e.instrument
               && x.signal.value.kind != e.signal.value.kind;
      assert x in group;
    }
    if Opposed(group) {
      var x :| x in group && x.signal.value.kind != e.signal.value.kind;
      assert x in es;
    }
  }

  // The conflicted signals of the instants already examined.
  ghost function ConflictsOutside(es: seq<Event>, remaining: set<Instant>): set<EventId> {
    set e | e in es && Conflicted(es, e) && (e.time, e.instrument) !in remaining :: e.id
  }

  lemma ExamineInstant(es: seq<Event>, remaining: set<Instant>, instant: Instant)
    requires ValidEvents(es) && instant in remaining
    ensures ConflictsOutside(es, remaining - {instant}) == ConflictsOutside(es, remaining) +
            if Opposed(Filter(SignalAt(instant), es)) then set c | c in Filter(SignalAt(instant), es) :: c.id else {}
  {
    var group := Filter(SignalAt(instant), es);
    forall e | e in group {
      GroupConflicts(es, instant, e);
    }
    assert forall e :: e in es && Conflicted(es, e) && (e.time, e.instrument) == instant ==> e in group;
    var added := if Opposed(group) then set c | c in group :: c.id else {};
    forall id ensures id in ConflictsOutside(es, remaining - {instant}) <==>
                      id in ConflictsOutside(es, remaining) || id in added
    {
    }
  }

  lemma NothingExamined(es: seq<Event>)
    requires ValidEvents(es)
    ensures ConflictsOutside(es, SignalGroups(es).Keys) == {}
    ensures ConflictsOutside(es, {}) == Conflicts(es)
  {
    forall e | e in es && Conflicted(es, e) ensures (e.time, e.instrument) in SignalGroups(es) {
      SignalGroupsFilter(es, (e.time, e.instrument));
      assert e in Filter(SignalAt((e.time, e.instrument)), es);
    }
  }

  method GroupSignals(es: seq<Event>) returns (groups: map<Instant, seq<Event>>)
    ensures groups == SignalGroups(es)
  {
    groups := map[];
    for i := 0 to |es|
      invariant groups == SignalGroups(es[..i])
    {
      assert Front(es[..i + 1]) == es[..i];
      if es[i].kind == SignalAvailable {
        var instant := (es[i].time, es[i].instrument);
        groups := groups[instant := GroupAt(groups, instant) + [es[i]]];
      }
    }
    assert es[..|es|] == es;
  }

  method ConflictedSignals(es: seq<Event>) returns (conflicted: set<EventId>)
    requires ValidEvents(es)
    ensures conflicted == Conflicts(es)
  {
    var groups := GroupSignals(es);
    NothingExamined(es);
    conflicted := {};
    var remaining := groups.Keys;
    while remaining != {}
      invariant remaining <= groups.Keys
      invariant conflicted == ConflictsOutside(es, remaining)
      decreases remaining
    {
      var instant :| instant in remaining;
      SignalGroupsFilter(es, instant);
      ExamineInstant(es, remaining, instant);
      var candidates := GroupAt(groups, instant);
      if Opposed(candidates) {
        conflicted := conflicted + set c | c in candidates :: c.id;
      }
      remaining := remaining - {instant};
    }
  }

  function StateOf(states: map<Instrument, InstrumentState>, instrument: Instrument): InstrumentState {
    if instrument in states then states[instrument] else FlatState(instrument)
  }

  // The dictionary of states after a sequence of events.
  function States(rules: Rules, es: seq<Event>): map<Instrument, InstrumentState> {
    if es == [] then map[]
    else
      var states := States(rules, Front(es));
      states[Last(es).instrument := Advance(rules, StateOf(states, Last(es).instrument), Last(es))]
  }

  // One pass over all instruments keeps each instrument's own history.
  lemma {:induction false} StatesSlot(rules: Rules, es: seq<Event>, instrument: Instrument)
    ensures StateOf(States(rules, es), instrument) == SlotAfter(rules, es, instrument)
    ensures instrument in States(rules, es) <==> instrument in Seen(es)
  {
    if es != [] {
      StatesSlot(rules, Front(es), instrument);
      StatesSlot(rules, Front(es), Last(es).instrument);
    }
  }

  lemma PairIsLater(es: seq<Event>, a: Event, o: Event)
    requires UniqueIds(es) && a in es && o in es
    requires a.kind == SignalAvailable && o.kind == ExecutionOpportunity
    ensures EligiblePair(es, a.id, o.id) <==> a.instrument == o.instrument && a.time < o.time
  {
    if EligiblePair(es, a.id, o.id) {
      var x, y :| x in es && y in es && x.id == a.id && y.id == o.id
                  && x.kind == SignalAvailable && y.kind == ExecutionOpportunity
                  && x.instrument == y.instrument && x.time < y.time;
      SameIdSameEvent(es, x, a);
      SameIdSameEvent(es, y, o);
    }
  }

  // The eligibility evidence agrees with the pending action's boundary.
  lemma EligibleIsLater(es: seq<Event>, earlier: seq<Event>, o: Event, s: InstrumentState)
    requires ValidEvents(es) && Sorted(EventKey(), es) && UniqueIds(es)
    requires (forall e :: e in earlier ==> e in es) && o in es && o.kind == ExecutionOpportunity
    requires Grounded(earlier, s) && s.pending.Some? && s.instrument == o.instrument
    ensures (s.pending.value.signal, o.id) in EligiblePairs(TimelineRecords(es))
       <==> o.time > s.pending.value.eligibleAfter
  {
    EligiblePairsExact(es, s.pending.value.signal, o.id);
    var a :| a in earlier && a.kind == SignalAvailable && a.signal.Some?
             && a.instrument == s.instrument && a.time == s.pending.value.created
             && s.pending.value == ActionFor(a, s.pending.value.origin);
    PairIsLater(es, a, o);
  }

  // The timeline is the one computed for its own ordered events.
  ghost predicate Computed(timeline: TimelineResult) {
    && ValidEvents(timeline.ordered) && Sorted(EventKey(), timeline.ordered)
    && timeline.records == TimelineRecords(timeline.ordered)
  }

  // From a computed timeline, exactly the pairs of a signal and a strictly later opportunity of
  // its instrument.
  method EligibleSet(timeline: TimelineResult) returns (pairs: set<(EventId, EventId)>)
    ensures pairs == EligiblePairs(timeline.records)
    ensures Computed(timeline) ==>
              forall s, o :: (s, o) in pairs <==> EligiblePair(timeline.ordered, s, o)
  {
    pairs := set r | r in timeline.records && r.decision == Eligible && r.signal.Some? && r.execution.Some?
      :: (r.signal.value, r.execution.value);
    if Computed(timeline) {
      forall s, o ensures (s, o) in pairs <==> EligiblePair(timeline.ordered, s, o) {
        EligiblePairsExact(timeline.ordered, s, o);
      }
    }
  }

  // Before the event at index i nothing raised, and the loop variables are those of the pass.
  ghost predicate Reached(
    rules: Rules, es: seq<Event>, states: map<Instrument, InstrumentState>, instruments: seq<Instrument>,
    records: seq<Record>, outcomes: seq<Outcome>, attempts: seq<Attempt>)
  {
    && !Raises(rules, es)
    && states == States(rules, es)
    && instruments == Seen(es)
    && records == Records(rules, es)
    && outcomes == Outcomes(records)
    && attempts == Map(AttemptOf(), outcomes)
  }

  method ProcessLifecycle(events: seq<Event>, config: Option<ExecutionConfig>, quotes: seq<Quote>)
    returns (r: Result<LifecycleResult>)
    requires ValidEvents(events)
    ensures r.Ok? <==> LifecycleOf(events, config, quotes).Ok?
    ensures r.Ok? ==> r == LifecycleOf(events, config, quotes)
  {
    if config.None? && quotes != [] {
      return Err("quotes require an explicit execution_config");
    }
    var timeline := ProcessTimeline(events);
    if timeline.Err? {
      return Err(timeline.error);
    }
    SortSorted(EventKey(), events);
    UniqueIdsPermute(events, Sort(EventKey(), events));
    var pairs := EligibleSet(timeline.value);
    var conflicts := ConflictedSignals(timeline.value.ordered);
    r := WalkLifecycle(timeline.value.ordered, Rules(conflicts, config, quotes), pairs);
  }

  lemma ReachedGrows(
    rules: Rules, es: seq<Event>, e: Event, states: map<Instrument, InstrumentState>, instruments: seq<Instrument>,
    records: seq<Record>, outcomes: seq<Outcome>, attempts: seq<Attempt>, turn: Turn)
    requires Reached(rules, es, states, instruments, records, outcomes, attempts)
    requires Next(rules, StateOf(states, e.instrument), e) == Ok(turn)
    ensures Reached(
              rules, es + [e], states[e.instrument := turn.next],
              if e.instrument in states then instruments else instruments + [e.instrument],
              records + [turn.record],
              outcomes + if turn.record.outcome.Some? then [turn.record.outcome.value] else [],
              attempts + if turn.record.outcome.Some? then [turn.record.outcome.value.attempt] else [])
  {
    assert Front(es + [e]) == es && Last(es + [e]) == e;
    assert Front(records + [turn.record]) == records;
    StatesSlot(rules, es, e.instrument);
  }

  // One event: its opportunity counts when the walk's pairs link it to the pending signal.
  method Move(
    rules: Rules, ordered: seq<Event>, i: nat, states: map<Instrument, InstrumentState>, pairs: set<(EventId, EventId)>)
    returns (turn: Result<Turn>)
    requires ValidEvents(ordered) && Sorted(EventKey(), ordered) && UniqueIds(ordered)
    requires pairs == EligiblePairs(TimelineRecords(ordered))
    requires i < |ordered| && !Raises(rules, ordered[..i]) && states == States(rules, ordered[..i])
    ensures turn == Next(rules, StateOf(states, ordered[i].instrument), ordered[i])
  {
    var event := ordered[i];
    var current := StateOf(states, event.instrument);
    var eligible := current.pending.Some? && (current.pending.value.signal, event.id) in pairs;
    assert event.kind == ExecutionOpportunity && current.pending.Some?
           ==> eligible == (event.time > current.pending.value.eligibleAfter) by {
      StatesSlot(rules, ordered[..i], event.instrument);
      SlotGrounded(rules, ordered[..i], event.instrument);
      if event.kind == ExecutionOpportunity && current.pending.Some? {
        EligibleIsLater(ordered, ordered[..i], event, current);
      }
    }
    turn := Apply(rules, current, event, eligible);
  }

  method WalkLifecycle(ordered: seq<Event>, rules: Rules, pairs: set<(EventId, EventId)>)
    returns (r: Result<LifecycleResult>)
    requires ValidEvents(ordered) && Sorted(EventKey(), ordered) && UniqueIds(ordered)
    requires pairs == EligiblePairs(TimelineRecords(ordered))
    ensures r.Ok? <==> !Raises(rules, ordered)
    ensures r.Ok? ==> r.value == Pass(rules, ordered)
  {
    var states: map<Instrument, InstrumentState> := map[];
    var instruments: seq<Instrument> := [];
    var records: seq<Record>, attempts: seq<Attempt>, outcomes: seq<Outcome> := [], [], [];
    ghost var seen := [];
    for i := 0 to |ordered|
      invariant seen == ordered[..i]
      invariant Reached(rules, seen, states, instruments, records, outcomes, attempts)
    {
      var event := ordered[i];
      ghost var earlier := seen;
      seen := seen + [event];
      var current := StateOf(states, event.instrument);
      var turn := Move(rules, ordered, i, states, pairs);
      if turn.Err? {
        assert Raises(rules, ordered) by {
          StatesSlot(rules, earlier, event.instrument);
          assert Front(seen) == earlier && seen == ordered[..i + 1];
          RaisesExtends(rules, ordered, i + 1);
        }
        return Err(turn.error);
      }
      ReachedGrows(rules, earlier, event, states, instruments, records, outcomes, attempts, turn.value);
      instruments := if event.instrument in states then instruments else instruments + [event.instrument];
      states := states[event.instrument := turn.value.next];
      records := records + [turn.value.record];
      if turn.value.record.outcome.Some? {
        outcomes := outcomes + [turn.value.record.outcome.value];
        attempts := attempts + [turn.value.record.outcome.value.attempt];
      }
    }
    assert seen == ordered;
    var sortedInstruments := Sort(InstrumentKey(), instruments);
    var finalStates := Map(k => StateOf(states, k), sortedInstruments);
    assert finalStates == FinalStates(rules, ordered) by {
      forall k {
        StatesSlot(rules, ordered, k);
      }
    }
    r := Ok(LifecycleResult(ordered, records, finalStates, PendingActions(finalStates),
                            OpenPositions(finalStates), attempts, outcomes));
  }
}
