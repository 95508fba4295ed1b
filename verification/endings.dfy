// The end of a walk agrees with what the pass it follows declares.
module Endings {
  import opened Collections
  import opened Order
  import opened Domain
  import opened Events
  import opened Execution
  import opened Lifecycle
  import opened Process
  import opened Economics
  import opened Runner
  import opened Trades
  import opened Soundness
  import opened Documents
  import opened Following

  lemma {:induction false} SeenDistinct(es: seq<Event>)
    ensures Distinct(Seen(es))
  {
    if es != [] {
      SeenDistinct(Front(es));
    }
  }

  // A table is determined by its items, not by their arrangement.
  lemma TableSameItems<K(!new), V(!new)>(key: V -> K, a: seq<V>, b: seq<V>)
    requires DistinctKeys(key, a) && DistinctKeys(key, b) && forall x :: x in a <==> x in b
    ensures Table(key, a) == Table(key, b)
  {
    UniqueOk(key, a, "");
    UniqueOk(key, b, "");
    forall k ensures k in Table(key, a) <==> k in Table(key, b) {
      if k in Table(key, a) {
        assert key(Table(key, a)[k]) in Table(key, b);
      }
      if k in Table(key, b) {
        assert key(Table(key, b)[k]) in Table(key, a);
      }
    }
    assert Table(key, a).Keys == Table(key, b).Keys;
  }

  // The states of distinct instruments after the pass.
  ghost predicate StatesAfter(rules: Rules, es: seq<Event>, states: seq<InstrumentState>) {
    && (forall s :: s in states ==> s.instrument in Seen(es) && s == SlotAfter(rules, es, s.instrument))
    && (forall i :: i in Seen(es) ==> SlotAfter(rules, es, i) in states)
    && DistinctKeys(StateInstrument(), states)
  }

  lemma StatesListed(rules: Rules, es: seq<Event>, instruments: seq<Instrument>, at: Instrument -> InstrumentState)
    requires ValidEvents(es) && Distinct(instruments) && forall i :: i in instruments <==> i in Seen(es)
    requires forall i :: at(i) == SlotAfter(rules, es, i)
    ensures StatesAfter(rules, es, Map(at, instruments))
  {
    var states := Map(at, instruments);
    forall i ensures SlotAfter(rules, es, i).instrument == i {
      SlotGrounded(rules, es, i);
    }
    forall s | s in states ensures s.instrument in Seen(es) && s == SlotAfter(rules, es, s.instrument) {
      var k :| 0 <= k < |states| && states[k] == s;
      assert s == at(instruments[k]);
    }
    forall i | i in Seen(es) ensures SlotAfter(rules, es, i) in states {
      var k :| 0 <= k < |instruments| && instruments[k] == i;
      assert states[k] == SlotAfter(rules, es, i);
    }
  }

  lemma FinalListed(rules: Rules, es: seq<Event>)
    requires ValidEvents(es)
    ensures StatesAfter(rules, es, FinalStates(rules, es))
  {
    SeenDistinct(es);
    SortElements(InstrumentKey(), Seen(es));
    DistinctPermute(Seen(es), Sort(InstrumentKey(), Seen(es)));
    StatesListed(rules, es, Sort(InstrumentKey(), Seen(es)), i => SlotAfter(rules, es, i));
  }

  lemma WalkedListed(rules: Rules, es: seq<Event>, w: Walked)
    requires ValidEvents(es) && FollowsStates(rules, es, w)
    ensures StatesAfter(rules, es, WalkedStates(w, es))
  {
    SeenDistinct(es);
    StatesListed(rules, es, Seen(es), i => StateOf(w.states, i));
  }

  lemma SameStates(rules: Rules, es: seq<Event>, a: seq<InstrumentState>, b: seq<InstrumentState>)
    requires StatesAfter(rules, es, a) && StatesAfter(rules, es, b)
    ensures forall s :: s in a <==> s in b
  {
  }

  lemma {:induction false} PendingIn(states: seq<InstrumentState>, a: Action)
    ensures a in PendingActions(states) <==> exists s :: s in states && s.pending == Some(a)
  {
    if states != [] {
      PendingIn(Front(states), a);
      assert states == Front(states) + [Last(states)];
    }
  }

  lemma {:induction false} PositionIn(states: seq<InstrumentState>, p: Position)
    ensures p in OpenPositions(states) <==> exists s :: s in states && s.position == Some(p)
  {
    if states != [] {
      PositionIn(Front(states), p);
      assert states == Front(states) + [Last(states)];
    }
  }

  // Pending actions and open positions of different instruments come from different signals.
  lemma Apart(rules: Rules, es: seq<Event>, a: InstrumentState, b: InstrumentState)
    requires UniqueIds(es) && Grounded(es, a) && Grounded(es, b) && a.instrument != b.instrument
    ensures a.pending.Some? && b.pending.Some? ==> a.pending.value.id != b.pending.value.id
    ensures a.position.Some? && b.position.Some? ==> a.position.value.opening != b.position.value.opening
  {
    forall x, y | x in es && y in es && x.instrument != y.instrument ensures x.id != y.id {
      SameIdSameEvent(es, x, y);
    }
  }

  lemma StatesApart(rules: Rules, es: seq<Event>, states: seq<InstrumentState>, i: nat, j: nat)
    requires ValidEvents(es) && UniqueIds(es) && StatesAfter(rules, es, states) && i < j < |states|
    ensures var a, b := states[i], states[j];
            && (a.pending.Some? && b.pending.Some? ==> a.pending.value.id != b.pending.value.id)
            && (a.position.Some? && b.position.Some? ==> a.position.value.opening != b.position.value.opening)
  {
    var a, b := states[i], states[j];
    assert a in states && b in states && StateInstrument()(a) != StateInstrument()(b);
    SlotGrounded(rules, es, a.instrument);
    SlotGrounded(rules, es, b.instrument);
    Apart(rules, es, a, b);
  }

  ghost predicate PendingApart(states: seq<InstrumentState>) {
    forall i, j :: 0 <= i < j < |states| && states[i].pending.Some? && states[j].pending.Some?
      ==> states[i].pending.value.id != states[j].pending.value.id
  }

  ghost predicate PositionsApart(states: seq<InstrumentState>) {
    forall i, j :: 0 <= i < j < |states| && states[i].position.Some? && states[j].position.Some?
      ==> states[i].position.value.opening != states[j].position.value.opening
  }

  lemma {:induction false} PendingDistinct(states: seq<InstrumentState>)
    requires PendingApart(states)
    ensures DistinctKeys(ActionIdOf(), PendingActions(states))
  {
    if states != [] {
      var front := Front(states);
      PendingDistinct(front);
      forall a | a in PendingActions(front) && Last(states).pending.Some?
        ensures a.id != Last(states).pending.value.id
      {
        PendingIn(front, a);
        var s :| s in front && s.pending == Some(a);
        var i :| 0 <= i < |front| && front[i] == s;
        assert states[i] == s;
      }
      forall i | 0 <= i < |PendingActions(front)| && Last(states).pending.Some?
        ensures PendingActions(front)[i].id != Last(states).pending.value.id
      {
        assert PendingActions(front)[i] in PendingActions(front);
      }
    }
  }

  lemma {:induction false} PositionsDistinct(states: seq<InstrumentState>)
    requires PositionsApart(states)
    ensures DistinctKeys(PositionOpening(), OpenPositions(states))
  {
    if states != [] {
      var front := Front(states);
      PositionsDistinct(front);
      forall p | p in OpenPositions(front) && Last(states).position.Some?
        ensures p.opening != Last(states).position.value.opening
      {
        PositionIn(front, p);
        var s :| s in front && s.position == Some(p);
        var i :| 0 <= i < |front| && front[i] == s;
        assert states[i] == s;
      }
      forall i | 0 <= i < |OpenPositions(front)| && Last(states).position.Some?
        ensures OpenPositions(front)[i].opening != Last(states).position.value.opening
      {
        assert OpenPositions(front)[i] in OpenPositions(front);
      }
    }
  }

  lemma ListedApart(rules: Rules, es: seq<Event>, states: seq<InstrumentState>)
    requires ValidEvents(es) && UniqueIds(es) && StatesAfter(rules, es, states)
    ensures PendingApart(states) && PositionsApart(states)
  {
    forall i, j | 0 <= i < j < |states|
      ensures states[i].pending.Some? && states[j].pending.Some? ==>
                states[i].pending.value.id != states[j].pending.value.id
      ensures states[i].position.Some? && states[j].position.Some? ==>
                states[i].position.value.opening != states[j].position.value.opening
    {
      StatesApart(rules, es, states, i, j);
    }
  }

  lemma PendingAgree(rules: Rules, es: seq<Event>, a: seq<InstrumentState>, b: seq<InstrumentState>)
    requires ValidEvents(es) && UniqueIds(es) && StatesAfter(rules, es, a) && StatesAfter(rules, es, b)
    ensures DistinctKeys(ActionIdOf(), PendingActions(a)) && DistinctKeys(ActionIdOf(), PendingActions(b))
    ensures Table(ActionIdOf(), PendingActions(a)) == Table(ActionIdOf(), PendingActions(b))
  {
    ListedApart(rules, es, a);
    ListedApart(rules, es, b);
    PendingDistinct(a);
    PendingDistinct(b);
    SameStates(rules, es, a, b);
    forall x ensures x in PendingActions(a) <==> x in PendingActions(b) {
      PendingIn(a, x);
      PendingIn(b, x);
    }
    TableSameItems(ActionIdOf(), PendingActions(a), PendingActions(b));
  }

  lemma PositionsAgree(rules: Rules, es: seq<Event>, a: seq<InstrumentState>, b: seq<InstrumentState>)
    requires ValidEvents(es) && UniqueIds(es) && StatesAfter(rules, es, a) && StatesAfter(rules, es, b)
    ensures DistinctKeys(PositionOpening(), OpenPositions(a)) && DistinctKeys(PositionOpening(), OpenPositions(b))
    ensures Table(PositionOpening(), OpenPositions(a)) == Table(PositionOpening(), OpenPositions(b))
  {
    ListedApart(rules, es, a);
    ListedApart(rules, es, b);
    PositionsDistinct(a);
    PositionsDistinct(b);
    SameStates(rules, es, a, b);
    forall x ensures x in OpenPositions(a) <==> x in OpenPositions(b) {
      PositionIn(a, x);
      PositionIn(b, x);
    }
    TableSameItems(PositionOpening(), OpenPositions(a), OpenPositions(b));
  }

  lemma SameTable(rules: Rules, es: seq<Event>, states: map<Instrument, InstrumentState>, table: map<Instrument, InstrumentState>)
    requires forall i :: i in states <==> i in Seen(es)
    requires forall i :: i in states ==> states[i] == SlotAfter(rules, es, i)
    requires forall i :: i in table <==> i in Seen(es)
    requires forall i :: i in table ==> table[i] == SlotAfter(rules, es, i)
    ensures table == states
  {
    assert table.Keys == states.Keys;
  }

  lemma FinalAccepted(rules: Rules, es: seq<Event>, w: Walked)
    requires ValidEvents(es) && FollowsStates(rules, es, w)
    ensures Unique(StateInstrument(), FinalStates(rules, es), "duplicate final states") == Ok(w.states)
  {
    FinalListed(rules, es);
    UniqueOk(StateInstrument(), FinalStates(rules, es), "duplicate final states");
    ListedTable(rules, es, FinalStates(rules, es));
    forall i | i in w.states ensures w.states[i] == SlotAfter(rules, es, i) {
      assert StateOf(w.states, i) == SlotAfter(rules, es, i);
    }
    SameTable(rules, es, w.states, Table(StateInstrument(), FinalStates(rules, es)));
  }

  lemma ListedTable(rules: Rules, es: seq<Event>, states: seq<InstrumentState>)
    requires StatesAfter(rules, es, states) && ValidEvents(es)
    ensures var table := Table(StateInstrument(), states);
            && (forall i :: i in table <==> i in Seen(es))
            && (forall i :: i in table ==> table[i] == SlotAfter(rules, es, i))
  {
    UniqueOk(StateInstrument(), states, "");
    var table := Table(StateInstrument(), states);
    forall i | i in Seen(es) ensures i in table {
      SlotGrounded(rules, es, i);
      assert StateInstrument()(SlotAfter(rules, es, i)) in table;
    }
    forall i | i in table ensures i in Seen(es) && table[i] == SlotAfter(rules, es, i) {
      assert table[i] in states;
    }
  }

  lemma OpeningsArePositions(t: Tables, rules: Rules, es: seq<Event>, w: Walked, states: seq<InstrumentState>)
    requires ValidEvents(es) && Follows(t, rules, es, w) && StatesAfter(rules, es, states)
    requires DistinctKeys(PositionOpening(), OpenPositions(states))
    ensures OpeningIds(w.openings) == Table(PositionOpening(), OpenPositions(states)).Keys
  {
    var table := Table(PositionOpening(), OpenPositions(states));
    UniqueOk(PositionOpening(), OpenPositions(states), "");
    forall o | o in w.openings ensures o.action in table {
      PositionOfOpening(t, rules, es, w, states, o);
      assert PositionOpening()(SlotAfter(rules, es, o.economic.outcome.attempt.instrument).position.value) in table;
    }
    forall k | k in table ensures k in OpeningIds(w.openings) {
      var o := OpeningOfPosition(t, rules, es, w, states, table[k]);
      assert o.action == k;
    }
  }

  lemma PositionOfOpening(
    t: Tables, rules: Rules, es: seq<Event>, w: Walked, states: seq<InstrumentState>, o: Opening)
    requires ValidEvents(es) && Follows(t, rules, es, w) && StatesAfter(rules, es, states) && o in w.openings
    ensures var s := SlotAfter(rules, es, o.economic.outcome.attempt.instrument);
            s.position.Some? && s.position.value in OpenPositions(states) && s.position.value.opening == o.action
  {
    var i := o.economic.outcome.attempt.instrument;
    var s := SlotAfter(rules, es, i);
    assert OpeningTracks(t, es, s, o);
    if i !in Seen(es) {
      UnseenFlat(rules, es, i);
    }
    PositionIn(states, s.position.value);
  }

  lemma OpeningOfPosition(
    t: Tables, rules: Rules, es: seq<Event>, w: Walked, states: seq<InstrumentState>, p: Position)
    returns (o: Opening)
    requires ValidEvents(es) && Follows(t, rules, es, w) && StatesAfter(rules, es, states) && p in OpenPositions(states)
    ensures o in w.openings && o.action == p.opening
  {
    PositionIn(states, p);
    var s :| s in states && s.position == Some(p);
    assert SlotAfter(rules, es, s.instrument) == s;
    o :| o in w.openings && o.economic.outcome.attempt.instrument == s.instrument;
    assert OpeningTracks(t, es, s, o);
  }

  lemma PendingAccepted(result: SimulationResult, rules: Rules, es: seq<Event>, walked: seq<InstrumentState>)
    requires ValidEvents(es) && UniqueIds(es) && StatesAfter(rules, es, walked)
    requires result.lifecycle == Pass(rules, es)
    ensures CheckPending(result, walked).Ok?
  {
    var final := FinalStates(rules, es);
    FinalListed(rules, es);
    PendingAgree(rules, es, walked, final);
    UniqueOk(ActionIdOf(), PendingActions(walked), "duplicate pending actions");
    UniqueOk(ActionIdOf(), PendingActions(final), "duplicate unresolved actions");
  }

  lemma PositionsAccepted(result: SimulationResult, rules: Rules, es: seq<Event>, walked: seq<InstrumentState>)
    requires ValidEvents(es) && UniqueIds(es) && StatesAfter(rules, es, walked)
    requires result.lifecycle == Pass(rules, es)
    ensures CheckPositions(result, walked) == Ok(Table(PositionOpening(), OpenPositions(walked)))
    ensures DistinctKeys(PositionOpening(), OpenPositions(walked))
  {
    var final := FinalStates(rules, es);
    FinalListed(rules, es);
    PositionsAgree(rules, es, walked, final);
    UniqueOk(PositionOpening(), OpenPositions(walked), "duplicate positions");
    UniqueOk(PositionOpening(), OpenPositions(final), "duplicate open positions");
  }

  lemma FinalChecked(result: SimulationResult, rules: Rules, es: seq<Event>, w: Walked)
    requires ValidEvents(es) && FollowsStates(rules, es, w) && result.lifecycle == Pass(rules, es)
    ensures CheckFinal(result, w).Ok?
  {
    FinalAccepted(rules, es, w);
  }

  lemma ConcludesWhen(result: SimulationResult, t: Tables, w: Walked, es: seq<Event>)
    requires w.used == t.attempts.Keys && CheckFinal(result, w).Ok?
    requires CheckPending(result, WalkedStates(w, es)).Ok? && CheckPositions(result, WalkedStates(w, es)).Ok?
    requires OpeningIds(w.openings) == CheckPositions(result, WalkedStates(w, es)).value.Keys
    ensures Conclude(result, t, w, es) == Ok(Summary(result, w, es))
  {
  }

  // The end of the walk agrees with what a pass declares.
  lemma Concludes(result: SimulationResult, t: Tables, rules: Rules, es: seq<Event>, w: Walked)
    requires ValidEvents(es) && UniqueIds(es) && Follows(t, rules, es, w)
    requires result.lifecycle == Pass(rules, es)
    requires t.attempts.Keys == OutcomeIds(Outcomes(Records(rules, es)))
    ensures Conclude(result, t, w, es) == Ok(Summary(result, w, es))
  {
    var walked := WalkedStates(w, es);
    FinalChecked(result, rules, es, w);
    WalkedListed(rules, es, w);
    PendingAccepted(result, rules, es, walked);
    PositionsAccepted(result, rules, es, walked);
    OpeningsArePositions(t, rules, es, w, walked);
    ConcludesWhen(result, t, w, es);
  }
}
