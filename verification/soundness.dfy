// What the reconciler guarantees about any evidence it accepts.
module Soundness {
  import opened Collections
  import opened Order
  import opened Domain
  import opened Events
  import opened Execution
  import opened Lifecycle
  import opened Process
  import opened Economics
  import opened Runner
  import opened Trades

  // ----- evidence tables -----

  lemma {:induction false} TableElements<K(!new), V(!new)>(key: V -> K, items: seq<V>)
    ensures forall k :: k in Table(key, items) ==> Table(key, items)[k] in items && key(Table(key, items)[k]) == k
    ensures forall x :: x in items ==> key(x) in Table(key, items)
    ensures |Table(key, items)| <= |items|
  {
    if items != [] {
      TableElements(key, Front(items));
      assert items == Front(items) + [Last(items)];
      TableSize(key, items);
    }
  }

  lemma TableSize<K(!new), V(!new)>(key: V -> K, items: seq<V>)
    requires items != []
    ensures |Table(key, items)| == |Table(key, Front(items))|
            + if key(Last(items)) in Table(key, Front(items)) then 0 else 1
  {
    var t, k := Table(key, Front(items)), key(Last(items));
    assert t[k := Last(items)].Keys == t.Keys + {k};
    assert |t[k := Last(items)]| == |t[k := Last(items)].Keys| && |t| == |t.Keys|;
  }

  ghost predicate DistinctKeys<K, V>(key: V -> K, items: seq<V>) {
    forall i, j :: 0 <= i < j < |items| ==> key(items[i]) != key(items[j])
  }

  // A table is as long as its items exactly when no key repeats.
  lemma {:induction false} TableDistinct<K(!new), V(!new)>(key: V -> K, items: seq<V>)
    ensures |Table(key, items)| == |items| <==> DistinctKeys(key, items)
    ensures DistinctKeys(key, items) ==>
              forall x :: x in items ==> key(x) in Table(key, items) && Table(key, items)[key(x)] == x
  {
    TableElements(key, items);
    if items != [] {
      var front := Front(items);
      assert items == front + [Last(items)];
      TableElements(key, front);
      TableDistinct(key, front);
      TableSize(key, items);
      if key(Last(items)) in Table(key, front) {
        var x := Table(key, front)[key(Last(items))];
        var i :| 0 <= i < |front| && front[i] == x;
        assert items[i] == x;
      } else {
        forall i | 0 <= i < |front| ensures key(front[i]) != key(Last(items)) {
          assert front[i] in front;
        }
        assert DistinctKeys(key, front) ==> DistinctKeys(key, items);
        if DistinctKeys(key, items) {
          assert DistinctKeys(key, front) by {
            forall i, j | 0 <= i < j < |front| ensures key(front[i]) != key(front[j]) {
              assert key(items[i]) != key(items[j]);
            }
          }
        }
      }
    }
  }

  // The economics table holds exactly the filled outcomes.
  ghost predicate TablesSound(t: Tables) {
    && (forall id :: id in t.outcomes ==>
          t.outcomes[id].attempt.id == id && (t.outcomes[id].status == Filled <==> id in t.economics))
    && (forall id :: id in t.economics ==>
          id in t.outcomes && t.outcomes[id] == t.economics[id].outcome)
    && t.attempts.Keys == t.outcomes.Keys
  }

  lemma CoverParts(result: SimulationResult, t: Tables)
    requires Cover(result) == Ok(t)
    ensures CoverEvents(result) == Ok((t.events, t.records))
    ensures CoverOutcomes(result) == Ok((t.attempts, t.outcomes))
    ensures CoverEconomics(result, t.configs, t.outcomes) == Ok(t.economics)
  {
  }

  lemma CoverSound(result: SimulationResult, t: Tables)
    requires Cover(result) == Ok(t)
    ensures TablesSound(t)
  {
    CoverParts(result, t);
    OutcomesKeyed(result, t.attempts, t.outcomes);
    FilledCovered(result, t.configs, t.outcomes, t.economics);
    SameFilled(t.outcomes, t.economics);
  }

  lemma FilledCovered(
    result: SimulationResult, configs: map<Instrument, EconomicsConfig>, outcomes: map<AttemptId, Outcome>,
    economics: map<AttemptId, EconomicExecution>)
    requires CoverEconomics(result, configs, outcomes) == Ok(economics)
    ensures FilledOnly(outcomes) == OutcomesOf(economics)
  {
  }

  lemma OutcomesKeyed(result: SimulationResult, attempts: map<AttemptId, Attempt>, outcomes: map<AttemptId, Outcome>)
    requires CoverOutcomes(result) == Ok((attempts, outcomes))
    ensures outcomes == Table(OutcomeAttempt(), result.outcomes) && |outcomes| == |result.outcomes|
    ensures forall id :: id in outcomes ==> outcomes[id].attempt.id == id
    ensures attempts.Keys == outcomes.Keys
  {
    TableElements(OutcomeAttempt(), result.outcomes);
    assert attempts.Keys == AttemptsOf(outcomes).Keys;
  }

  lemma SameFilled(outcomes: map<AttemptId, Outcome>, economics: map<AttemptId, EconomicExecution>)
    requires FilledOnly(outcomes) == OutcomesOf(economics)
    ensures forall id :: id in outcomes ==> (outcomes[id].status == Filled <==> id in economics)
    ensures forall id :: id in economics ==> id in outcomes && outcomes[id] == economics[id].outcome
  {
    var f, m := FilledOnly(outcomes), OutcomesOf(economics);
    forall id | id in outcomes ensures outcomes[id].status == Filled <==> id in economics {
      assert id in f <==> id in m;
    }
    forall id | id in economics ensures id in outcomes && outcomes[id] == economics[id].outcome {
      assert id in m && id in f && f[id] == m[id];
    }
  }

  // ----- the kinds of step -----

  ghost predicate NoFill(t: Tables, w: Walked, next: Walked) {
    && next.trades == w.trades && next.openings == w.openings
    && (next.used == w.used
        || exists id :: id in t.outcomes && t.outcomes[id].status != Filled && next.used == w.used + {id})
  }

  ghost predicate FillOf(t: Tables, w: Walked, next: Walked, e: Event, economic: EconomicExecution) {
    var attempt := economic.outcome.attempt;
    && attempt.id in t.economics && t.economics[attempt.id] == economic
    && attempt.id !in w.used && next.used == w.used + {attempt.id}
    && attempt.instrument == e.instrument && attempt.time == e.time
    && e.id in t.records && t.records[e.id].outcome == Some(economic.outcome)
  }

  ghost predicate Opened(t: Tables, w: Walked, next: Walked, e: Event, o: Opening) {
    && FillOf(t, w, next, e, o.economic)
    && next.openings == w.openings + [o] && next.trades == w.trades
    && ValidFill(o.record, o.economic) && o.economic.outcome.attempt.kind == Entry
    && o.action == o.economic.outcome.attempt.action
    && IndexOf(w.openings, o.action) == |w.openings|
    && StateOf(w.states, e.instrument).position.None?
    && StateOf(w.states, e.instrument).pending.Some?
    && StateOf(w.states, e.instrument).pending.value.eligibleAfter < e.time
    && StateOf(next.states, e.instrument) == InstrumentState(e.instrument, Holding, None, o.record.position)
    && o.record.position.Some? && o.record.position.value.opening == o.action
  }

  ghost predicate Closed(t: Tables, w: Walked, next: Walked, e: Event, k: nat, trade: TradeRecord) {
    && FillOf(t, w, next, e, trade.exit)
    && StateOf(w.states, e.instrument).position.Some?
    && k == IndexOf(w.openings, StateOf(w.states, e.instrument).position.value.opening) < |w.openings|
    && next.openings == w.openings[..k] + w.openings[k + 1..]
    && next.trades == w.trades + [trade]
    && trade.Valid() && trade.entry == w.openings[k].economic && trade.opening == w.openings[k].record
    && StateOf(next.states, e.instrument) == FlatState(e.instrument)
  }

  // An accepted event takes up the outcome its record carries, or leaves fills alone.
  lemma Stepped(result: SimulationResult, t: Tables, w: Walked, e: Event, next: Walked)
    requires CheckEvent(result, t, w, e) == Ok(next)
    ensures e.id in t.records
    ensures var r := t.records[e.id];
            if r.decision == ActionCreated || r.outcome.None? then
              r.outcome.None? && next.trades == w.trades && next.openings == w.openings && next.used == w.used
            else
              && r.action.Some?
              && CheckOutcome(result, t, w, StateOf(w.states, e.instrument), e, r, r.outcome.value) == Ok(next)
  {
    Moved(result, t, w, StateOf(w.states, e.instrument), e, t.records[e.id], next);
  }

  lemma Moved(
    result: SimulationResult, t: Tables, w: Walked, current: InstrumentState, e: Event, r: Record, next: Walked)
    requires CheckMove(result, t, w, current, e, r) == Ok(next)
    ensures if r.decision == ActionCreated || r.outcome.None? then
              r.outcome.None? && next.trades == w.trades && next.openings == w.openings && next.used == w.used
            else r.action.Some? && CheckOutcome(result, t, w, current, e, r, r.outcome.value) == Ok(next)
  {
  }

  // Every accepted event records no fill, opens one entry or closes one trade.
  lemma StepCases(result: SimulationResult, t: Tables, w: Walked, e: Event, next: Walked)
    requires TablesSound(t) && CheckEvent(result, t, w, e) == Ok(next)
    ensures NoFill(t, w, next)
         || (exists o :: Opened(t, w, next, e, o))
         || (exists k, trade :: Closed(t, w, next, e, k, trade))
  {
    Stepped(result, t, w, e, next);
    var r := t.records[e.id];
    if r.decision != ActionCreated && r.outcome.Some? {
      if r.outcome.value.status != Filled {
        UnfilledStep(result, t, w, e, r.outcome.value, next);
      } else if r.action.value.kind == Entry {
        var _ := EntryStep(result, t, w, e, r.outcome.value, next);
      } else {
        var _, _ := ExitStep(result, t, w, e, r.outcome.value, next);
      }
    }
  }

  ghost predicate OutcomeStep(result: SimulationResult, t: Tables, w: Walked, e: Event, o: Outcome, next: Walked) {
    && TablesSound(t) && e.id in t.records && t.records[e.id].outcome == Some(o)
    && CheckOutcome(result, t, w, StateOf(w.states, e.instrument), e, t.records[e.id], o) == Ok(next)
  }

  lemma UnfilledStep(result: SimulationResult, t: Tables, w: Walked, e: Event, o: Outcome, next: Walked)
    requires OutcomeStep(result, t, w, e, o, next) && o.status != Filled
    ensures NoFill(t, w, next)
  {
    assert o.attempt.id in t.outcomes && t.outcomes[o.attempt.id].status != Filled;
  }

  lemma EntryStep(result: SimulationResult, t: Tables, w: Walked, e: Event, o: Outcome, next: Walked)
    returns (opening: Opening)
    requires OutcomeStep(result, t, w, e, o, next) && o.status == Filled
    requires t.records[e.id].action.Some? && t.records[e.id].action.value.kind == Entry
    ensures Opened(t, w, next, e, opening)
  {
    opening := Opening(t.records[e.id].action.value.id, t.records[e.id], t.economics[o.attempt.id]);
  }

  lemma ExitStep(result: SimulationResult, t: Tables, w: Walked, e: Event, o: Outcome, next: Walked)
    returns (k: nat, trade: TradeRecord)
    requires OutcomeStep(result, t, w, e, o, next) && o.status == Filled
    requires t.records[e.id].action.Some? && t.records[e.id].action.value.kind == Exit
    ensures Closed(t, w, next, e, k, trade)
  {
    k := IndexOf(w.openings, StateOf(w.states, e.instrument).position.value.opening);
    trade := TradeRecord(w.openings[k].economic, t.economics[o.attempt.id], w.openings[k].record, t.records[e.id]);
  }

  // ----- every fill is used exactly once -----

  function EntryIds(trades: seq<TradeRecord>): set<AttemptId> {
    set t | t in trades :: t.entry.outcome.attempt.id
  }

  function ExitIds(trades: seq<TradeRecord>): set<AttemptId> {
    set t | t in trades :: t.exit.outcome.attempt.id
  }

  function OpenIds(openings: seq<Opening>): set<AttemptId> {
    set o | o in openings :: o.economic.outcome.attempt.id
  }

  // The fills consumed so far.
  function FillIds(t: Tables, w: Walked): set<AttemptId> {
    w.used * t.economics.Keys
  }

  ghost predicate Accounted(t: Tables, w: Walked) {
    && |FillIds(t, w)| == 2 * |w.trades| + |w.openings|
    && FillIds(t, w) == EntryIds(w.trades) + ExitIds(w.trades) + OpenIds(w.openings)
  }

  // Trades and openings hold table entries.
  ghost predicate Tabled(t: Tables, w: Walked) {
    && (forall x :: x in w.trades ==> InTable(t, x.entry) && InTable(t, x.exit))
    && (forall o :: o in w.openings ==> InTable(t, o.economic))
  }

  predicate InTable(t: Tables, e: EconomicExecution) {
    e.outcome.attempt.id in t.economics && t.economics[e.outcome.attempt.id] == e
  }

  lemma OpenIdsAppend(openings: seq<Opening>, o: Opening)
    ensures OpenIds(openings + [o]) == OpenIds(openings) + {o.economic.outcome.attempt.id}
  {
    assert forall x :: x in openings + [o] <==> x in openings || x == o;
  }

  lemma OpenIdsRemove(openings: seq<Opening>, k: nat)
    requires k < |openings|
    ensures OpenIds(openings) == OpenIds(openings[..k] + openings[k + 1..]) + {openings[k].economic.outcome.attempt.id}
  {
    var rest := openings[..k] + openings[k + 1..];
    assert openings == openings[..k] + [openings[k]] + openings[k + 1..];
    assert forall x :: x in openings <==> x in rest || x == openings[k];
  }

  lemma TradeIdsAppend(trades: seq<TradeRecord>, t: TradeRecord)
    ensures EntryIds(trades + [t]) == EntryIds(trades) + {t.entry.outcome.attempt.id}
    ensures ExitIds(trades + [t]) == ExitIds(trades) + {t.exit.outcome.attempt.id}
  {
    assert forall x :: x in trades + [t] <==> x in trades || x == t;
  }

  lemma FillIdsAdd(t: Tables, w: Walked, next: Walked, id: AttemptId)
    requires id in t.economics && id !in w.used && next.used == w.used + {id}
    ensures FillIds(t, next) == FillIds(t, w) + {id} && |FillIds(t, next)| == |FillIds(t, w)| + 1
  {
    assert FillIds(t, next) == FillIds(t, w) + {id};
  }

  lemma AccountOpened(t: Tables, w: Walked, next: Walked, o: Opening)
    requires Accounted(t, w)
    requires InTable(t, o.economic) && o.economic.outcome.attempt.id !in w.used
    requires next.used == w.used + {o.economic.outcome.attempt.id}
    requires next.openings == w.openings + [o] && next.trades == w.trades
    ensures Accounted(t, next)
  {
    FillIdsAdd(t, w, next, o.economic.outcome.attempt.id);
    OpenIdsAppend(w.openings, o);
  }

  lemma AccountClosed(t: Tables, w: Walked, next: Walked, k: nat, trade: TradeRecord)
    requires Accounted(t, w)
    requires InTable(t, trade.exit) && trade.exit.outcome.attempt.id !in w.used
    requires next.used == w.used + {trade.exit.outcome.attempt.id}
    requires k < |w.openings| && trade.entry == w.openings[k].economic
    requires next.openings == w.openings[..k] + w.openings[k + 1..] && next.trades == w.trades + [trade]
    ensures Accounted(t, next)
  {
    FillIdsAdd(t, w, next, trade.exit.outcome.attempt.id);
    OpenIdsRemove(w.openings, k);
    TradeIdsAppend(w.trades, trade);
    Regroup(EntryIds(w.trades), ExitIds(w.trades), OpenIds(next.openings),
            trade.entry.outcome.attempt.id, trade.exit.outcome.attempt.id);
  }

  lemma Regroup<T>(a: set<T>, b: set<T>, c: set<T>, x: T, y: T)
    ensures (a + b + (c + {x})) + {y} == (a + {x}) + (b + {y}) + c
  {
  }

  lemma AccountNoFill(t: Tables, w: Walked, next: Walked)
    requires Accounted(t, w) && next.trades == w.trades && next.openings == w.openings
    requires next.used == w.used || exists id :: id !in t.economics && next.used == w.used + {id}
    ensures Accounted(t, next)
  {
    assert FillIds(t, next) == FillIds(t, w);
  }

  lemma StepAccounts(t: Tables, w: Walked, e: Event, next: Walked)
    requires TablesSound(t) && Accounted(t, w)
    requires NoFill(t, w, next)
          || (exists o :: Opened(t, w, next, e, o))
          || (exists k, trade :: Closed(t, w, next, e, k, trade))
    ensures Accounted(t, next)
  {
    if NoFill(t, w, next) {
      if next.used != w.used {
        var id :| id in t.outcomes && t.outcomes[id].status != Filled && next.used == w.used + {id};
        assert id !in t.economics;
      }
      AccountNoFill(t, w, next);
    } else if o :| Opened(t, w, next, e, o) {
      AccountOpened(t, w, next, o);
    } else {
      var k, trade :| Closed(t, w, next, e, k, trade);
      AccountClosed(t, w, next, k, trade);
    }
  }

  lemma StepTabled(t: Tables, w: Walked, e: Event, next: Walked)
    requires Tabled(t, w)
    requires NoFill(t, w, next)
          || (exists o :: Opened(t, w, next, e, o))
          || (exists k, trade :: Closed(t, w, next, e, k, trade))
    ensures Tabled(t, next)
  {
    if k: nat, trade :| Closed(t, w, next, e, k, trade) {
      assert w.openings[k] in w.openings;
      assert forall o :: o in next.openings ==> o in w.openings;
    }
  }

  lemma {:induction false} WalkAccounts(result: SimulationResult, t: Tables, es: seq<Event>)
    requires TablesSound(t) && Walk(result, t, es).Ok?
    ensures Accounted(t, Walk(result, t, es).value) && Tabled(t, Walk(result, t, es).value)
  {
    if es != [] {
      var w, next := Walk(result, t, Front(es)).value, Walk(result, t, es).value;
      WalkAccounts(result, t, Front(es));
      StepCases(result, t, w, Last(es), next);
      StepAccounts(t, w, Last(es), next);
      StepTabled(t, w, Last(es), next);
    }
  }

  // ----- trades of one instrument never overlap -----

  // Only the event's own instrument changes state.
  ghost predicate Framed(w: Walked, next: Walked, e: Event) {
    forall i :: i != e.instrument ==> StateOf(next.states, i) == StateOf(w.states, i)
  }

  // Without a fill, the position stays and a new pending action is dated by its event.
  ghost predicate Kept(w: Walked, next: Walked, e: Event) {
    var s, n := StateOf(w.states, e.instrument), StateOf(next.states, e.instrument);
    && n.position == s.position
    && (n.pending == s.pending || (n.pending.Some? && n.pending.value.created == e.time))
  }

  // The walk moves to a valid state of the event's instrument.
  ghost predicate MovesTo(w: Walked, next: Walked, e: Event, s: InstrumentState) {
    && s.Valid() && s.instrument == e.instrument
    && StateOf(next.states, e.instrument) == s
    && Framed(w, next, e)
  }

  lemma CreationStates(t: Tables, w: Walked, current: InstrumentState, e: Event, r: Record, next: Walked)
    requires CheckCreation(t, w, current, e, r) == Ok(next) && current == StateOf(w.states, e.instrument)
    ensures MovesTo(w, next, e, StateOf(next.states, e.instrument)) && Kept(w, next, e)
    ensures next.trades == w.trades && next.openings == w.openings && next.used == w.used
  {
  }

  lemma OutcomeStates(
    result: SimulationResult, t: Tables, w: Walked, current: InstrumentState, e: Event, r: Record, o: Outcome,
    next: Walked)
    requires CheckOutcome(result, t, w, current, e, r, o) == Ok(next) && current == StateOf(w.states, e.instrument)
    requires current.Valid() && current.instrument == e.instrument
    ensures MovesTo(w, next, e, StateOf(next.states, e.instrument))
    ensures next.trades == w.trades && next.openings == w.openings ==> Kept(w, next, e)
  {
    if o.status == Filled {
      var used := w.(used := w.used + {o.attempt.id}, states := w.states[e.instrument := current]);
      assert used.trades == w.trades && used.openings == w.openings;
      if r.action.value.kind == Entry {
        assert |next.openings| == |w.openings| + 1;
      } else {
        assert |next.trades| == |w.trades| + 1;
      }
    }
  }

  lemma StepStates(result: SimulationResult, t: Tables, w: Walked, e: Event, next: Walked)
    requires CheckEvent(result, t, w, e) == Ok(next)
    requires StateOf(w.states, e.instrument).Valid() && StateOf(w.states, e.instrument).instrument == e.instrument
    ensures MovesTo(w, next, e, StateOf(next.states, e.instrument))
    ensures next.trades == w.trades && next.openings == w.openings ==> Kept(w, next, e)
  {
    var r := t.records[e.id];
    var current := StateOf(w.states, e.instrument);
    if r.decision == ActionCreated {
      CreationStates(t, w, current, e, r, next);
    } else if r.outcome.Some? {
      OutcomeStates(result, t, w, current, e, r, r.outcome.value, next);
    }
  }

  ghost predicate ValidStates(w: Walked) {
    forall i :: StateOf(w.states, i).Valid() && StateOf(w.states, i).instrument == i
  }

  // Each opening is the open position of its instrument.
  ghost predicate Linked(w: Walked) {
    && ValidStates(w)
    && (forall o :: o in w.openings ==> Holds(w, o))
    && (forall a, b :: 0 <= a < b < |w.openings| ==> w.openings[a].action != w.openings[b].action)
  }

  ghost predicate Holds(w: Walked, o: Opening) {
    var s := StateOf(w.states, o.economic.outcome.attempt.instrument);
    s.position.Some? && s.position.value.opening == o.action
  }

  lemma LinkedOpened(t: Tables, w: Walked, next: Walked, e: Event, o: Opening)
    requires Linked(w) && Framed(w, next, e) && Opened(t, w, next, e, o) && ValidStates(next)
    ensures Linked(next)
  {
    forall x | x in next.openings ensures Holds(next, x) {
      if x in w.openings {
        assert Holds(w, x);
      }
    }
    forall a | 0 <= a < |w.openings| ensures w.openings[a].action != o.action {
      assert w.openings[a] in w.openings;
    }
  }

  lemma LinkedClosed(t: Tables, w: Walked, next: Walked, e: Event, k: nat, trade: TradeRecord)
    requires Linked(w) && Framed(w, next, e) && Closed(t, w, next, e, k, trade) && ValidStates(next)
    ensures Linked(next)
  {
    forall x | x in next.openings ensures Holds(next, x) {
      var a :| 0 <= a < |w.openings| && a != k && w.openings[a] == x;
      assert Holds(w, x) && w.openings[a].action != w.openings[k].action;
    }
  }

  lemma LinkedKept(w: Walked, next: Walked, e: Event)
    requires Linked(w) && Framed(w, next, e) && Kept(w, next, e) && ValidStates(next)
    requires next.openings == w.openings
    ensures Linked(next)
  {
    forall x | x in next.openings ensures Holds(next, x) {
      assert Holds(w, x);
    }
  }

  // Completed trades lie wholly before whatever their instrument does next.
  ghost predicate Timed(w: Walked, now: int) {
    && (forall x :: x in w.trades ==> x.Valid() && x.ExitTime() <= now)
    && (forall x, o :: x in w.trades && o in w.openings && x.Instrument() == o.economic.outcome.attempt.instrument
          ==> x.ExitTime() < o.economic.outcome.attempt.time)
    && (forall x :: x in w.trades ==> PendingAfter(w, x))
    && Disjoint(w.trades)
  }

  ghost predicate PendingAfter(w: Walked, x: TradeRecord) {
    var s := StateOf(w.states, x.Instrument());
    s.pending.Some? ==> x.ExitTime() <= s.pending.value.created
  }

  ghost predicate Disjoint(trades: seq<TradeRecord>) {
    forall i, j :: 0 <= i < j < |trades| && trades[i].Instrument() == trades[j].Instrument()
      ==> trades[i].ExitTime() < trades[j].EntryTime()
  }

  lemma TimedOpened(t: Tables, w: Walked, next: Walked, e: Event, o: Opening)
    requires ValidStates(w) && Timed(w, e.time) && Framed(w, next, e) && Opened(t, w, next, e, o)
    ensures Timed(next, e.time)
  {
    forall x | x in w.trades ensures PendingAfter(next, x) {
      assert PendingAfter(w, x);
    }
    forall x | x in w.trades && x.Instrument() == o.economic.outcome.attempt.instrument
      ensures x.ExitTime() < o.economic.outcome.attempt.time
    {
      assert PendingAfter(w, x);
      assert StateOf(w.states, e.instrument).Valid();
    }
  }

  // Every other opening is of another instrument.
  lemma OthersOpen(w: Walked, k: nat)
    requires Linked(w) && k < |w.openings|
    ensures forall o :: o in w.openings[..k] + w.openings[k + 1..] ==>
              && o in w.openings
              && o.economic.outcome.attempt.instrument != w.openings[k].economic.outcome.attempt.instrument
  {
    forall o | o in w.openings[..k] + w.openings[k + 1..]
      ensures o in w.openings
      ensures o.economic.outcome.attempt.instrument != w.openings[k].economic.outcome.attempt.instrument
    {
      var a :| 0 <= a < |w.openings| && a != k && w.openings[a] == o;
      assert w.openings[k] in w.openings && Holds(w, o) && Holds(w, w.openings[k]);
      assert w.openings[a].action != w.openings[k].action;
    }
  }

  lemma TimedClosed(t: Tables, w: Walked, next: Walked, e: Event, k: nat, trade: TradeRecord)
    requires Linked(w) && Timed(w, e.time) && Framed(w, next, e) && Closed(t, w, next, e, k, trade)
    ensures Timed(next, e.time)
  {
    assert w.openings[k] in w.openings;
    forall x | x in next.trades ensures PendingAfter(next, x) {
      if x in w.trades {
        assert PendingAfter(w, x);
      }
    }
    OthersOpen(w, k);
    forall i | 0 <= i < |w.trades| && w.trades[i].Instrument() == trade.Instrument()
      ensures w.trades[i].ExitTime() < trade.EntryTime()
    {
      assert w.trades[i] in w.trades;
    }
  }

  lemma TimedKept(w: Walked, next: Walked, e: Event)
    requires Timed(w, e.time) && Framed(w, next, e) && Kept(w, next, e)
    requires next.trades == w.trades && next.openings == w.openings
    ensures Timed(next, e.time)
  {
    forall x | x in w.trades ensures PendingAfter(next, x) {
      assert PendingAfter(w, x);
    }
  }

  lemma StepTimed(result: SimulationResult, t: Tables, w: Walked, e: Event, next: Walked)
    requires TablesSound(t) && CheckEvent(result, t, w, e) == Ok(next)
    requires Linked(w) && Timed(w, e.time)
    ensures Linked(next) && Timed(next, e.time)
  {
    StepStates(result, t, w, e, next);
    StepCases(result, t, w, e, next);
    assert ValidStates(next);
    if NoFill(t, w, next) {
      LinkedKept(w, next, e);
      TimedKept(w, next, e);
    } else if o :| Opened(t, w, next, e, o) {
      LinkedOpened(t, w, next, e, o);
      TimedOpened(t, w, next, e, o);
    } else {
      var k: nat, trade :| Closed(t, w, next, e, k, trade);
      LinkedClosed(t, w, next, e, k, trade);
      TimedClosed(t, w, next, e, k, trade);
    }
  }

  lemma TimedLater(w: Walked, now: int, later: int)
    requires Timed(w, now) && now <= later
    ensures Timed(w, later)
  {
  }

  lemma {:induction false} WalkTimed(result: SimulationResult, t: Tables, es: seq<Event>)
    requires TablesSound(t) && Walk(result, t, es).Ok? && Sorted(EventKey(), es)
    ensures Linked(Walk(result, t, es).value)
    ensures Timed(Walk(result, t, es).value, if es == [] then 0 else Last(es).time)
  {
    if es != [] {
      var front, e := Front(es), Last(es);
      var w, next := Walk(result, t, front).value, Walk(result, t, es).value;
      WalkTimed(result, t, front);
      if front != [] {
        EarlierInOrder(Last(front), e);
        TimedLater(w, Last(front).time, e.time);
      }
      StepTimed(result, t, w, e, next);
    }
  }

  // ----- the theorem -----

  function FilledIds(outcomes: seq<Outcome>): set<AttemptId> {
    set o | o in outcomes && o.status == Filled :: o.attempt.id
  }

  function EconomicIds(economics: seq<EconomicExecution>): set<AttemptId> {
    set e | e in economics :: e.outcome.attempt.id
  }

  lemma FilterDistinctKeys<K, V(!new)>(key: V -> K, p: V -> bool, items: seq<V>)
    requires DistinctKeys(key, items)
    ensures DistinctKeys(key, Filter(p, items))
  {
    var related := (x: V, y: V) => key(x) != key(y);
    FilterPairwise(p, related, items);
    forall i, j | 0 <= i < j < |Filter(p, items)| ensures key(Filter(p, items)[i]) != key(Filter(p, items)[j]) {
      assert related(Filter(p, items)[i], Filter(p, items)[j]);
    }
  }

  // Filled outcomes are as many as their attempts.
  lemma CountFilled(outcomes: seq<Outcome>)
    requires DistinctKeys(OutcomeAttempt(), outcomes)
    ensures |Filter(IsFilled(), outcomes)| == |FilledIds(outcomes)|
  {
    var filled := Filter(IsFilled(), outcomes);
    FilterDistinctKeys(OutcomeAttempt(), IsFilled(), outcomes);
    var ids := Map(OutcomeAttempt(), filled);
    DistinctLength(ids);
    assert ToSet(ids) == FilledIds(outcomes) by {
      forall o | o in filled ensures o.attempt.id in ToSet(ids) {
        var i :| 0 <= i < |filled| && filled[i] == o;
        assert ids[i] == o.attempt.id;
      }
      forall id | id in ToSet(ids) ensures id in FilledIds(outcomes) {
        var i :| 0 <= i < |ids| && ids[i] == id;
        assert filled[i] in filled && filled[i] in outcomes;
      }
    }
  }

  lemma FilledAreEconomics(result: SimulationResult, t: Tables)
    requires Cover(result) == Ok(t)
    ensures FilledIds(result.outcomes) == t.economics.Keys
    ensures DistinctKeys(OutcomeAttempt(), result.outcomes)
  {
    CoverParts(result, t);
    CoverSound(result, t);
    OutcomesKeyed(result, t.attempts, t.outcomes);
    TableElements(OutcomeAttempt(), result.outcomes);
    TableDistinct(OutcomeAttempt(), result.outcomes);
  }

  lemma SortedDisjoint(trades: seq<TradeRecord>)
    requires Disjoint(trades) && forall x :: x in trades ==> x.Valid()
    ensures Disjoint(Sort(TradeKey(), trades))
  {
    var sorted := Sort(TradeKey(), trades);
    SortSorted(TradeKey(), trades);
    SortElements(TradeKey(), trades);
    forall i, j | 0 <= i < j < |trades| ensures trades[i] != trades[j] {
      assert trades[i] in trades;
    }
    DistinctPermute(trades, sorted);
    forall i, j | 0 <= i < j < |sorted| && sorted[i].Instrument() == sorted[j].Instrument()
      ensures sorted[i].ExitTime() < sorted[j].EntryTime()
    {
      SortedPairDisjoint(trades, sorted[i], sorted[j]);
    }
  }

  lemma SortedPairDisjoint(trades: seq<TradeRecord>, x: TradeRecord, y: TradeRecord)
    requires Disjoint(trades) && x in trades && y in trades && x != y
    requires x.Valid() && y.Valid()
    requires x.Instrument() == y.Instrument() && KeyLe(TradeKey()(x), TradeKey()(y))
    ensures x.ExitTime() < y.EntryTime()
  {
    var i :| 0 <= i < |trades| && trades[i] == x;
    var j :| 0 <= j < |trades| && trades[j] == y;
    assert TradeKey()(x)[0] == Num(x.ExitTime()) && TradeKey()(y)[0] == Num(y.ExitTime());
  }

  // What a successful reconstruction came from.
  lemma Reconstructed(result: SimulationResult) returns (t: Tables, w: Walked)
    requires Reconstruct(result).Ok?
    ensures Cover(result) == Ok(t) && Walk(result, t, WalkOrder(result)) == Ok(w)
    ensures w.used == t.attempts.Keys
    ensures Reconstruct(result).value.trades == Sort(TradeKey(), w.trades)
    ensures Reconstruct(result).value.openEntries == Map(EconomicOf(), Sort(OpeningKey(), w.openings))
  {
    t := Cover(result).value;
    w := Walk(result, t, WalkOrder(result)).value;
    Concluded(result, t, w, WalkOrder(result), Reconstruct(result).value);
  }

  lemma Concluded(result: SimulationResult, t: Tables, w: Walked, es: seq<Event>, r: Reconstruction)
    requires Conclude(result, t, w, es) == Ok(r)
    ensures w.used == t.attempts.Keys
    ensures r.trades == Sort(TradeKey(), w.trades)
    ensures r.openEntries == Map(EconomicOf(), Sort(OpeningKey(), w.openings))
  {
  }

  lemma OpenEntryIds(openings: seq<Opening>)
    ensures EconomicIds(Map(EconomicOf(), Sort(OpeningKey(), openings))) == OpenIds(openings)
    ensures |Map(EconomicOf(), Sort(OpeningKey(), openings))| == |openings|
  {
    var sorted := Sort(OpeningKey(), openings);
    SortElements(OpeningKey(), openings);
    var entries := Map(EconomicOf(), sorted);
    forall o | o in openings ensures o.economic in entries {
      var i :| 0 <= i < |sorted| && sorted[i] == o;
      assert entries[i] == o.economic;
    }
    forall e | e in entries ensures exists o :: o in openings && o.economic == e {
      var i :| 0 <= i < |entries| && entries[i] == e;
      assert sorted[i] in openings;
    }
  }

  lemma TradeIdsSorted(trades: seq<TradeRecord>)
    ensures EntryIds(Sort(TradeKey(), trades)) == EntryIds(trades)
    ensures ExitIds(Sort(TradeKey(), trades)) == ExitIds(trades)
  {
    SortElements(TradeKey(), trades);
  }

  // On any evidence the reconciler accepts: the filled outcomes are exactly the entries
  // and exits of the completed trades and the open entries, twice as many as the trades
  // plus the open entries; every exit was decided and filled strictly after its entry,
  // and trades of one instrument are strictly disjoint in time.
  lemma ReconciliationSound(result: SimulationResult)
    requires Reconstruct(result).Ok?
    ensures var r := Reconstruct(result).value;
            && |Filter(IsFilled(), result.outcomes)| == 2 * |r.trades| + |r.openEntries|
            && FilledIds(result.outcomes) == EntryIds(r.trades) + ExitIds(r.trades) + EconomicIds(r.openEntries)
            && (forall x :: x in r.trades ==> x.Valid() && x.EntryTime() < x.ExitDecided() < x.ExitTime())
            && Disjoint(r.trades)
  {
    var t, w := Reconstructed(result);
    CoverSound(result, t);
    FillsUsedOnce(result, t, w);
    TradesInTime(result, t, w);
  }

  lemma FillsUsedOnce(result: SimulationResult, t: Tables, w: Walked)
    requires Cover(result) == Ok(t) && TablesSound(t)
    requires Walk(result, t, WalkOrder(result)) == Ok(w) && w.used == t.attempts.Keys
    ensures var trades, open := Sort(TradeKey(), w.trades), Map(EconomicOf(), Sort(OpeningKey(), w.openings));
            && |Filter(IsFilled(), result.outcomes)| == 2 * |trades| + |open|
            && FilledIds(result.outcomes) == EntryIds(trades) + ExitIds(trades) + EconomicIds(open)
  {
    CoverSound(result, t);
    FilledAreEconomics(result, t);
    CountFilled(result.outcomes);
    SortSorted(EventKey(), result.timeline.ordered);
    WalkAccounts(result, t, WalkOrder(result));
    assert FillIds(t, w) == t.economics.Keys;
    OpenEntryIds(w.openings);
    TradeIdsSorted(w.trades);
  }

  lemma TradesInTime(result: SimulationResult, t: Tables, w: Walked)
    requires TablesSound(t) && Walk(result, t, WalkOrder(result)) == Ok(w)
    ensures var trades := Sort(TradeKey(), w.trades);
            && (forall x :: x in trades ==> x.Valid() && x.EntryTime() < x.ExitDecided() < x.ExitTime())
            && Disjoint(trades)
  {
    SortSorted(EventKey(), result.timeline.ordered);
    WalkTimed(result, t, WalkOrder(result));
    SortElements(TradeKey(), w.trades);
    SortedDisjoint(w.trades);
  }
}
