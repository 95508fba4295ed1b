// Each action enters or leaves at most once, so the currency summaries of accepted evidence can
// always be constructed.
module Summaries {
  import opened Collections
  import opened Order
  import opened Domain
  import opened Events
  import opened Execution
  import opened Lifecycle
  import opened Process
  import opened Economics
  import opened Runner
  import opened Trades
  import opened Soundness
  import opened Money

  function EntryAction(): TradeRecord -> ActionId { (x: TradeRecord) => x.entry.outcome.attempt.action }
  function ExitAction(): TradeRecord -> ActionId { (x: TradeRecord) => x.exit.outcome.attempt.action }

  function PendingId(w: Walked, instrument: Instrument): Option<ActionId> {
    var pending := StateOf(w.states, instrument).pending;
    if pending.Some? then Some(pending.value.id) else None
  }

  // ----- the invariant -----

  // The action has opened or closed a position.
  ghost predicate Spent(w: Walked, id: ActionId) {
    || (exists x :: x in w.trades && (EntryAction()(x) == id || ExitAction()(x) == id))
    || (exists o :: o in w.openings && o.action == id)
  }

  // Pending actions were created, are not spent, and are no two instruments' at once.
  ghost predicate PendingFresh(w: Walked) {
    && (forall i :: PendingId(w, i).Some? ==> PendingId(w, i).value in w.actions && !Spent(w, PendingId(w, i).value))
    && (forall i, j :: i != j && PendingId(w, i).Some? ==> PendingId(w, i) != PendingId(w, j))
  }

  ghost predicate EntriesApart(trades: seq<TradeRecord>, openings: seq<Opening>) {
    && DistinctKeys(EntryAction(), trades)
    && (forall a, b :: 0 <= a < b < |openings| ==> openings[a].action != openings[b].action)
    && (forall x, o :: x in trades && o in openings ==> EntryAction()(x) != o.action)
  }

  ghost predicate Acted(w: Walked) {
    && PendingFresh(w) && (forall id :: Spent(w, id) ==> id in w.actions)
    && EntriesApart(w.trades, w.openings) && DistinctKeys(ExitAction(), w.trades)
    && (forall o :: o in w.openings ==> o.action == o.economic.outcome.attempt.action)
  }

  // ----- the kinds of step -----

  ghost predicate OthersPend(w: Walked, next: Walked, e: Event) {
    forall i :: i != e.instrument ==> PendingId(next, i) == PendingId(w, i)
  }

  lemma ActedKept(w: Walked, next: Walked, e: Event)
    requires Acted(w) && OthersPend(w, next, e) && next.trades == w.trades && next.openings == w.openings
    requires next.actions == w.actions
    requires PendingId(next, e.instrument) == PendingId(w, e.instrument) || PendingId(next, e.instrument).None?
    ensures Acted(next)
  {
    forall id ensures Spent(next, id) <==> Spent(w, id) {
    }
  }

  lemma ActedCreated(w: Walked, next: Walked, e: Event, id: ActionId)
    requires Acted(w) && OthersPend(w, next, e) && next.trades == w.trades && next.openings == w.openings
    requires id !in w.actions && next.actions == w.actions + {id} && PendingId(next, e.instrument) == Some(id)
    ensures Acted(next)
  {
    forall a ensures Spent(next, a) <==> Spent(w, a) {
    }
  }

  lemma ActedOpened(w: Walked, next: Walked, e: Event, o: Opening)
    requires Acted(w) && OthersPend(w, next, e) && next.trades == w.trades && next.openings == w.openings + [o]
    requires next.actions == w.actions && PendingId(next, e.instrument).None?
    requires PendingId(w, e.instrument) == Some(o.action) && o.action == o.economic.outcome.attempt.action
    ensures Acted(next)
  {
    forall a ensures Spent(next, a) <==> Spent(w, a) || a == o.action {
      assert o in next.openings;
    }
    forall x | x in w.trades ensures EntryAction()(x) != o.action {
    }
    forall x | x in w.openings ensures x.action != o.action {
    }
  }

  lemma ActedClosed(w: Walked, next: Walked, e: Event, k: nat, x: TradeRecord)
    requires Acted(w) && OthersPend(w, next, e) && k < |w.openings|
    requires next.trades == w.trades + [x] && next.openings == w.openings[..k] + w.openings[k + 1..]
    requires next.actions == w.actions && PendingId(next, e.instrument).None?
    requires PendingId(w, e.instrument) == Some(ExitAction()(x)) && x.entry == w.openings[k].economic
    ensures Acted(next)
  {
    SpentClosed(w, next, k, x);
    ApartClosed(w.trades, w.openings, k, x);
    forall y | y in w.trades ensures ExitAction()(y) != ExitAction()(x) {
    }
  }

  lemma SpentClosed(w: Walked, next: Walked, k: nat, x: TradeRecord)
    requires k < |w.openings| && w.openings[k].action == EntryAction()(x)
    requires next.trades == w.trades + [x] && next.openings == w.openings[..k] + w.openings[k + 1..]
    ensures forall a :: Spent(next, a) <==> Spent(w, a) || a == ExitAction()(x)
  {
    forall o ensures o in w.openings <==> o in next.openings || o == w.openings[k] {
    }
    forall a ensures Spent(next, a) <==> Spent(w, a) || a == ExitAction()(x) {
      assert x in next.trades;
      assert forall y :: y in next.trades <==> y in w.trades || y == x;
    }
  }

  lemma ApartClosed(trades: seq<TradeRecord>, openings: seq<Opening>, k: nat, x: TradeRecord)
    requires EntriesApart(trades, openings) && k < |openings| && openings[k].action == EntryAction()(x)
    ensures EntriesApart(trades + [x], openings[..k] + openings[k + 1..])
  {
    var rest := openings[..k] + openings[k + 1..];
    forall i | 0 <= i < |trades| ensures EntryAction()(trades[i]) != EntryAction()(x) {
      assert trades[i] in trades && openings[k] in openings;
    }
    forall o | o in rest ensures o in openings && o.action != openings[k].action {
      var a :| 0 <= a < |rest| && rest[a] == o;
      assert o == openings[if a < k then a else a + 1];
    }
  }

  // ----- the walk -----

  // What an event that creates no action does to the pending one.
  ghost predicate Spends(t: Tables, w: Walked, e: Event, next: Walked) {
    && next.actions == w.actions && e.id in t.records
    && var o, p, q := t.records[e.id].outcome, PendingId(w, e.instrument), PendingId(next, e.instrument);
    && (o.Some? ==> p == Some(o.value.attempt.action))
    && (if o.Some? && o.value.status == Filled then q.None? else q == p)
  }

  // How one event moves actions and the pending one.
  lemma EventActs(result: SimulationResult, t: Tables, w: Walked, e: Event, next: Walked)
    requires CheckEvent(result, t, w, e) == Ok(next)
    ensures e.id in t.records
    ensures var r, q := t.records[e.id], PendingId(next, e.instrument);
            if r.decision == ActionCreated then
              r.outcome.None? && q.Some? && q.value !in w.actions && next.actions == w.actions + {q.value}
            else Spends(t, w, e, next)
  {
    var r, current := t.records[e.id], StateOf(w.states, e.instrument);
    if r.decision == ActionCreated {
      CreationActs(t, w, current, e, r, next);
    } else if r.outcome.Some? {
      OutcomeActs(result, t, w, current, e, r, r.outcome.value, next);
    }
  }

  lemma CreationActs(t: Tables, w: Walked, current: InstrumentState, e: Event, r: Record, next: Walked)
    requires CheckCreation(t, w, current, e, r) == Ok(next)
    ensures r.outcome.None? && PendingId(next, e.instrument).Some?
    ensures PendingId(next, e.instrument).value !in w.actions
    ensures next.actions == w.actions + {PendingId(next, e.instrument).value}
  {
  }

  lemma OutcomeActs(
    result: SimulationResult, t: Tables, w: Walked, current: InstrumentState, e: Event, r: Record, o: Outcome,
    next: Walked)
    requires CheckOutcome(result, t, w, current, e, r, o) == Ok(next) && current == StateOf(w.states, e.instrument)
    ensures next.actions == w.actions && PendingId(w, e.instrument) == Some(o.attempt.action)
    ensures if o.status == Filled then PendingId(next, e.instrument).None?
            else PendingId(next, e.instrument) == PendingId(w, e.instrument)
  {
  }

  lemma FramedPend(w: Walked, next: Walked, e: Event)
    requires Framed(w, next, e)
    ensures OthersPend(w, next, e)
  {
  }

  lemma OpenedActed(t: Tables, w: Walked, e: Event, next: Walked, o: Opening)
    requires TablesSound(t) && Acted(w) && OthersPend(w, next, e) && Spends(t, w, e, next) && Opened(t, w, next, e, o)
    ensures Acted(next)
  {
    FilledOutcome(t, w, next, e, o.economic);
    ActedOpened(w, next, e, o);
  }

  lemma ClosedActed(t: Tables, w: Walked, e: Event, next: Walked, k: nat, x: TradeRecord)
    requires TablesSound(t) && Acted(w) && OthersPend(w, next, e) && Spends(t, w, e, next) && Closed(t, w, next, e, k, x)
    ensures Acted(next)
  {
    FilledOutcome(t, w, next, e, x.exit);
    ActedClosed(w, next, e, k, x);
  }

  lemma SpendingActed(t: Tables, w: Walked, e: Event, next: Walked)
    requires TablesSound(t) && Acted(w) && OthersPend(w, next, e) && Spends(t, w, e, next)
    requires NoFill(t, w, next) || (exists o :: Opened(t, w, next, e, o))
             || (exists k, x :: Closed(t, w, next, e, k, x))
    ensures Acted(next)
  {
    if NoFill(t, w, next) {
      ActedKept(w, next, e);
    } else if o :| Opened(t, w, next, e, o) {
      OpenedActed(t, w, e, next, o);
    } else {
      var k: nat, x :| Closed(t, w, next, e, k, x);
      ClosedActed(t, w, e, next, k, x);
    }
  }

  lemma StepActed(result: SimulationResult, t: Tables, w: Walked, e: Event, next: Walked)
    requires TablesSound(t) && CheckEvent(result, t, w, e) == Ok(next)
    requires Acted(w) && Framed(w, next, e)
    ensures Acted(next)
  {
    FramedPend(w, next, e);
    EventActs(result, t, w, e, next);
    StepCases(result, t, w, e, next);
    if t.records[e.id].decision == ActionCreated {
      NotFilled(t, w, next, e);
      ActedCreated(w, next, e, PendingId(next, e.instrument).value);
    } else {
      SpendingActed(t, w, e, next);
    }
  }

  lemma FilledOutcome(t: Tables, w: Walked, next: Walked, e: Event, economic: EconomicExecution)
    requires TablesSound(t) && FillOf(t, w, next, e, economic)
    ensures t.records[e.id].outcome == Some(economic.outcome) && economic.outcome.status == Filled
  {
  }

  // An event that creates an action fills none.
  lemma NotFilled(t: Tables, w: Walked, next: Walked, e: Event)
    requires e.id in t.records && t.records[e.id].outcome.None?
    requires NoFill(t, w, next) || (exists o :: Opened(t, w, next, e, o))
             || (exists k, x :: Closed(t, w, next, e, k, x))
    ensures next.trades == w.trades && next.openings == w.openings
  {
  }

  lemma {:induction false} WalkActed(result: SimulationResult, t: Tables, es: seq<Event>)
    requires TablesSound(t) && Walk(result, t, es).Ok? && Sorted(EventKey(), es)
    ensures Acted(Walk(result, t, es).value)
  {
    if es != [] {
      var front, e := Front(es), Last(es);
      WalkActed(result, t, front);
      var w, next := Walk(result, t, front).value, Walk(result, t, es).value;
      WalkTimed(result, t, front);
      StepStates(result, t, w, e, next);
      StepActed(result, t, w, e, next);
    }
  }

  // ----- the summaries -----

  // The checks of a summary's construction.
  ghost predicate Constructible(s: CurrencySummary) {
    && (forall x :: x in s.trades ==> x.entry.config.currency == s.currency && x.Ordinary())
    && Distinct(Map(EntryAction(), s.trades)) && Distinct(Map(ExitAction(), s.trades))
  }

  lemma SummaryApart(f: TradeRecord -> ActionId, walked: seq<TradeRecord>, p: TradeRecord -> bool)
    requires DistinctKeys(f, walked)
    ensures Distinct(Map(f, Filter(p, Sort(TradeKey(), walked))))
  {
    assert Distinct(Map(f, walked));
    DistinctMap(f, walked);
    var sorted := Sort(TradeKey(), walked);
    SortElements(TradeKey(), walked);
    DistinctPermute(walked, sorted);
    FilterDistinct(p, sorted);
    DistinctMap(f, Filter(p, sorted));
  }

  lemma SummaryConstructible(walked: seq<TradeRecord>, currency: string)
    requires DistinctKeys(EntryAction(), walked) && DistinctKeys(ExitAction(), walked)
    ensures Constructible(SummaryFor(Sort(TradeKey(), walked))(currency))
  {
    SummaryApart(EntryAction(), walked, OrdinaryIn(currency));
    SummaryApart(ExitAction(), walked, OrdinaryIn(currency));
  }

  // On any evidence the reconciler accepts, no action enters or leaves twice, and so every
  // currency summary passes its construction checks.
  lemma SummariesConstructible(result: SimulationResult)
    requires Reconstruct(result).Ok?
    ensures forall s :: s in CurrencySummaries(Reconstruct(result).value.trades) ==> Constructible(s)
  {
    var t, w := Reconstructed(result);
    CoverSound(result, t);
    SortSorted(EventKey(), result.timeline.ordered);
    WalkActed(result, t, WalkOrder(result));
    SummariesOf(w.trades);
  }

  lemma SummariesOf(walked: seq<TradeRecord>)
    requires DistinctKeys(EntryAction(), walked) && DistinctKeys(ExitAction(), walked)
    ensures forall s :: s in CurrencySummaries(Sort(TradeKey(), walked)) ==> Constructible(s)
  {
    var trades := Sort(TradeKey(), walked);
    forall s | s in CurrencySummaries(trades) ensures Constructible(s) {
      var i :| 0 <= i < |CurrencySummaries(trades)| && CurrencySummaries(trades)[i] == s;
      SummaryConstructible(walked, Sort(TextKey(), Currencies(trades))[i]);
    }
  }
}
