// What the timeline records of every event, in the events' own times: simulation/timeline.py.
module TimelineTold {
  import opened Collections
  import opened Domain
  import opened Events
  import opened Timeline

  function SignalsOf(instrument: Instrument): Event -> bool {
    (e: Event) => e.kind == SignalAvailable && e.instrument == instrument
  }

  predicate IsSignal(e: Event) { e.kind == SignalAvailable }

  // A signal waits for an opportunity strictly after it.
  predicate Awaited(a: Event, p: PendingSignal) {
    p.signal == a.id && p.instrument == a.instrument && p.eligibleAfter == a.time
  }

  ghost predicate AllAwaited(signals: seq<Event>, pending: seq<PendingSignal>) {
    |pending| == |signals| && forall k :: 0 <= k < |pending| ==> Awaited(signals[k], pending[k])
  }

  // The pending signals are the signals, in order.
  lemma {:induction false} PendingsExactly(es: seq<Event>)
    requires ValidEvents(es)
    ensures AllAwaited(Filter(IsSignal, es), Pendings(es))
  {
    if es != [] {
      FrontAndLast(es);
      PendingsExactly(Front(es));
    }
  }

  lemma FiltersGrow(es: seq<Event>, e: Event, instrument: Instrument)
    requires ValidEvents(es) && e.Valid()
    ensures Filter(SignalsOf(instrument), es + [e])
         == Filter(SignalsOf(instrument), es)
            + if e.kind == SignalAvailable && e.instrument == instrument then [e] else []
    ensures ValidEvents(es + [e])
    ensures Filter(PendingOf(instrument), Pendings(es + [e]))
         == Filter(PendingOf(instrument), Pendings(es))
            + if e.kind == SignalAvailable && e.instrument == instrument then [PendingFor(e)] else []
  {
    FilterSnoc(SignalsOf(instrument), es, e);
    TimelineSnoc(es, e);
    if e.kind == SignalAvailable {
      FilterSnoc(PendingOf(instrument), Pendings(es), PendingFor(e));
    } else {
      assert Pendings(es + [e]) == Pendings(es);
    }
  }

  lemma {:induction false} PendingsOfInstrument(es: seq<Event>, instrument: Instrument)
    requires ValidEvents(es)
    ensures AllAwaited(Filter(SignalsOf(instrument), es), Filter(PendingOf(instrument), Pendings(es)))
  {
    if es != [] {
      FrontAndLast(es);
      PendingsOfInstrument(Front(es), instrument);
      FiltersGrow(Front(es), Last(es), instrument);
    }
  }

  // The record is of that event.
  predicate RecordsEvent(e: Event, r: TimelineRecord) {
    r.event == e.id && r.kind == e.kind && r.time == e.time && r.source == e.source
  }

  // An opportunity set against one earlier signal, eligible exactly when strictly later.
  predicate SetAgainst(a: Event, e: Event, r: TimelineRecord) {
    && r.signal == Some(a.id) && r.signalAvailable == Some(a.time)
    && r.execution == Some(e.id) && r.executionTime == Some(e.time)
    && (if a.time < e.time then r.decision == Eligible && r.reason == LegalExecutionOpportunity
        else r.decision == NotEligible && r.reason == NotStrictlyAfterSignalAvailability)
  }

  // The records one event adds: a signal's says it awaits, an opportunity has one for every earlier
  // signal of its instrument, in order, and any other event's says it was processed.
  ghost predicate Adds(signals: seq<Event>, e: Event, added: seq<TimelineRecord>) {
    && (forall k :: 0 <= k < |added| ==> RecordsEvent(e, added[k]))
    && if e.kind == ExecutionOpportunity && signals != [] then
         |added| == |signals| && forall k :: 0 <= k < |added| ==> SetAgainst(signals[k], e, added[k])
       else
         && |added| == 1 && added[0].execution == None && added[0].executionTime == None
         && if e.kind == SignalAvailable then
              && added[0].signal == Some(e.id) && added[0].signalAvailable == Some(e.time)
              && added[0].decision == EligibilityPending && added[0].reason == AwaitingStrictlyLaterOpportunity
            else
              && added[0].signal == None && added[0].signalAvailable == None
              && added[0].decision == EligibilityNotApplicable && added[0].reason == EventProcessed
  }

  lemma MatchesAdd(signals: seq<Event>, matching: seq<PendingSignal>, e: Event)
    requires AllAwaited(signals, matching) && matching != [] && e.kind == ExecutionOpportunity
    ensures Adds(signals, e, Map(MatchRecord(e), matching))
  {
    forall k | 0 <= k < |matching| ensures SetAgainst(signals[k], e, Map(MatchRecord(e), matching)[k]) {
      assert Awaited(signals[k], matching[k]);
    }
  }

  lemma EventAdds(before: seq<Event>, e: Event)
    requires ValidEvents(before) && e.Valid()
    ensures Adds(Filter(SignalsOf(e.instrument), before), e, RecordsFor(e, Pendings(before)))
  {
    PendingsOfInstrument(before, e.instrument);
    var matching := Filter(PendingOf(e.instrument), Pendings(before));
    if e.kind == ExecutionOpportunity && matching != [] {
      MatchesAdd(Filter(SignalsOf(e.instrument), before), matching, e);
    }
  }

  // Every event adds its own records to those of the events before it.
  lemma RecordsTold(es: seq<Event>, i: nat) returns (added: seq<TimelineRecord>)
    requires ValidEvents(es) && i < |es|
    ensures ValidEvents(es[..i]) && ValidEvents(es[..i + 1])
    ensures TimelineRecords(es[..i + 1]) == TimelineRecords(es[..i]) + added
    ensures Adds(Filter(SignalsOf(es[i].instrument), es[..i]), es[i], added)
  {
    var before := es[..i];
    assert es[..i + 1] == before + [es[i]];
    TimelineSnoc(before, es[i]);
    EventAdds(before, es[i]);
    added := RecordsFor(es[i], Pendings(before));
  }
}
