// Strictly-later eligibility over the canonical event order: simulation/timeline.py.
module Timeline {
  import opened Collections
  import opened Order
  import opened Domain
  import opened Events

  datatype EligibilityDecision = EligibilityNotApplicable | EligibilityPending | Eligible | NotEligible

  datatype EligibilityReason =
    | EventProcessed | AwaitingStrictlyLaterOpportunity
    | NotStrictlyAfterSignalAvailability | LegalExecutionOpportunity

  datatype PendingSignal = PendingSignal(signal: EventId, instrument: Instrument, eligibleAfter: int)

  datatype TimelineRecord = TimelineRecord(
    event: EventId, kind: EventKind, time: int, source: Source,
    signal: Option<EventId>, signalAvailable: Option<int>,
    execution: Option<EventId>, executionTime: Option<int>,
    decision: EligibilityDecision, reason: EligibilityReason)

  datatype TimelineResult = TimelineResult(
    ordered: seq<Event>, records: seq<TimelineRecord>, pending: seq<PendingSignal>)

  function PendingFor(e: Event): PendingSignal
    requires e.Valid() && e.kind == SignalAvailable
  {
    PendingSignal(e.id, e.instrument, e.signal.value.available)
  }

  function PendingOf(instrument: Instrument): PendingSignal -> bool {
    (p: PendingSignal) => p.instrument == instrument
  }

  function ProcessedRecord(e: Event): TimelineRecord {
    TimelineRecord(e.id, e.kind, e.time, e.source, None, None, None, None,
                   EligibilityNotApplicable, EventProcessed)
  }

  function AwaitingRecord(e: Event): TimelineRecord
    requires e.Valid() && e.kind == SignalAvailable
  {
    TimelineRecord(e.id, e.kind, e.time, e.source, Some(e.id), Some(e.signal.value.available), None, None,
                   EligibilityPending, AwaitingStrictlyLaterOpportunity)
  }

  function MatchRecord(e: Event): PendingSignal -> TimelineRecord {
    (p: PendingSignal) =>
      var eligible := e.time > p.eligibleAfter;
      TimelineRecord(e.id, e.kind, e.time, e.source, Some(p.signal), Some(p.eligibleAfter),
                     Some(e.id), Some(e.time),
                     if eligible then Eligible else NotEligible,
                     if eligible then LegalExecutionOpportunity else NotStrictlyAfterSignalAvailability)
  }

  // The signals seen, in order; nothing consumes them.
  function Pendings(es: seq<Event>): seq<PendingSignal>
    requires ValidEvents(es)
  {
    if es == [] then []
    else
      assert es == Front(es) + [Last(es)];
      Pendings(Front(es)) + if Last(es).kind == SignalAvailable then [PendingFor(Last(es))] else []
  }

  function RecordsFor(e: Event, pending: seq<PendingSignal>): seq<TimelineRecord>
    requires e.Valid()
  {
    if e.kind == SignalAvailable then [AwaitingRecord(e)]
    else
      var matching := Filter(PendingOf(e.instrument), pending);
      if e.kind != ExecutionOpportunity || matching == [] then [ProcessedRecord(e)]
      else Map(MatchRecord(e), matching)
  }

  function TimelineRecords(es: seq<Event>): seq<TimelineRecord>
    requires ValidEvents(es)
  {
    if es == [] then []
    else
      assert es == Front(es) + [Last(es)];
      TimelineRecords(Front(es)) + RecordsFor(Last(es), Pendings(Front(es)))
  }

  // The pairs the lifecycle is allowed to attempt.
  ghost function EligiblePairs(records: seq<TimelineRecord>): set<(EventId, EventId)> {
    set r | r in records && r.decision == Eligible && r.signal.Some? && r.execution.Some?
      :: (r.signal.value, r.execution.value)
  }

  method OrderedEvents(events: seq<Event>) returns (r: Result<seq<Event>>)
    ensures r.Ok? <==> UniqueIds(events)
    ensures r.Ok? ==> r.value == Sort(EventKey(), events)
  {
    var identifiers := Map(IdOf(), events);
    if |ToSet(identifiers)| != |identifiers| {
      if UniqueIds(events) {
        assert Distinct(identifiers);
        DistinctLength(identifiers);
      }
      return Err("event_id values must be unique within a timeline");
    }
    FullLengthDistinct(identifiers);
    assert forall i :: 0 <= i < |events| ==> identifiers[i] == events[i].id;
    r := Ok(Sort(EventKey(), events));
  }

  method MatchAll(event: Event, matching: seq<PendingSignal>) returns (records: seq<TimelineRecord>)
    ensures records == Map(MatchRecord(event), matching)
  {
    records := [];
    for k := 0 to |matching|
      invariant records == Map(MatchRecord(event), matching)[..k]
    {
      records := records + [MatchRecord(event)(matching[k])];
    }
  }

  lemma TimelineSnoc(es: seq<Event>, e: Event)
    requires ValidEvents(es) && e.Valid()
    ensures ValidEvents(es + [e])
    ensures TimelineRecords(es + [e]) == TimelineRecords(es) + RecordsFor(e, Pendings(es))
    ensures Pendings(es + [e]) == Pendings(es) + if e.kind == SignalAvailable then [PendingFor(e)] else []
  {
    assert Front(es + [e]) == es;
  }

  method ProcessTimeline(events: seq<Event>) returns (r: Result<TimelineResult>)
    requires ValidEvents(events)
    ensures r.Ok? <==> UniqueIds(events)
    ensures r.Ok? ==>
              && ValidEvents(r.value.ordered)
              && r.value == TimelineResult(Sort(EventKey(), events), TimelineRecords(r.value.ordered),
                                           Pendings(r.value.ordered))
  {
    var sorted := OrderedEvents(events);
    if sorted.Err? {
      return Err(sorted.error);
    }
    SortElements(EventKey(), events);
    var pending, records := WalkTimeline(sorted.value);
    r := Ok(TimelineResult(sorted.value, records, pending));
  }

  method WalkTimeline(ordered: seq<Event>) returns (pending: seq<PendingSignal>, records: seq<TimelineRecord>)
    requires ValidEvents(ordered)
    ensures pending == Pendings(ordered) && records == TimelineRecords(ordered)
  {
    pending, records := [], [];
    ghost var seen := [];
    for i := 0 to |ordered|
      invariant seen == ordered[..i] && ValidEvents(seen)
      invariant pending == Pendings(seen)
      invariant records == TimelineRecords(seen)
    {
      var event := ordered[i];
      TimelineSnoc(seen, event);
      seen := seen + [event];
      if event.kind == SignalAvailable {
        pending := pending + [PendingFor(event)];
        records := records + [AwaitingRecord(event)];
        continue;
      }
      if event.kind != ExecutionOpportunity {
        records := records + [ProcessedRecord(event)];
        continue;
      }
      var matching := Filter(PendingOf(event.instrument), pending);
      if matching == [] {
        records := records + [ProcessedRecord(event)];
        continue;
      }
      var matched := MatchAll(event, matching);
      records := records + matched;
    }
    assert seen == ordered;
  }

  // ----- what eligibility means -----

  // A same-instrument signal and opportunity, the opportunity strictly later.
  ghost predicate EligiblePair(es: seq<Event>, signal: EventId, opportunity: EventId) {
    exists a, b ::
      && a in es && b in es && a.id == signal && b.id == opportunity
      && a.kind == SignalAvailable && b.kind == ExecutionOpportunity
      && a.instrument == b.instrument && a.time < b.time
  }

  lemma {:induction false} PendingsAreSignals(es: seq<Event>, p: PendingSignal)
    requires ValidEvents(es)
    ensures p in Pendings(es) <==> exists a :: a in es && a.kind == SignalAvailable && p == PendingFor(a)
  {
    if es != [] {
      PendingsAreSignals(Front(es), p);
      assert es == Front(es) + [Last(es)];
      assert forall a :: a in es <==> a in Front(es) || a == Last(es);
    }
  }

  ghost predicate Awaits(es: seq<Event>, signal: EventId, e: Event) {
    exists a :: a in es && a.id == signal && a.kind == SignalAvailable
                && a.instrument == e.instrument && a.time < e.time
  }

  // The pairs one more event adds.
  lemma PairsOfEvent(front: seq<Event>, e: Event, signal: EventId, opportunity: EventId)
    requires ValidEvents(front) && e.Valid()
    ensures (signal, opportunity) in EligiblePairs(RecordsFor(e, Pendings(front))) <==>
            e.kind == ExecutionOpportunity && e.id == opportunity
            && Awaits(front, signal, e)
  {
    var records := RecordsFor(e, Pendings(front));
    var matching := Filter(PendingOf(e.instrument), Pendings(front));
    if e.kind == ExecutionOpportunity {
      if (signal, opportunity) in EligiblePairs(records) {
        var r :| r in records && r.decision == Eligible && r.signal == Some(signal)
                 && r.execution == Some(opportunity);
        var k :| 0 <= k < |records| && records[k] == r;
        assert r == MatchRecord(e)(matching[k]) && matching[k] in matching;
        PendingsAreSignals(front, matching[k]);
      }
      if Awaits(front, signal, e) && e.id == opportunity {
        var a :| a in front && a.id == signal && a.kind == SignalAvailable
                 && a.instrument == e.instrument && a.time < e.time;
        PendingsAreSignals(front, PendingFor(a));
        assert PendingFor(a) in matching;
        var k :| 0 <= k < |matching| && matching[k] == PendingFor(a);
        assert records[k] == MatchRecord(e)(matching[k]) && records[k] in records;
      }
    }
  }

  lemma LastIsLatest(front: seq<Event>, e: Event, b: Event)
    requires Sorted(EventKey(), front + [e]) && b in front
    ensures b.time <= e.time
    ensures b.time == e.time ==> Precedence(b.kind) <= Precedence(e.kind)
  {
    var k :| 0 <= k < |front| && front[k] == b;
    assert (front + [e])[k] == b && (front + [e])[|front|] == e;
    EarlierInOrder(b, e);
  }

  // The pairs of a longer sorted sequence.
  lemma EligiblePairGrows(front: seq<Event>, e: Event, signal: EventId, opportunity: EventId)
    requires Sorted(EventKey(), front + [e])
    ensures EligiblePair(front + [e], signal, opportunity) <==>
            || EligiblePair(front, signal, opportunity)
            || (e.kind == ExecutionOpportunity && e.id == opportunity && Awaits(front, signal, e))
  {
    var es := front + [e];
    if EligiblePair(es, signal, opportunity) {
      var a, b :| a in es && b in es && a.id == signal && b.id == opportunity
                  && a.kind == SignalAvailable && b.kind == ExecutionOpportunity
                  && a.instrument == b.instrument && a.time < b.time;
      if a !in front && b in front {
        LastIsLatest(front, e, b);
      }
      assert a in front;
    }
  }

  lemma EligiblePairsUnion(a: seq<TimelineRecord>, b: seq<TimelineRecord>)
    ensures EligiblePairs(a + b) == EligiblePairs(a) + EligiblePairs(b)
  {
  }

  // The timeline loop produces exactly the strictly-later same-instrument pairs.
  lemma {:induction false} EligiblePairsExact(es: seq<Event>, signal: EventId, opportunity: EventId)
    requires ValidEvents(es) && Sorted(EventKey(), es)
    ensures (signal, opportunity) in EligiblePairs(TimelineRecords(es)) <==> EligiblePair(es, signal, opportunity)
  {
    if es != [] {
      var front, e := Front(es), Last(es);
      assert es == front + [e];
      EligiblePairsExact(front, signal, opportunity);
      PairsOfEvent(front, e, signal, opportunity);
      EligiblePairGrows(front, e, signal, opportunity);
      EligiblePairsUnion(TimelineRecords(front), RecordsFor(e, Pendings(front)));
    }
  }
}
