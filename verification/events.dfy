// Timeline events and their canonical causal order: simulation/events.py.
module Events {
  import opened Collections
  import opened Order
  import opened Domain

  // Generated identifiers keep their parts; CallerId is an identifier chosen outside.
  datatype EventId =
    | MarketId(instrument: Instrument, interval: int, observed: int)
    | FeatureId(instrument: Instrument, window: int, observed: int, dataset: string)
    | SignalId(instrument: Instrument, configuration: string, observed: int)
    | CallerId(text: string)

  function IdKey(id: EventId): Key {
    match id
    case MarketId(i, v, t) => [Num(1), Text(i.identifier), Num(v), Num(t)]
    case FeatureId(i, w, t, d) => [Num(2), Text(i.identifier), Num(w), Num(t), Text(d)]
    case SignalId(i, c, t) => [Num(3), Text(i.identifier), Text(c), Num(t)]
    case CallerId(t) => [Num(4), Text(t)]
  }

  datatype EventKind = MarketAvailable | FeatureAvailable | SignalAvailable | ExecutionOpportunity

  // The equal-time causal precedence.
  function Precedence(kind: EventKind): int {
    match kind
    case MarketAvailable => 10
    case FeatureAvailable => 20
    case SignalAvailable => 30
    case ExecutionOpportunity => 40
  }

  datatype Source =
    | BarSource(instrument: Instrument, interval: int, observed: int)
    | FeatureSource(window: int, observed: int, dataset: string)
    | SignalSource(configuration: string, decided: int)
    | CallerSource(text: string)

  datatype Event = Event(
    id: EventId, kind: EventKind, time: int, instrument: Instrument, source: Source, signal: Option<Signal>)
  {
    // The contract every constructed event meets.
    predicate Valid() {
      && (kind == SignalAvailable <==> signal.Some?)
      && (signal.Some? ==> signal.value.instrument == instrument && signal.value.available == time)
    }
  }

  datatype Opportunity = Opportunity(id: string, instrument: Instrument, time: int, source: string)

  function EventKey(): Event -> Key {
    (e: Event) => [Num(e.time), Num(Precedence(e.kind)), Text(e.instrument.identifier)] + IdKey(e.id)
  }

  function EventOf(instrument: Instrument): Event -> bool {
    (e: Event) => e.instrument == instrument
  }

  function Before(time: int): Event -> bool {
    (e: Event) => e.time < time
  }

  function UpTo(time: int): Event -> bool {
    (e: Event) => e.time <= time
  }

  function IdOf(): Event -> EventId {
    (e: Event) => e.id
  }

  function MarketEvent(b: Bar): Event {
    Event(MarketId(b.instrument, b.interval, b.observed), MarketAvailable, b.available, b.instrument,
          BarSource(b.instrument, b.interval, b.observed), None)
  }

  function FeatureEvent(f: FeatureSnapshot): Event {
    Event(FeatureId(f.instrument, f.window, f.observed, f.dataset), FeatureAvailable, f.available,
          f.instrument, FeatureSource(f.window, f.observed, f.dataset), None)
  }

  function SignalEvent(s: Signal): Event {
    Event(SignalId(s.instrument, s.configuration, s.featureObserved), SignalAvailable, s.available,
          s.instrument, SignalSource(s.configuration, s.decided), Some(s))
  }

  function OpportunityEvent(o: Opportunity): Event {
    Event(CallerId(o.id), ExecutionOpportunity, o.time, o.instrument, CallerSource(o.source), None)
  }

  ghost predicate ValidEvents(es: seq<Event>) {
    forall e :: e in es ==> e.Valid()
  }

  // Identifiers are distinct.
  ghost predicate UniqueIds(es: seq<Event>) {
    forall i, j :: 0 <= i < j < |es| ==> es[i].id != es[j].id
  }

  lemma IdKeyInjective(a: EventId, b: EventId)
    requires IdKey(a) == IdKey(b)
    ensures a == b
  {
    assert IdKey(a)[0] == IdKey(b)[0];
    assert IdKey(a)[1] == IdKey(b)[1];
    if !a.CallerId? {
      assert IdKey(a)[2] == IdKey(b)[2];
      assert IdKey(a)[3] == IdKey(b)[3];
      if a.FeatureId? {
        assert IdKey(a)[4] == IdKey(b)[4];
      }
    }
  }

  // Earlier in the canonical order means earlier in time, and causally earlier at one time.
  lemma EarlierInOrder(a: Event, b: Event)
    requires KeyLe(EventKey()(a), EventKey()(b))
    ensures a.time <= b.time
    ensures a.time == b.time ==> Precedence(a.kind) <= Precedence(b.kind)
  {
    var x, y := EventKey()(a), EventKey()(b);
    assert x[0] == Num(a.time) && y[0] == Num(b.time);
    if a.time == b.time {
      assert x[1..][0] == Num(Precedence(a.kind)) && y[1..][0] == Num(Precedence(b.kind));
    }
  }

  // The canonical order: by time, then causal precedence, then instrument, then identifier.
  lemma OrderExactly(a: Event, b: Event)
    ensures KeyLe(EventKey()(a), EventKey()(b)) <==>
            || a.time < b.time
            || (a.time == b.time
                && (|| Precedence(a.kind) < Precedence(b.kind)
                    || (Precedence(a.kind) == Precedence(b.kind)
                        && if a.instrument.identifier != b.instrument.identifier
                           then TextLe(a.instrument.identifier, b.instrument.identifier)
                           else KeyLe(IdKey(a.id), IdKey(b.id)))))
  {
    var x, y := [Text(a.instrument.identifier)] + IdKey(a.id), [Text(b.instrument.identifier)] + IdKey(b.id);
    var v, w := [Num(Precedence(a.kind))] + x, [Num(Precedence(b.kind))] + y;
    assert EventKey()(a) == [Num(a.time)] + v && EventKey()(b) == [Num(b.time)] + w;
    KeyStep(Num(a.time), v, Num(b.time), w);
    KeyStep(Num(Precedence(a.kind)), x, Num(Precedence(b.kind)), y);
    KeyStep(Text(a.instrument.identifier), IdKey(a.id), Text(b.instrument.identifier), IdKey(b.id));
  }

  lemma KeyStep(p: Part, a: Key, q: Part, b: Key)
    ensures KeyLe([p] + a, [q] + b) <==> if p != q then PartLe(p, q) else KeyLe(a, b)
  {
    assert ([p] + a)[1..] == a && ([q] + b)[1..] == b;
  }

  lemma StrictlyEarlier(a: Event, b: Event)
    requires a.time < b.time || (a.time == b.time && Precedence(a.kind) < Precedence(b.kind))
    ensures !KeyLe(EventKey()(b), EventKey()(a))
  {
    if KeyLe(EventKey()(b), EventKey()(a)) {
      EarlierInOrder(b, a);
    }
  }

  lemma UniqueIdsIdentify(es: seq<Event>)
    requires UniqueIds(es)
    ensures KeysIdentify(EventKey(), es)
  {
    forall a, b | a in es && b in es && EventKey()(a) == EventKey()(b) ensures a == b {
      assert EventKey()(a)[3..] == IdKey(a.id) && EventKey()(b)[3..] == IdKey(b.id);
      IdKeyInjective(a.id, b.id);
      SameIdSameEvent(es, a, b);
    }
  }

  lemma SameIdSameEvent(es: seq<Event>, a: Event, b: Event)
    requires UniqueIds(es) && a in es && b in es
    ensures a.id == b.id ==> a == b
  {
    var i :| 0 <= i < |es| && es[i] == a;
    var j :| 0 <= j < |es| && es[j] == b;
  }

  // Uniqueness does not depend on arrangement.
  lemma UniqueIdsPermute(a: seq<Event>, b: seq<Event>)
    requires multiset(a) == multiset(b) && UniqueIds(a)
    ensures UniqueIds(b)
  {
    DistinctPermute(a, b);
    forall i, j | 0 <= i < j < |b| ensures b[i].id != b[j].id {
      assert b[i] in multiset(a) && b[j] in multiset(a);
      SameIdSameEvent(a, b[i], b[j]);
    }
  }

  lemma FilterUniqueIds(p: Event -> bool, es: seq<Event>)
    requires UniqueIds(es)
    ensures UniqueIds(Filter(p, es))
  {
    if es != [] {
      var front := Front(es);
      FilterUniqueIds(p, front);
      assert es == front + [Last(es)];
      assert forall x :: x in front ==> x.id != Last(es).id;
    }
  }
}
