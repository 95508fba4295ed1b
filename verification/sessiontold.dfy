// What a session's records say, told from the records before them: application/shadow.py.
module SessionTold {
  import opened Collections
  import opened Domain
  import opened Execution
  import opened Risk
  import opened Session
  import opened SessionReplay

  // ----- what the records tell -----

  predicate AcceptedRecord(r: ShadowRecord) { r.observation.Some? && r.disposition == "accepted" }

  // The newest accepted observation of a kind and instrument.
  function NewestAccepted(records: seq<ShadowRecord>, kind: ObservationKind, instrument: Instrument): Option<Observation> {
    if records == [] then None
    else
      var r := Last(records);
      if AcceptedRecord(r) && r.observation.value.Kind() == kind && r.observation.value.Instrument() == instrument
      then r.observation
      else NewestAccepted(Front(records), kind, instrument)
  }

  // The accepted record of a kind, instrument and observation time.
  function AcceptedAt(records: seq<ShadowRecord>, kind: ObservationKind, instrument: Instrument, observed: int)
    : Option<ShadowRecord>
  {
    if records == [] then None
    else
      var r := Last(records);
      if AcceptedRecord(r) && r.observation.value.Kind() == kind && r.observation.value.Instrument() == instrument
         && r.observation.value.Observed() == observed
      then Some(r)
      else AcceptedAt(Front(records), kind, instrument, observed)
  }

  // Whether the last control that says so connected.
  function Connected(records: seq<ShadowRecord>): bool {
    if records == [] then false
    else if Last(records).action == "connected" then true
    else if Last(records).action in {"disconnected", "failed", "stopped"} then false
    else Connected(Front(records))
  }

  // The health the last control leaves while nothing is connected.
  function Unconnected(records: seq<ShadowRecord>): FeedHealth {
    if records == [] then Starting
    else if Last(records).action == "disconnected" then Disconnected
    else if Last(records).action == "failed" then Failed
    else if Last(records).action == "stopped" then Stopped
    else Unconnected(Front(records))
  }

  // The session remembers exactly what its records accepted.
  ghost predicate LatestTold(s: SessionState, k: (ObservationKind, Instrument)) {
    && (k in s.latest <==> NewestAccepted(s.records, k.0, k.1).Some?)
    && (k in s.latest ==> NewestAccepted(s.records, k.0, k.1) == Some(s.latest[k]))
  }

  ghost predicate SeenTold(s: SessionState, k: (ObservationKind, Instrument, int)) {
    && (k in s.seen <==> AcceptedAt(s.records, k.0, k.1, k.2).Some?)
    && (k in s.seen ==>
          var r := AcceptedAt(s.records, k.0, k.1, k.2).value;
          r.observation == Some(s.seen[k].0) && r.delivery == s.seen[k].1)
  }

  ghost predicate QuoteTold(s: SessionState, i: Instrument) {
    && (i in s.quotes <==> NewestAccepted(s.records, QuoteKind, i).Some?)
    && (i in s.quotes ==> NewestAccepted(s.records, QuoteKind, i) == Some(QuoteSeen(s.quotes[i])))
  }

  ghost predicate Told(s: SessionState) {
    && s.connected == Connected(s.records)
    && (!s.connected && !Terminal(s.health) ==> s.health == Unconnected(s.records))
    && (forall k :: LatestTold(s, k)) && (forall k :: SeenTold(s, k)) && (forall i :: QuoteTold(s, i))
  }

  // ----- what a recorded call does -----

  // An accepted observation is remembered with its delivery, anything else leaves memory alone.
  ghost predicate Remembers(s: SessionState, t: SessionState, r: ShadowRecord) {
    if AcceptedRecord(r) then
      var o := r.observation.value;
      && t.latest == s.latest[Key(o) := o] && t.seen == s.seen[IdentityOf(o) := (o, r.delivery)]
      && t.quotes == (if o.QuoteSeen? then s.quotes[o.quote.instrument := o.quote] else s.quotes)
    else t.latest == s.latest && t.seen == s.seen && t.quotes == s.quotes
  }

  ghost predicate Appends(config: ShadowConfig, s: SessionState, t: SessionState, r: ShadowRecord) {
    && t.records == s.records + [r] && r.health == t.health && r.sequence == |s.records| && r.session == config.session
    && t.now == Some(r.time) && !Terminal(s.health) && (s.now.Some? ==> s.now.value <= r.time)
    && |s.records| < config.maximumRecords
    && Remembers(s, t, r)
    && (if r.action == "connected" then t.connected
        else if r.action in {"disconnected", "failed", "stopped"} then !t.connected
        else t.connected == s.connected)
    && t.health == (if r.action == "disconnected" then Disconnected
                    else if r.action == "failed" then Failed
                    else if r.action == "stopped" then Stopped
                    else RefreshedHealth(config, t.(health := s.health), r.time))
  }

  lemma AdvancePast(config: ShadowConfig, s: SessionState, now: int)
    requires Advance(config, s, now).1.None?
    ensures Advance(config, s, now).0 == s.(now := Some(now))
    ensures (s.now.Some? ==> s.now.value <= now) && |s.records| < config.maximumRecords
  {
  }

  // Health depends on what is connected, remembered and was terminal.
  lemma SameHealth(config: ShadowConfig, a: SessionState, b: SessionState, now: int)
    requires a.connected == b.connected && a.health == b.health && a.latest == b.latest
    ensures RefreshedHealth(config, a, now) == RefreshedHealth(config, b, now)
  {
    assert AllFresh(config, a, now) == AllFresh(config, b, now);
  }

  // What a control makes of connection and health.
  ghost predicate ControlsTo(config: ShadowConfig, s: SessionState, u: SessionState, action: string, now: int) {
    && u == s.(connected := u.connected, health := u.health)
    && u.connected == (if action == "connected" then true
                       else if action in {"disconnected", "failed", "stopped"} then false else s.connected)
    && u.health == (if action == "disconnected" then Disconnected
                    else if action == "failed" then Failed
                    else if action == "stopped" then Stopped
                    else RefreshedHealth(config, u.(health := s.health), now))
  }

  lemma RefreshedTo(config: ShadowConfig, s: SessionState, connected: bool, now: int)
    ensures var a := s.(connected := connected);
            var u := Refreshed(config, a, now);
            u == a.(health := u.health) && u.health == RefreshedHealth(config, u.(health := s.health), now)
  {
    var a := s.(connected := connected);
    SameHealth(config, a, Refreshed(config, a, now).(health := s.health), now);
  }

  lemma ControlledTo(config: ShadowConfig, s: SessionState, action: string, now: int)
    requires action in CONTROLS
    ensures ControlsTo(config, s, Controlled(config, s, action, now), action, now)
  {
    if action == "connected" {
      RefreshedTo(config, s, true, now);
    } else if action == "tick" {
      RefreshedTo(config, s, s.connected, now);
      assert s.(connected := s.connected) == s;
    }
  }

  lemma NotedAppends(
    config: ShadowConfig, s: SessionState, u: SessionState, now: int, action: string, disposition: string)
    requires !Terminal(s.health) && (s.now.Some? ==> s.now.value <= now) && |s.records| < config.maximumRecords
    requires ControlsTo(config, s.(now := Some(now)), u, action, now)
    ensures var (t, result) := Noted(config, u, now, action, disposition, None, "", NothingDerived);
            result.Ok? && Appends(config, s, t, result.value) && result.value.action == action
            && result.value.observation.None?
  {
    var (t, result) := Noted(config, u, now, action, disposition, None, "", NothingDerived);
    SameHealth(config, u.(health := s.health), t.(health := s.health), now);
  }

  lemma ControlAppends(config: ShadowConfig, s: SessionState, action: string, now: int, detail: string)
    ensures var (t, result) := ControlStep(config, s, action, now, detail);
            result.Ok? ==> Appends(config, s, t, result.value) && result.value.action == action
                           && result.value.observation.None?
  {
    var (t, result) := ControlStep(config, s, action, now, detail);
    if result.Ok? {
      AdvancePast(config, s, now);
      ControlledTo(config, s.(now := Some(now)), action, now);
      NotedAppends(config, s, Controlled(config, s.(now := Some(now)), action, now), now, action,
                   if detail != "" then detail else action);
    }
  }

  lemma InvalidAppends(config: ShadowConfig, s: SessionState, now: int, detail: string, delivery: string)
    ensures var (t, result) := InvalidStep(config, s, now, detail, delivery);
            result.Ok? ==> Appends(config, s, t, result.value) && result.value.action == "observation"
                           && result.value.observation.None?
  {
    var (t, result) := InvalidStep(config, s, now, detail, delivery);
    if result.Ok? {
      AdvancePast(config, s, now);
    }
  }

  lemma ConcludedAppends(
    config: ShadowConfig, s: SessionState, u: SessionState, o: Observation, delivery: string, now: int,
    disposition: string, derived: Option<Derived>)
    requires !Terminal(s.health) && (s.now.Some? ==> s.now.value <= now) && |s.records| < config.maximumRecords
    requires u.records == s.records && u.connected == s.connected && u.health == s.health && u.now == Some(now)
    requires u.latest == (if disposition == "accepted" then s.latest[Key(o) := o] else s.latest)
    requires u.seen == (if disposition == "accepted" then s.seen[IdentityOf(o) := (o, delivery)] else s.seen)
    requires u.quotes == (if disposition == "accepted" && o.QuoteSeen? then s.quotes[o.quote.instrument := o.quote]
                          else s.quotes)
    ensures var (t, result) := Concluded(config, u, o, delivery, now, disposition, derived);
            result.Ok? ==> Appends(config, s, t, result.value)
  {
  }

  lemma ReceivedAppends(config: ShadowConfig, s: SessionState, o: Observation, delivery: string, now: int)
    requires config.Valid() && InSessionScope(config, o) && !Terminal(s.health)
    requires (s.now.Some? ==> s.now.value <= now) && |s.records| < config.maximumRecords
    ensures var (t, result) := Received(config, s.(now := Some(now)), o, delivery, now);
            result.Ok? ==> Appends(config, s, t, result.value)
  {
    var a := s.(now := Some(now));
    var disposition := Disposition(a, o, delivery);
    ReceivedData(config, a, o, delivery, now);
    var u := if disposition == "accepted" then Taken(config, a, o, delivery) else a;
    var derived := if disposition == "accepted" then DerivedBy(config, a, o, delivery, now) else Some(NothingDerived);
    ConcludedAppends(config, s, u, o, delivery, now, disposition, derived);
  }

  lemma AcceptAppends(config: ShadowConfig, s: SessionState, o: Observation, delivery: string)
    requires config.Valid()
    ensures var (t, result) := AcceptStep(config, s, o, delivery);
            result.Ok? ==> Appends(config, s, t, result.value)
  {
    AcceptCases(config, s, o, delivery);
    var (a, fault) := Advance(config, s, o.Available());
    if fault.None? && !Terminal(a.health) && InSessionScope(config, o) {
      AdvancePast(config, s, o.Available());
      ReceivedAppends(config, s, o, delivery, o.Available());
    }
  }

  // Every recorded call appends its record and remembers what it accepted.
  lemma StepAppends(config: ShadowConfig, s: SessionState, c: SessionCall)
    requires config.Valid()
    ensures var (t, result) := CallStep(config, s, c); result.Ok? ==> Appends(config, s, t, result.value)
  {
    match c
    case ControlCall(action, now, detail) => ControlAppends(config, s, action, now, detail);
    case InvalidCall(now, detail, delivery) => InvalidAppends(config, s, now, detail, delivery);
    case AcceptCall(o, delivery) => AcceptAppends(config, s, o, delivery);
  }

  // ----- memory over whole histories -----

  lemma ToldSnoc(s: SessionState, t: SessionState, r: ShadowRecord)
    requires t.records == s.records + [r]
    ensures Front(t.records) == s.records && Last(t.records) == r
  {
  }

  lemma LatestNext(s: SessionState, t: SessionState, r: ShadowRecord, k: (ObservationKind, Instrument))
    requires LatestTold(s, k) && Remembers(s, t, r) && t.records == s.records + [r]
    ensures LatestTold(t, k)
  {
    ToldSnoc(s, t, r);
  }

  lemma SeenNext(s: SessionState, t: SessionState, r: ShadowRecord, k: (ObservationKind, Instrument, int))
    requires SeenTold(s, k) && Remembers(s, t, r) && t.records == s.records + [r]
    ensures SeenTold(t, k)
  {
    ToldSnoc(s, t, r);
  }

  lemma QuoteNext(s: SessionState, t: SessionState, r: ShadowRecord, i: Instrument)
    requires QuoteTold(s, i) && Remembers(s, t, r) && t.records == s.records + [r]
    ensures QuoteTold(t, i)
  {
    ToldSnoc(s, t, r);
  }

  lemma ToldNext(config: ShadowConfig, s: SessionState, t: SessionState, r: ShadowRecord)
    requires Told(s) && Appends(config, s, t, r)
    ensures Told(t)
  {
    ToldSnoc(s, t, r);
    forall k ensures LatestTold(t, k) {
      assert LatestTold(s, k);
      LatestNext(s, t, r, k);
    }
    forall k ensures SeenTold(t, k) {
      assert SeenTold(s, k);
      SeenNext(s, t, r, k);
    }
    forall i ensures QuoteTold(t, i) {
      assert QuoteTold(s, i);
      QuoteNext(s, t, r, i);
    }
  }

  // A call that raises leaves memory alone, and can only make the session terminal.
  ghost predicate Keeps(s: SessionState, t: SessionState) {
    && t.records == s.records && t.latest == s.latest && t.seen == s.seen && t.quotes == s.quotes
    && t.connected == s.connected && (t.health == s.health || Terminal(t.health))
  }

  lemma ToldStill(s: SessionState, t: SessionState)
    requires Told(s) && Keeps(s, t)
    ensures Told(t)
  {
    forall k ensures LatestTold(t, k) {
      assert LatestTold(s, k);
    }
    forall k ensures SeenTold(t, k) {
      assert SeenTold(s, k);
    }
    forall i ensures QuoteTold(t, i) {
      assert QuoteTold(s, i);
    }
  }

  lemma AdvanceCases(config: ShadowConfig, s: SessionState, now: int)
    ensures Advance(config, s, now).0 == s.(health := Failed) || Advance(config, s, now).0 == s.(now := Some(now))
  {
  }

  lemma AdvanceKeeps(config: ShadowConfig, s: SessionState, now: int)
    ensures Keeps(s, Advance(config, s, now).0)
  {
    AdvanceCases(config, s, now);
    assert Keeps(s, s.(health := Failed)) && Keeps(s, s.(now := Some(now)));
  }

  lemma NotedOk(config: ShadowConfig, s: SessionState, now: int, action: string, disposition: string, delivery: string)
    ensures Noted(config, s, now, action, disposition, None, delivery, NothingDerived).1.Ok?
  {
  }

  lemma ControlRaises(config: ShadowConfig, s: SessionState, action: string, now: int, detail: string)
    requires ControlStep(config, s, action, now, detail).1.Err?
    ensures ControlStep(config, s, action, now, detail).0 == Advance(config, s, now).0
  {
    var a := Advance(config, s, now).0;
    NotedOk(config, Controlled(config, a, action, now), now, action, if detail != "" then detail else action, "");
  }

  lemma InvalidRaises(config: ShadowConfig, s: SessionState, now: int, detail: string, delivery: string)
    requires InvalidStep(config, s, now, detail, delivery).1.Err?
    ensures InvalidStep(config, s, now, detail, delivery).0 == Advance(config, s, now).0
  {
    NotedOk(config, Refreshed(config, Advance(config, s, now).0, now), now, "observation", "invalid:" + detail, delivery);
  }

  lemma AcceptRaises(config: ShadowConfig, s: SessionState, o: Observation, delivery: string)
    requires config.Valid()
    requires var (a, fault) := Advance(config, s, o.Available());
             fault.Some? || Terminal(a.health) || !InSessionScope(config, o)
    ensures Keeps(s, AcceptStep(config, s, o, delivery).0)
  {
    AdvanceKeeps(config, s, o.Available());
  }

  lemma AcceptKeeps(config: ShadowConfig, s: SessionState, o: Observation, delivery: string)
    requires config.Valid() && Reachable(config, s) && (Recordable(config, s) || !InSessionScope(config, o))
    requires AcceptStep(config, s, o, delivery).1.Err?
    ensures Keeps(s, AcceptStep(config, s, o, delivery).0)
  {
    var (a, fault) := Advance(config, s, o.Available());
    if fault.None? && !Terminal(a.health) && InSessionScope(config, o) {
      AcceptPast(config, s, a, o, delivery);
      MovedRecords(config, s, a, o, delivery);
    } else {
      AcceptRaises(config, s, o, delivery);
    }
  }

  // No call of the history reaches an observation that could fail to be recorded.
  ghost predicate Recording(config: ShadowConfig, s: SessionState, c: SessionCall) {
    Recordable(config, s) || OutOfScope(config, c)
  }

  lemma StepKeeps(config: ShadowConfig, s: SessionState, c: SessionCall)
    requires config.Valid() && Reachable(config, s) && Recording(config, s, c) && CallStep(config, s, c).1.Err?
    ensures Keeps(s, CallStep(config, s, c).0)
  {
    match c
    case ControlCall(action, now, detail) =>
      ControlRaises(config, s, action, now, detail);
      AdvanceKeeps(config, s, now);
    case InvalidCall(now, detail, delivery) =>
      InvalidRaises(config, s, now, detail, delivery);
      AdvanceKeeps(config, s, now);
    case AcceptCall(o, delivery) => AcceptKeeps(config, s, o, delivery);
  }

  lemma StepTold(config: ShadowConfig, s: SessionState, c: SessionCall)
    requires config.Valid() && Reachable(config, s) && Recording(config, s, c) && Told(s)
    ensures Told(CallStep(config, s, c).0)
  {
    var (t, result) := CallStep(config, s, c);
    if result.Ok? {
      StepAppends(config, s, c);
      ToldNext(config, s, t, result.value);
    } else {
      StepKeeps(config, s, c);
      ToldStill(s, t);
    }
  }

  // ----- health -----

  // The newest accepted bar of the instrument was available by then and is not too old.
  predicate FreshAt(config: ShadowConfig, up: seq<ShadowRecord>, instrument: Instrument, time: int) {
    var o := NewestAccepted(up, BarKind, instrument);
    o.Some? && o.value.Available() <= time && time - o.value.Observed() <= config.maximumBarAge
  }

  // While connected, health is healthy exactly when every strategy's instrument has a fresh newest
  // bar, stale when not but some bar was accepted, and starting when none was; otherwise it is what
  // the last control left.
  ghost predicate SaysHealth(config: ShadowConfig, up: seq<ShadowRecord>)
    requires up != []
  {
    var r := Last(up);
    if Connected(up) then
      && (r.health == Healthy <==> forall c :: c in config.strategies ==> FreshAt(config, up, c.instrument, r.time))
      && (r.health == Stale <==>
            && (exists c :: c in config.strategies && !FreshAt(config, up, c.instrument, r.time))
            && (exists c :: c in config.strategies && NewestAccepted(up, BarKind, c.instrument).Some?))
      && (r.health == Starting <==>
            forall c :: c in config.strategies ==> NewestAccepted(up, BarKind, c.instrument).None?)
    else r.health == Unconnected(up)
  }

  lemma FreshTold(config: ShadowConfig, t: SessionState, instrument: Instrument, now: int)
    requires LatestTold(t, (BarKind, instrument))
    ensures BarIsFresh(config, t, instrument, now) <==> FreshAt(config, t.records, instrument, now)
    ensures (BarKind, instrument) in t.latest <==> NewestAccepted(t.records, BarKind, instrument).Some?
  {
  }

  lemma RefreshedTold(config: ShadowConfig, t: SessionState, now: int)
    requires (forall k :: LatestTold(t, k)) && config.strategies != [] && t.connected && !Terminal(t.health)
    ensures var h := RefreshedHealth(config, t, now);
            && (h == Healthy <==> forall c :: c in config.strategies ==> FreshAt(config, t.records, c.instrument, now))
            && (h == Stale <==>
                  && (exists c :: c in config.strategies && !FreshAt(config, t.records, c.instrument, now))
                  && (exists c :: c in config.strategies && NewestAccepted(t.records, BarKind, c.instrument).Some?))
            && (h == Starting <==>
                  forall c :: c in config.strategies ==> NewestAccepted(t.records, BarKind, c.instrument).None?)
  {
    forall c | c in config.strategies
      ensures BarIsFresh(config, t, c.instrument, now) <==> FreshAt(config, t.records, c.instrument, now)
      ensures (BarKind, c.instrument) in t.latest <==> NewestAccepted(t.records, BarKind, c.instrument).Some?
    {
      assert LatestTold(t, (BarKind, c.instrument));
      FreshTold(config, t, c.instrument, now);
    }
    assert config.strategies[0] in config.strategies;
  }

  lemma HealthSaid(config: ShadowConfig, s: SessionState, t: SessionState, r: ShadowRecord)
    requires Told(t) && Appends(config, s, t, r) && config.strategies != []
    ensures t.records != [] && SaysHealth(config, t.records)
  {
    ToldSnoc(s, t, r);
    if Connected(t.records) {
      var x := t.(health := s.health);
      forall k ensures LatestTold(x, k) {
        assert LatestTold(t, k);
      }
      RefreshedTold(config, x, r.time);
    }
  }

  // ----- dispositions -----

  // The same observation but for when it was received.
  predicate SameValue(a: Observation, b: Observation) {
    if a.BarSeen? && b.BarSeen? then a.bar == b.bar.(available := a.bar.available)
    else a.QuoteSeen? && b.QuoteSeen? && a.quote == b.quote.(available := a.quote.available)
  }

  // How an observation stands to the accepted ones before it: nothing is taken while unconnected; a
  // repeated time is a duplicate if value and delivery agree and a variant otherwise; an earlier
  // time than the newest is out of order; anything else is accepted.
  function Stands(before: seq<ShadowRecord>, o: Observation, delivery: string): string {
    var prior := AcceptedAt(before, o.Kind(), o.Instrument(), o.Observed());
    var newest := NewestAccepted(before, o.Kind(), o.Instrument());
    if !Connected(before) then "disconnected"
    else if prior.Some? then
      if prior.value.observation.Some? && SameValue(o, prior.value.observation.value)
         && (delivery == "" || prior.value.delivery == "" || delivery == prior.value.delivery)
      then "duplicate" else "same_time_variant"
    else if newest.Some? && o.Observed() < newest.value.Observed() then "out_of_order"
    else "accepted"
  }

  lemma SameKind(o: Observation, prior: Observation)
    requires o.Kind() == prior.Kind()
    ensures o.ReceivedAt(prior.Available()) == prior <==> SameValue(o, prior)
  {
  }

  lemma {:induction false} AcceptedKind(records: seq<ShadowRecord>, kind: ObservationKind, instrument: Instrument, observed: int)
    requires AcceptedAt(records, kind, instrument, observed).Some?
    ensures var r := AcceptedAt(records, kind, instrument, observed).value;
            AcceptedRecord(r) && r.observation.value.Kind() == kind
  {
    if records != [] && AcceptedAt(Front(records), kind, instrument, observed).Some? {
      AcceptedKind(Front(records), kind, instrument, observed);
    }
  }

  lemma DispositionTold(s: SessionState, o: Observation, delivery: string)
    requires s.connected == Connected(s.records) && LatestTold(s, Key(o)) && SeenTold(s, IdentityOf(o))
    ensures Disposition(s, o, delivery) == Stands(s.records, o, delivery)
  {
    if IdentityOf(o) in s.seen {
      AcceptedKind(s.records, o.Kind(), o.Instrument(), o.Observed());
      SameKind(o, s.seen[IdentityOf(o)].0);
    }
  }

  // A record of an observation says how it stood; nothing else carries one.
  ghost predicate SaysDisposition(up: seq<ShadowRecord>)
    requires up != []
  {
    var r := Last(up);
    r.observation.Some? ==> r.disposition == Stands(Front(up), r.observation.value, r.delivery)
  }

  lemma AcceptStands(config: ShadowConfig, s: SessionState, o: Observation, delivery: string)
    requires config.Valid() && Told(s) && AcceptStep(config, s, o, delivery).1.Ok?
    ensures var r := AcceptStep(config, s, o, delivery).1.value;
            && r.observation == Some(o) && r.delivery == delivery && r.time == o.Available()
            && InSessionScope(config, o) && r.disposition == Stands(s.records, o, delivery)
  {
    AcceptCases(config, s, o, delivery);
    var (a, fault) := Advance(config, s, o.Available());
    if fault.None? && !Terminal(a.health) && InSessionScope(config, o) {
      AdvancePast(config, s, o.Available());
      ReceivedCases(config, a, o, delivery, o.Available());
      AcceptAppends(config, s, o, delivery);
      assert LatestTold(s, Key(o)) && SeenTold(s, IdentityOf(o));
      DispositionTold(s, o, delivery);
      assert Disposition(a, o, delivery) == Disposition(s, o, delivery);
      ReceivedTime(config, a, o, delivery, o.Available());
    }
  }

  lemma ReceivedTime(config: ShadowConfig, s: SessionState, o: Observation, delivery: string, now: int)
    requires config.Valid() && InSessionScope(config, o)
    ensures var result := Received(config, s, o, delivery, now).1; result.Ok? ==> result.value.time == now
  {
  }

  lemma DispositionSaid(config: ShadowConfig, s: SessionState, c: SessionCall)
    requires config.Valid() && Told(s) && CallStep(config, s, c).1.Ok?
    ensures var t := CallStep(config, s, c).0; t.records != [] && SaysDisposition(t.records)
  {
    var (t, result) := CallStep(config, s, c);
    StepAppends(config, s, c);
    ToldSnoc(s, t, result.value);
    match c
    case ControlCall(action, now, detail) => ControlAppends(config, s, action, now, detail);
    case InvalidCall(now, detail, delivery) => InvalidAppends(config, s, now, detail, delivery);
    case AcceptCall(o, delivery) => AcceptStands(config, s, o, delivery);
  }

  // ----- which calls raise -----

  function TimeOf(c: SessionCall): int { if c.AcceptCall? then c.observation.Available() else c.time }

  // An observation of a watched instrument, received by the system from the session's source; bars
  // are minute bars.
  predicate OfTheSession(config: ShadowConfig, o: Observation) {
    && (exists c :: c in config.strategies && c.instrument == o.Instrument())
    && o.Source() == config.source && o.Semantics() == SystemReceived
    && (o.BarSeen? ==> o.bar.interval == 60_000_000)
  }

  // A call raises when the clock would go back or the records are full, which fails the session, on
  // a terminal session or an unknown control, and on an observation not of the session, which fails
  // it too; any other call is recorded.
  lemma RaisesExactly(config: ShadowConfig, s: SessionState, c: SessionCall)
    requires config.Valid() && Reachable(config, s) && Recording(config, s, c)
    ensures var (t, result) := CallStep(config, s, c);
            if (s.now.Some? && TimeOf(c) < s.now.value) || |s.records| >= config.maximumRecords then
              result.Err? && t == s.(health := Failed)
            else if s.health in {Failed, Stopped}
                    || (c.ControlCall? && c.action !in {"connected", "disconnected", "failed", "stopped", "tick"}) then
              result.Err? && t == s.(now := Some(TimeOf(c)))
            else if c.AcceptCall? && !OfTheSession(config, c.observation) then
              result.Err? && t == s.(now := Some(TimeOf(c)), health := Failed)
            else result.Ok?
  {
    match c
    case ControlCall(action, now, detail) => ControlRaisesExactly(config, s, action, now, detail);
    case InvalidCall(now, detail, delivery) =>
    case AcceptCall(o, delivery) => AcceptRaisesExactly(config, s, o, delivery);
  }

  lemma ControlRaisesExactly(config: ShadowConfig, s: SessionState, action: string, now: int, detail: string)
    ensures var (t, result) := ControlStep(config, s, action, now, detail);
            if (s.now.Some? && now < s.now.value) || |s.records| >= config.maximumRecords then
              result.Err? && t == s.(health := Failed)
            else if s.health in {Failed, Stopped}
                    || action !in {"connected", "disconnected", "failed", "stopped", "tick"} then
              result.Err? && t == s.(now := Some(now))
            else result.Ok?
  {
  }

  lemma AcceptRaisesExactly(config: ShadowConfig, s: SessionState, o: Observation, delivery: string)
    requires config.Valid() && Reachable(config, s) && (Recordable(config, s) || !InSessionScope(config, o))
    ensures var (t, result) := AcceptStep(config, s, o, delivery);
            if (s.now.Some? && o.Available() < s.now.value) || |s.records| >= config.maximumRecords then
              result.Err? && t == s.(health := Failed)
            else if s.health in {Failed, Stopped} then result.Err? && t == s.(now := Some(o.Available()))
            else if !OfTheSession(config, o) then result.Err? && t == s.(now := Some(o.Available()), health := Failed)
            else result.Ok?
  {
    var (a, fault) := Advance(config, s, o.Available());
    if fault.None? && !Terminal(a.health) && InSessionScope(config, o) {
      AcceptPast(config, s, a, o, delivery);
      MovedRecords(config, s, a, o, delivery);
    } else {
      AcceptStopsAt(config, s, o, delivery);
    }
  }

  lemma AcceptStopsAt(config: ShadowConfig, s: SessionState, o: Observation, delivery: string)
    requires config.Valid()
    requires var (a, fault) := Advance(config, s, o.Available());
             fault.Some? || Terminal(a.health) || !InSessionScope(config, o)
    ensures var (a, fault) := Advance(config, s, o.Available());
            && AcceptStep(config, s, o, delivery).1.Err?
            && AcceptStep(config, s, o, delivery).0 == if fault.Some? || Terminal(a.health) then a else a.(health := Failed)
  {
  }
}
