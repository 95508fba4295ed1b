// What a session derives from an accepted bar, told from its records: application/shadow.py.
module SessionDerived {
  import opened Collections
  import opened Domain
  import opened Kernel
  import opened Strategy
  import opened Execution
  import opened Risk
  import opened Authority
  import opened Session
  import opened SessionReplay
  import opened SessionTold

  // The intent buys the configured quantity for the signal, in the session's scope.
  ghost predicate IntentSays(config: ShadowConfig, s: Signal, i: OrderIntent) {
    && i.scope == config.session && i.signal == s && i.instrument == s.instrument && i.time == s.decided
    && (i.side == Buy <==> s.kind == LongEntry)
    && exists q :: q in config.quantities && q.instrument == s.instrument
                   && i.quantity == q.quantity && i.quantityConfiguration == q.configuration
  }

  // The newest accepted quote, if it was available by then and is not too old.
  function UsableQuote(config: ShadowConfig, up: seq<ShadowRecord>, instrument: Instrument, time: int): Option<Quote> {
    var o := NewestAccepted(up, QuoteKind, instrument);
    if o.Some? && o.value.QuoteSeen? && o.value.quote.available <= time
       && time - o.value.quote.observed <= config.maximumQuoteAge
    then Some(o.value.quote) else None
  }

  // Risk is judged over the usable quote and the configured state, when there are both.
  ghost predicate RiskSays(config: ShadowConfig, up: seq<ShadowRecord>, i: OrderIntent, f: FeatureSnapshot, v: RiskView, time: int) {
    var quote := UsableQuote(config, up, i.instrument, time);
    if quote.None? then v.QuoteNotReady?
    else if config.observability.None? then v == OperationalStateUnavailable(quote.value)
    else
      && v.RiskEvaluated? && v.quote == quote.value && v.decision.intent == i && v.decision.decided == time
      && Judged(Question(i, config.policy, config.observability.value, f, quote.value, time), v.decision.reasons)
      && (v.decision.status == Authorized <==> v.decision.reasons == {})
  }

  // An accepted bar carries its feature; with a bar that is not too old, the signal the decision
  // rule gives for a flat position, and with a signal its intent and risk. Nothing else carries any.
  ghost predicate SaysDerived(config: ShadowConfig, up: seq<ShadowRecord>)
    requires up != []
  {
    var r := Last(up);
    if AcceptedRecord(r) && r.observation.value.BarSeen? then
      var bar := r.observation.value.bar;
      && Watches(config.strategies, bar.instrument) && r.time == bar.available && r.feature.Some?
      && r.feature.value.instrument == bar.instrument && r.feature.value.observed == bar.observed
      && r.signal == (if r.time - bar.observed <= config.maximumBarAge
                      then EvaluateMeanReversion(r.feature.value, StrategyFor(config.strategies, bar.instrument),
                                                 PositionFlat, r.time)
                      else None)
      && (r.intent.Some? <==> r.signal.Some?) && (r.risk.Some? <==> r.signal.Some?)
      && (r.signal.Some? ==>
            && IntentSays(config, r.signal.value, r.intent.value)
            && RiskSays(config, up, r.intent.value, r.feature.value, r.risk.value, r.time))
    else r.feature.None? && r.signal.None? && r.intent.None? && r.risk.None?
  }

  lemma IntentSaid(config: ShadowConfig, s: Signal)
    requires exists q :: q in config.quantities && q.instrument == s.instrument
    ensures IntentSays(config, s, IntentFor(config, s))
  {
  }

  lemma QuoteTells(config: ShadowConfig, s: SessionState, up: seq<ShadowRecord>, i: Instrument, now: int)
    requires i in s.quotes <==> NewestAccepted(up, QuoteKind, i).Some?
    requires i in s.quotes ==> NewestAccepted(up, QuoteKind, i) == Some(QuoteSeen(s.quotes[i]))
    ensures FreshQuote(config, s, i, now) == UsableQuote(config, up, i, now)
  {
  }

  lemma RiskSaid(
    config: ShadowConfig, s: SessionState, up: seq<ShadowRecord>, i: OrderIntent, f: FeatureSnapshot, now: int)
    requires FreshQuote(config, s, i.instrument, now) == UsableQuote(config, up, i.instrument, now)
    ensures RiskSays(config, up, i, f, RiskFor(config, s, i, f, now), now)
  {
    var quote := FreshQuote(config, s, i.instrument, now);
    if quote.Some? && config.observability.Some? {
      EvaluatedJudged(Question(i, config.policy, config.observability.value, f, quote.value, now));
    }
  }

  // What deriving from a bar gives, in the session that has just taken it.
  ghost predicate Derives(config: ShadowConfig, up: seq<ShadowRecord>, bar: Bar, d: Derived)
  {
    && Watches(config.strategies, bar.instrument) && d.feature.Some?
    && d.feature.value.instrument == bar.instrument && d.feature.value.observed == bar.observed
    && d.signal == (if bar.available - bar.observed <= config.maximumBarAge
                    then EvaluateMeanReversion(d.feature.value, StrategyFor(config.strategies, bar.instrument),
                                               PositionFlat, bar.available)
                    else None)
    && (d.intent.Some? <==> d.signal.Some?) && (d.risk.Some? <==> d.signal.Some?)
    && (d.signal.Some? ==>
          && IntentSays(config, d.signal.value, d.intent.value)
          && RiskSays(config, up, d.intent.value, d.feature.value, d.risk.value, bar.available))
  }

  lemma DeriveSaid(
    config: ShadowConfig, u: SessionState, up: seq<ShadowRecord>, bar: Bar, f: FeatureSnapshot)
    requires config.Valid() && Watches(config.strategies, bar.instrument)
    requires f.instrument == bar.instrument && f.observed == bar.observed
    requires u.latest.Keys >= {(BarKind, bar.instrument)} && u.latest[(BarKind, bar.instrument)] == BarSeen(bar)
    requires forall i :: FreshQuote(config, u, i, bar.available) == UsableQuote(config, up, i, bar.available)
    requires exists q :: q in config.quantities && q.instrument == f.instrument
    ensures Derives(config, up, bar, Derive(config, u, StrategyFor(config.strategies, bar.instrument), f, bar.available))
  {
    var strategy, now := StrategyFor(config.strategies, bar.instrument), bar.available;
    assert BarIsFresh(config, u, f.instrument, now) <==> now - bar.observed <= config.maximumBarAge;
    var signal := EvaluateMeanReversion(f, strategy, PositionFlat, now);
    if BarIsFresh(config, u, f.instrument, now) && signal.Some? {
      IntentSaid(config, signal.value);
      RiskSaid(config, u, up, IntentFor(config, signal.value), f, now);
    }
  }

  lemma LastScore(history: seq<Bar>, window: nat, dataset: string)
    requires history != [] && window > 0
    ensures var f := Last(ZScores(history, window, dataset));
            f.instrument == Last(history).instrument && f.observed == Last(history).observed
  {
    ZScoresAt(history, window, dataset, |history| - 1);
  }

  lemma DerivedIs(config: ShadowConfig, u: SessionState, history: seq<Bar>, now: int)
    requires config.Valid() && history != [] && Watches(config.strategies, Last(history).instrument)
    requires DerivedFrom(config, u, history, now).Some?
    ensures var strategy := StrategyFor(config.strategies, Last(history).instrument);
            var f := Last(ZScores(history, strategy.window, config.session));
            && f.instrument == Last(history).instrument && f.observed == Last(history).observed
            && (exists q :: q in config.quantities && q.instrument == f.instrument)
            && DerivedFrom(config, u, history, now).value == Derive(config, u, strategy, f, now)
  {
    var strategy := StrategyFor(config.strategies, Last(history).instrument);
    QuantityExists(config, Last(history).instrument);
    LastScore(history, strategy.window, config.session);
  }

  // Memory that tells the newest bar and every usable quote.
  ghost predicate Tells(config: ShadowConfig, u: SessionState, up: seq<ShadowRecord>, bar: Bar) {
    && (BarKind, bar.instrument) in u.latest && u.latest[(BarKind, bar.instrument)] == BarSeen(bar)
    && forall i :: FreshQuote(config, u, i, bar.available) == UsableQuote(config, up, i, bar.available)
  }

  lemma DerivedFromSaid(config: ShadowConfig, u: SessionState, up: seq<ShadowRecord>, history: seq<Bar>)
    requires config.Valid() && history != [] && Watches(config.strategies, Last(history).instrument)
    requires Tells(config, u, up, Last(history))
    requires DerivedFrom(config, u, history, Last(history).available).Some?
    ensures Derives(config, up, Last(history), DerivedFrom(config, u, history, Last(history).available).value)
  {
    var bar := Last(history);
    var strategy := StrategyFor(config.strategies, bar.instrument);
    DerivedIs(config, u, history, bar.available);
    DeriveSaid(config, u, up, bar, Last(ZScores(history, strategy.window, config.session)));
  }

  lemma ConcludedDerived(
    config: ShadowConfig, u: SessionState, o: Observation, delivery: string, now: int, disposition: string,
    derived: Option<Derived>)
    requires Concluded(config, u, o, delivery, now, disposition, derived).1.Ok?
    ensures var r := Concluded(config, u, o, delivery, now, disposition, derived).1.value;
            && derived.Some? && r.observation == Some(o) && r.disposition == disposition && r.time == now
            && r.feature == derived.value.feature && r.signal == derived.value.signal
            && r.intent == derived.value.intent && r.risk == derived.value.risk
  {
  }

  lemma TakenTells(config: ShadowConfig, a: SessionState, bar: Bar, delivery: string, t: SessionState)
    requires config.Valid() && InSessionScope(config, BarSeen(bar)) && Told(t)
    requires var u := Taken(config, a, BarSeen(bar), delivery); t.latest == u.latest && t.quotes == u.quotes
    ensures Tells(config, Taken(config, a, BarSeen(bar), delivery), t.records, bar)
  {
    var u := Taken(config, a, BarSeen(bar), delivery);
    forall i ensures FreshQuote(config, u, i, bar.available) == UsableQuote(config, t.records, i, bar.available) {
      assert QuoteTold(t, i);
      QuoteTells(config, u, t.records, i, bar.available);
    }
  }

  // An accepted bar.
  lemma BarSaid(config: ShadowConfig, a: SessionState, bar: Bar, delivery: string)
    requires config.Valid() && InSessionScope(config, BarSeen(bar))
    requires Disposition(a, BarSeen(bar), delivery) == "accepted"
    requires var (t, result) := Received(config, a, BarSeen(bar), delivery, bar.available);
             result.Ok? && Told(t) && t.records == a.records + [result.value]
    ensures SaysDerived(config, Received(config, a, BarSeen(bar), delivery, bar.available).0.records)
  {
    var o := BarSeen(bar);
    var (t, result) := Received(config, a, o, delivery, bar.available);
    var u := Taken(config, a, o, delivery);
    ReceivedData(config, a, o, delivery, bar.available);
    ConcludedData(config, u, o, delivery, bar.available, "accepted", DerivedBy(config, a, o, delivery, bar.available));
    ConcludedDerived(config, u, o, delivery, bar.available, "accepted", DerivedBy(config, a, o, delivery, bar.available));
    TakenTells(config, a, bar, delivery, t);
    DerivedFromSaid(config, u, t.records, Window(config, a, bar));
    ToldSnoc(a, t, result.value);
  }

  lemma OtherSaid(config: ShadowConfig, a: SessionState, o: Observation, delivery: string, now: int)
    requires config.Valid() && InSessionScope(config, o)
    requires o.QuoteSeen? || Disposition(a, o, delivery) != "accepted"
    requires var (t, result) := Received(config, a, o, delivery, now); t.records == a.records + [result.value]
    requires Received(config, a, o, delivery, now).1.Ok?
    ensures SaysDerived(config, Received(config, a, o, delivery, now).0.records)
  {
    var (t, result) := Received(config, a, o, delivery, now);
    var disposition := Disposition(a, o, delivery);
    var u := if disposition == "accepted" then Taken(config, a, o, delivery) else a;
    var derived := if disposition == "accepted" then DerivedBy(config, a, o, delivery, now) else Some(NothingDerived);
    ReceivedData(config, a, o, delivery, now);
    ConcludedDerived(config, u, o, delivery, now, disposition, derived);
    ToldSnoc(a, t, result.value);
  }

  lemma AcceptSaid(config: ShadowConfig, s: SessionState, o: Observation, delivery: string)
    requires config.Valid() && AcceptStep(config, s, o, delivery).1.Ok? && Told(AcceptStep(config, s, o, delivery).0)
    ensures var t := AcceptStep(config, s, o, delivery).0; t.records != [] && SaysDerived(config, t.records)
  {
    AcceptCases(config, s, o, delivery);
    var (a, fault) := Advance(config, s, o.Available());
    AcceptAppends(config, s, o, delivery);
    if fault.None? && !Terminal(a.health) && InSessionScope(config, o) {
      if o.BarSeen? && Disposition(a, o, delivery) == "accepted" {
        BarSaid(config, a, o.bar, delivery);
      } else {
        OtherSaid(config, a, o, delivery, o.Available());
      }
    }
  }

  lemma ControlSaid(config: ShadowConfig, s: SessionState, action: string, now: int, detail: string)
    requires ControlStep(config, s, action, now, detail).1.Ok?
    ensures var r := ControlStep(config, s, action, now, detail).1.value;
            r.observation.None? && r.feature.None? && r.signal.None? && r.intent.None? && r.risk.None?
  {
  }

  lemma InvalidSaid(config: ShadowConfig, s: SessionState, now: int, detail: string, delivery: string)
    requires InvalidStep(config, s, now, detail, delivery).1.Ok?
    ensures var r := InvalidStep(config, s, now, detail, delivery).1.value;
            r.observation.None? && r.feature.None? && r.signal.None? && r.intent.None? && r.risk.None?
  {
  }

  lemma DerivedSaid(config: ShadowConfig, s: SessionState, c: SessionCall)
    requires config.Valid() && CallStep(config, s, c).1.Ok? && Told(CallStep(config, s, c).0)
    ensures var t := CallStep(config, s, c).0; t.records != [] && SaysDerived(config, t.records)
  {
    var (t, result) := CallStep(config, s, c);
    StepAppends(config, s, c);
    ToldSnoc(s, t, result.value);
    match c
    case ControlCall(action, now, detail) => ControlSaid(config, s, action, now, detail);
    case InvalidCall(now, detail, delivery) => InvalidSaid(config, s, now, detail, delivery);
    case AcceptCall(o, delivery) => AcceptSaid(config, s, o, delivery);
  }

  // ----- every record of every history -----

  // The record at the end of what is up to it: numbered, of the session, not before the one before,
  // with the health, disposition and derivation told by the records up to it.
  ghost predicate Says(config: ShadowConfig, up: seq<ShadowRecord>)
    requires up != []
  {
    && Last(up).sequence == |up| - 1 && Last(up).session == config.session
    && (|up| > 1 ==> up[|up| - 2].time <= Last(up).time) && |up| <= config.maximumRecords
    && SaysHealth(config, up) && SaysDisposition(up) && SaysDerived(config, up)
  }

  ghost predicate AllSay(config: ShadowConfig, records: seq<ShadowRecord>) {
    forall n :: 0 < n <= |records| ==> Says(config, records[..n])
  }

  lemma AllSayNext(config: ShadowConfig, records: seq<ShadowRecord>, r: ShadowRecord)
    requires AllSay(config, records) && Says(config, records + [r])
    ensures AllSay(config, records + [r])
  {
    forall n | 0 < n <= |records| + 1 ensures Says(config, (records + [r])[..n]) {
      if n <= |records| {
        assert (records + [r])[..n] == records[..n];
      } else {
        assert (records + [r])[..n] == records + [r];
      }
    }
  }

  // The clock is not before the last record.
  ghost predicate Timed(s: SessionState) {
    s.records != [] ==> s.now.Some? && Last(s.records).time <= s.now.value
  }

  lemma AppendSays(config: ShadowConfig, s: SessionState, t: SessionState, r: ShadowRecord)
    requires Appends(config, s, t, r) && Timed(s)
    requires t.records != [] && SaysHealth(config, t.records) && SaysDisposition(t.records) && SaysDerived(config, t.records)
    ensures Says(config, t.records) && Timed(t)
  {
    ToldSnoc(s, t, r);
  }

  lemma TimedStill(config: ShadowConfig, s: SessionState, c: SessionCall)
    requires config.Valid() && Timed(s) && CallStep(config, s, c).1.Err?
    ensures Timed(CallStep(config, s, c).0)
  {
    StepRecords(config, s, c);
    if s.records != [] {
      RaiseTime(config, s, c);
    }
  }

  lemma AdvanceTime(config: ShadowConfig, s: SessionState, now: int)
    requires s.now.Some?
    ensures var a := Advance(config, s, now).0; a.now.Some? && s.now.value <= a.now.value
  {
    AdvanceCases(config, s, now);
    if Advance(config, s, now).1.None? {
      AdvancePast(config, s, now);
    }
  }

  lemma RaiseTime(config: ShadowConfig, s: SessionState, c: SessionCall)
    requires config.Valid() && CallStep(config, s, c).1.Err? && s.now.Some?
    ensures var t := CallStep(config, s, c).0; t.now.Some? && s.now.value <= t.now.value
  {
    match c
    case ControlCall(action, now, detail) =>
      ControlRaises(config, s, action, now, detail);
      AdvanceTime(config, s, now);
    case InvalidCall(now, detail, delivery) =>
      InvalidRaises(config, s, now, detail, delivery);
      AdvanceTime(config, s, now);
    case AcceptCall(o, delivery) =>
      AcceptTime(config, s, o, delivery);
      AdvanceTime(config, s, o.Available());
  }

  lemma AcceptTime(config: ShadowConfig, s: SessionState, o: Observation, delivery: string)
    requires config.Valid()
    ensures AcceptStep(config, s, o, delivery).0.now == Advance(config, s, o.Available()).0.now
  {
    var (a, fault) := Advance(config, s, o.Available());
    if fault.None? && !Terminal(a.health) && InSessionScope(config, o) {
      AcceptPast(config, s, a, o, delivery);
      ReceivedCases(config, a, o, delivery, o.Available());
      TakenTime(config, a, o, delivery);
    } else {
      AcceptStops(config, s, o, delivery);
    }
  }

  lemma TakenTime(config: ShadowConfig, s: SessionState, o: Observation, delivery: string)
    requires config.Valid() && InSessionScope(config, o)
    ensures Taken(config, s, o, delivery).now == s.now
  {
  }

  lemma AcceptStops(config: ShadowConfig, s: SessionState, o: Observation, delivery: string)
    requires config.Valid()
    requires var (a, fault) := Advance(config, s, o.Available());
             fault.Some? || Terminal(a.health) || !InSessionScope(config, o)
    ensures AcceptStep(config, s, o, delivery).0.now == Advance(config, s, o.Available()).0.now
  {
  }

  lemma StepSays(config: ShadowConfig, s: SessionState, c: SessionCall)
    requires config.Valid() && Reachable(config, s) && Recording(config, s, c) && Told(s) && Timed(s)
    requires AllSay(config, s.records)
    ensures var t := CallStep(config, s, c).0; Told(t) && Timed(t) && AllSay(config, t.records)
  {
    var (t, result) := CallStep(config, s, c);
    StepTold(config, s, c);
    StepRecords(config, s, c);
    if result.Ok? {
      StepAppends(config, s, c);
      HealthSaid(config, s, t, result.value);
      DispositionSaid(config, s, c);
      DerivedSaid(config, s, c);
      AppendSays(config, s, t, result.value);
      AllSayNext(config, s.records, result.value);
    } else {
      TimedStill(config, s, c);
    }
  }

  lemma {:induction false} HistorySays(config: ShadowConfig, calls: seq<SessionCall>)
    requires config.Valid()
    requires Trimmed(config.session) || config.maximumRecords < 2 || NoneInScope(config, calls)
    ensures var s := After(config, calls);
            && (Trimmed(config.session) || config.maximumRecords < 2 ==> Recordable(config, s))
            && Told(s) && Timed(s) && AllSay(config, s.records)
  {
    if calls != [] {
      FrontAndLast(calls);
      var s, c := After(config, Front(calls)), Last(calls);
      HistorySays(config, Front(calls));
      AfterReachable(config, Front(calls));
      if Recordable(config, s) {
        StepRecordable(config, s, c);
      }
      StepSays(config, s, c);
    }
  }

  // Over every history of calls a caller can make, unless replay could fail on it too, every record
  // says what the records up to it tell.
  lemma RecordsSay(config: ShadowConfig, calls: seq<SessionCall>)
    requires config.Valid() && Reproducible(config) && AllConstructible(calls)
    ensures AllSay(config, After(config, calls).records)
  {
    HistorySays(config, calls);
  }

  // The records tell it for every history a caller can make exactly when replay reproduces them:
  // otherwise a bar that raised is remembered without a record.
  lemma RecordsSayExactly(config: ShadowConfig)
    requires config.Valid()
    ensures (forall calls :: AllConstructible(calls) ==> AllSay(config, After(config, calls).records))
       <==> Reproducible(config)
  {
    if Reproducible(config) {
      forall calls | AllConstructible(calls) ensures AllSay(config, After(config, calls).records) {
        RecordsSay(config, calls);
      }
    } else {
      TwiceConstructible(config);
      TwiceUntold(config);
    }
  }

  lemma TwiceUntold(config: ShadowConfig)
    requires config.Valid() && !Reproducible(config)
    ensures !AllSay(config, After(config, Twice(config)).records)
  {
    var s, r0, r1 := TwiceRecorded(config);
    ConnectedOnly(r0, r1.observation.value, r1.delivery);
    DuplicateUntold(config, r0, r1);
    assert [r0, r1][..2] == [r0, r1];
  }

  // After a connection alone every observation would be accepted.
  lemma ConnectedOnly(r0: ShadowRecord, o: Observation, delivery: string)
    requires r0.observation.None? && r0.action == "connected"
    ensures Stands([r0], o, delivery) == "accepted"
  {
    assert Front([r0]) == [] && Last([r0]) == r0;
    assert NewestAccepted([], o.Kind(), o.Instrument()).None?;
    assert AcceptedAt([], o.Kind(), o.Instrument(), o.Observed()).None?;
    assert Connected([r0]);
  }

  lemma DuplicateUntold(config: ShadowConfig, r0: ShadowRecord, r1: ShadowRecord)
    requires r1.observation.Some? && r1.disposition == "duplicate"
    requires Stands([r0], r1.observation.value, r1.delivery) == "accepted"
    ensures !Says(config, [r0, r1])
  {
    assert Front([r0, r1]) == [r0] && Last([r0, r1]) == r1;
    assert "duplicate" != "accepted" by {
      assert |"duplicate"| != |"accepted"|;
    }
  }
}
