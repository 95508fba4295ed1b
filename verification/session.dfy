// The live shadow session: application/shadow.py.
module Session {
  import opened Collections
  import opened Domain
  import opened Validation
  import opened Kernel
  import opened Strategy
  import opened Execution
  import opened Risk

  datatype FeedHealth = Starting | Healthy | Stale | Disconnected | Failed | Stopped

  datatype Observation = BarSeen(bar: Bar) | QuoteSeen(quote: Quote)
  {
    function Instrument(): Instrument { if BarSeen? then bar.instrument else quote.instrument }
    function Observed(): int { if BarSeen? then bar.observed else quote.observed }
    function Available(): int { if BarSeen? then bar.available else quote.available }
    function Semantics(): AvailabilitySemantics { if BarSeen? then bar.semantics else quote.semantics }
    function Source(): string { if BarSeen? then bar.provenance.source else quote.provenance.source }

    function Kind(): ObservationKind { if BarSeen? then BarKind else QuoteKind }

    // The same observation received at another time.
    function ReceivedAt(time: int): Observation {
      if BarSeen? then BarSeen(bar.(available := time)) else QuoteSeen(quote.(available := time))
    }
  }

  datatype ObservationKind = BarKind | QuoteKind

  datatype QuantityConfig = QuantityConfig(instrument: Instrument, configuration: string, quantity: real)

  datatype ShadowConfig = ShadowConfig(
    session: string, revision: string, strategies: seq<MeanReversionConfig>, quantities: seq<QuantityConfig>,
    policy: RiskPolicy, source: string, maximumBarAge: int, maximumQuoteAge: int,
    observability: Option<RiskState>, maximumRecords: int)
  {
    // The contract of a constructed configuration.
    predicate Valid() {
      && !Blank(session) && !Blank(revision) && !Blank(source)
      && strategies != [] && NoRepeats(Map(StrategyInstrument(), strategies))
      && ToSet(Map(QuantityInstrument(), quantities)) == ToSet(Map(StrategyInstrument(), strategies))
      && |quantities| == |strategies|
      && maximumBarAge > 0 && maximumQuoteAge > 0 && maximumRecords >= 1
      && (observability.Some? ==> observability.value.scope == session)
      && (forall c :: c in strategies ==> c.Valid())
    }
  }

  function StrategyInstrument(): MeanReversionConfig -> Instrument { (c: MeanReversionConfig) => c.instrument }
  function QuantityInstrument(): QuantityConfig -> Instrument { (c: QuantityConfig) => c.instrument }

  predicate Watches(strategies: seq<MeanReversionConfig>, instrument: Instrument) {
    exists c :: c in strategies && c.instrument == instrument
  }

  function StrategyFor(strategies: seq<MeanReversionConfig>, instrument: Instrument): (c: MeanReversionConfig)
    requires Watches(strategies, instrument)
    ensures c in strategies && c.instrument == instrument
  {
    if strategies[0].instrument == instrument then strategies[0] else StrategyFor(strategies[1..], instrument)
  }

  function QuantityFor(quantities: seq<QuantityConfig>, instrument: Instrument): (c: QuantityConfig)
    requires exists q :: q in quantities && q.instrument == instrument
    ensures c in quantities && c.instrument == instrument
  {
    if quantities[0].instrument == instrument then quantities[0] else QuantityFor(quantities[1..], instrument)
  }

  lemma QuantityExists(config: ShadowConfig, instrument: Instrument)
    requires config.Valid() && Watches(config.strategies, instrument)
    ensures exists q :: q in config.quantities && q.instrument == instrument
  {
    var c := StrategyFor(config.strategies, instrument);
    var i :| 0 <= i < |config.strategies| && config.strategies[i] == c;
    assert Map(StrategyInstrument(), config.strategies)[i] == instrument;
    assert instrument in ToSet(Map(QuantityInstrument(), config.quantities));
    var j :| 0 <= j < |config.quantities| && Map(QuantityInstrument(), config.quantities)[j] == instrument;
  }

  datatype RiskView =
    | QuoteNotReady
    | OperationalStateUnavailable(quote: Quote)
    | RiskEvaluated(quote: Quote, decision: RiskDecision)

  datatype ShadowRecord = ShadowRecord(
    sequence: nat, session: string, time: int, action: string, disposition: string, health: FeedHealth,
    observation: Option<Observation>, delivery: string, feature: Option<FeatureSnapshot>,
    signal: Option<Signal>, intent: Option<OrderIntent>, risk: Option<RiskView>)

  // What one accepted bar led to.
  datatype Derived = Derived(
    feature: Option<FeatureSnapshot>, signal: Option<Signal>, intent: Option<OrderIntent>, risk: Option<RiskView>)

  const NothingDerived := Derived(None, None, None, None)

  datatype SessionState = SessionState(
    health: FeedHealth, connected: bool, now: Option<int>, records: seq<ShadowRecord>,
    bars: map<Instrument, seq<Bar>>, quotes: map<Instrument, Quote>,
    latest: map<(ObservationKind, Instrument), Observation>,
    seen: map<(ObservationKind, Instrument, int), (Observation, string)>)

  const NewSession := SessionState(Starting, false, None, [], map[], map[], map[], map[])

  const CONTROLS := {"connected", "disconnected", "failed", "stopped", "tick"}
  const MINUTE := 60_000_000

  predicate Terminal(health: FeedHealth) {
    health == Failed || health == Stopped
  }

  // The clock may not go back and the evidence may not outgrow its bound.
  function Advance(config: ShadowConfig, s: SessionState, now: int): (SessionState, Option<string>) {
    if s.now.Some? && now < s.now.value then (s.(health := Failed), Some("session clock moved backwards"))
    else if |s.records| >= config.maximumRecords then
      (s.(health := Failed), Some("bounded session evidence limit reached"))
    else (s.(now := Some(now)), None)
  }

  predicate BarIsFresh(config: ShadowConfig, s: SessionState, instrument: Instrument, now: int) {
    && (BarKind, instrument) in s.latest
    && s.latest[(BarKind, instrument)].Available() <= now
    && now - s.latest[(BarKind, instrument)].Observed() <= config.maximumBarAge
  }

  predicate AllFresh(config: ShadowConfig, s: SessionState, now: int) {
    forall c :: c in config.strategies ==> BarIsFresh(config, s, c.instrument, now)
  }

  predicate AnyReceived(config: ShadowConfig, s: SessionState) {
    exists c :: c in config.strategies && (BarKind, c.instrument) in s.latest
  }

  function FreshQuote(config: ShadowConfig, s: SessionState, instrument: Instrument, now: int): Option<Quote> {
    if instrument !in s.quotes || s.quotes[instrument].available > now
       || now - s.quotes[instrument].observed > config.maximumQuoteAge
    then None
    else Some(s.quotes[instrument])
  }

  function Refreshed(config: ShadowConfig, s: SessionState, now: int): SessionState {
    s.(health := RefreshedHealth(config, s, now))
  }

  function RefreshedHealth(config: ShadowConfig, s: SessionState, now: int): FeedHealth {
    if !s.connected || Terminal(s.health) then s.health
    else if AllFresh(config, s, now) then Healthy
    else if AnyReceived(config, s) then Stale
    else Starting
  }

  function RecordFor(
    config: ShadowConfig, s: SessionState, now: int, action: string, disposition: string,
    observation: Option<Observation>, delivery: string, d: Derived): ShadowRecord
  {
    ShadowRecord(|s.records|, config.session, now, action, disposition, s.health, observation, delivery,
                 d.feature, d.signal, d.intent, d.risk)
  }

  function Appended(s: SessionState, r: ShadowRecord): SessionState {
    s.(records := s.records + [r])
  }

  // The step ends with a record.
  function Noted(
    config: ShadowConfig, s: SessionState, now: int, action: string, disposition: string,
    observation: Option<Observation>, delivery: string, d: Derived): (SessionState, Result<ShadowRecord>)
  {
    var r := RecordFor(config, s, now, action, disposition, observation, delivery, d);
    (Appended(s, r), Ok(r))
  }

  // ----- controls and malformed input -----

  function Controlled(config: ShadowConfig, s: SessionState, action: string, now: int): SessionState {
    if action == "connected" then Refreshed(config, s.(connected := true), now)
    else if action == "disconnected" then s.(connected := false, health := Disconnected)
    else if action == "failed" then s.(connected := false, health := Failed)
    else if action == "stopped" then s.(connected := false, health := Stopped)
    else Refreshed(config, s, now)
  }

  function ControlStep(config: ShadowConfig, s: SessionState, action: string, now: int, detail: string)
    : (SessionState, Result<ShadowRecord>)
  {
    var (t, fault) := Advance(config, s, now);
    if fault.Some? then (t, Err(fault.value))
    else if action !in CONTROLS then (t, Err("unknown shadow control"))
    else if Terminal(t.health) then (t, Err("terminal shadow session"))
    else ControlNoted(config, t, action, now, detail)
  }

  function ControlNoted(config: ShadowConfig, s: SessionState, action: string, now: int, detail: string)
    : (SessionState, Result<ShadowRecord>)
  {
    Noted(config, Controlled(config, s, action, now), now, action, if detail != "" then detail else action,
          None, "", NothingDerived)
  }

  function InvalidStep(config: ShadowConfig, s: SessionState, now: int, detail: string, delivery: string)
    : (SessionState, Result<ShadowRecord>)
  {
    var (t, fault) := Advance(config, s, now);
    if fault.Some? then (t, Err(fault.value))
    else if Terminal(t.health) then (t, Err("terminal shadow session"))
    else Noted(config, Refreshed(config, t, now), now, "observation", "invalid:" + detail, None, delivery, NothingDerived)
  }

  // ----- observations -----

  predicate InSessionScope(config: ShadowConfig, o: Observation) {
    && Watches(config.strategies, o.Instrument()) && o.Source() == config.source && o.Semantics() == SystemReceived
    && (o.BarSeen? ==> o.bar.interval == MINUTE)
  }

  function Key(o: Observation): (ObservationKind, Instrument) { (o.Kind(), o.Instrument()) }
  function IdentityOf(o: Observation): (ObservationKind, Instrument, int) { (o.Kind(), o.Instrument(), o.Observed()) }

  // How an observation stands to what was seen before.
  function Disposition(s: SessionState, o: Observation, delivery: string): string {
    if !s.connected then "disconnected"
    else if IdentityOf(o) in s.seen then
      var (prior, reference) := s.seen[IdentityOf(o)];
      var sameValue := o.ReceivedAt(prior.Available()) == prior;
      var sameDelivery := delivery == "" || reference == "" || delivery == reference;
      if sameValue && sameDelivery then "duplicate" else "same_time_variant"
    else if Key(o) in s.latest && o.Observed() < s.latest[Key(o)].Observed() then "out_of_order"
    else "accepted"
  }

  function HistoryFor(s: SessionState, instrument: Instrument): seq<Bar> {
    if instrument in s.bars then s.bars[instrument] else []
  }

  // The retained bars of an instrument after one more.
  function Window(config: ShadowConfig, s: SessionState, bar: Bar): (history: seq<Bar>)
    requires config.Valid() && Watches(config.strategies, bar.instrument)
    ensures history != [] && Last(history) == bar
  {
    LastN(HistoryFor(s, bar.instrument) + [bar], StrategyFor(config.strategies, bar.instrument).window)
  }

  // An observation is remembered, before anything is derived from it.
  function Taken(config: ShadowConfig, s: SessionState, o: Observation, delivery: string): SessionState
    requires config.Valid() && Watches(config.strategies, o.Instrument())
  {
    var t := s.(seen := s.seen[IdentityOf(o) := (o, delivery)], latest := s.latest[Key(o) := o]);
    if o.QuoteSeen? then t.(quotes := t.quotes[o.quote.instrument := o.quote])
    else t.(bars := t.bars[o.bar.instrument := Window(config, s, o.bar)])
  }

  function DatasetFor(config: ShadowConfig, history: seq<Bar>): Metadata
    requires history != []
  {
    var bar := Last(history);
    Metadata(config.source, config.session, [bar.instrument], history[0].observed, bar.observed,
             Some(bar.interval), false)
  }

  // The data set and its bars are accepted by the kernel. A bar's own source is always trimmed.
  ghost predicate Computable(config: ShadowConfig, history: seq<Bar>)
    requires history != []
  {
    && Trimmed(config.session)
    && history[0].observed <= Last(history).observed
    && ValidBars(history, DatasetFor(config, history))
  }

  ghost function RiskFor(config: ShadowConfig, s: SessionState, intent: OrderIntent, f: FeatureSnapshot, now: int)
    : RiskView
  {
    var quote := FreshQuote(config, s, intent.instrument, now);
    if quote.None? then QuoteNotReady
    else if config.observability.None? then OperationalStateUnavailable(quote.value)
    else RiskEvaluated(quote.value, Evaluated(Question(intent, config.policy, config.observability.value, f,
                                                       quote.value, now)))
  }

  function IntentFor(config: ShadowConfig, signal: Signal): OrderIntent
    requires exists q :: q in config.quantities && q.instrument == signal.instrument
  {
    var q := QuantityFor(config.quantities, signal.instrument);
    OrderIntent(config.session, signal, signal.instrument, ExpectedSide(signal.kind), q.quantity, signal.decided,
                q.configuration)
  }

  // The candidate an accepted bar leads to, judged against a flat position.
  ghost function Derive(config: ShadowConfig, s: SessionState, strategy: MeanReversionConfig, f: FeatureSnapshot, now: int)
    : (d: Derived)
    requires exists q :: q in config.quantities && q.instrument == f.instrument
    ensures d.feature == Some(f)
  {
    if !BarIsFresh(config, s, f.instrument, now) then Derived(Some(f), None, None, None)
    else
      var signal := EvaluateMeanReversion(f, strategy, PositionFlat, now);
      if signal.None? then Derived(Some(f), None, None, None)
      else
        var intent := IntentFor(config, signal.value);
        Derived(Some(f), signal, Some(intent), Some(RiskFor(config, s, intent, f, now)))
  }

  ghost function AcceptStep(config: ShadowConfig, s: SessionState, o: Observation, delivery: string)
    : (SessionState, Result<ShadowRecord>)
    requires config.Valid()
  {
    var now := o.Available();
    var (t, fault) := Advance(config, s, now);
    if fault.Some? then (t, Err(fault.value))
    else if Terminal(t.health) then (t, Err("terminal shadow session"))
    else if !InSessionScope(config, o) then (t.(health := Failed), Err("observation violates session scope"))
    else Received(config, t, o, delivery, now)
  }

  // What the last bar of a window leads to, unless the data set or the kernel refuses the window.
  ghost function DerivedFrom(config: ShadowConfig, s: SessionState, history: seq<Bar>, now: int): (d: Option<Derived>)
    requires config.Valid() && history != [] && Watches(config.strategies, Last(history).instrument)
    ensures d.Some? <==> Computable(config, history)
    ensures d.Some? ==> d.value.feature == Some(Last(ZScores(
              history, StrategyFor(config.strategies, Last(history).instrument).window, config.session)))
  {
    if !Computable(config, history) then None
    else
      var strategy := StrategyFor(config.strategies, Last(history).instrument);
      QuantityExists(config, Last(history).instrument);
      ScoreInstrument(history, strategy.window, config.session);
      Some(Derive(config, s, strategy, Last(ZScores(history, strategy.window, config.session)), now))
  }

  // The step ends with the observation's record, unless nothing could be derived.
  function Concluded(
    config: ShadowConfig, u: SessionState, o: Observation, delivery: string, now: int, disposition: string,
    derived: Option<Derived>): (SessionState, Result<ShadowRecord>)
  {
    if derived.None? then (u, Err("dataset or bars refused"))
    else Noted(config, Refreshed(config, u, now), now, "observation", disposition, Some(o), delivery, derived.value)
  }

  ghost function DerivedBy(config: ShadowConfig, t: SessionState, o: Observation, delivery: string, now: int)
    : Option<Derived>
    requires config.Valid() && InSessionScope(config, o)
  {
    if o.QuoteSeen? then Some(NothingDerived)
    else DerivedFrom(config, Taken(config, t, o, delivery), Window(config, t, o.bar), now)
  }

  // An observation of the session's scope.
  ghost function Received(config: ShadowConfig, t: SessionState, o: Observation, delivery: string, now: int)
    : (SessionState, Result<ShadowRecord>)
    requires config.Valid() && InSessionScope(config, o)
  {
    var disposition := Disposition(t, o, delivery);
    if disposition != "accepted" then Concluded(config, t, o, delivery, now, disposition, Some(NothingDerived))
    else
      Concluded(config, Taken(config, t, o, delivery), o, delivery, now, disposition,
                DerivedBy(config, t, o, delivery, now))
  }

  lemma ScoreInstrument(history: seq<Bar>, window: nat, dataset: string)
    requires history != [] && window > 0
    ensures Last(ZScores(history, window, dataset)).instrument == Last(history).instrument
  {
    ZScoresAt(history, window, dataset, |history| - 1);
  }

  // ----- the session itself -----

  class ShadowSession {
    const config: ShadowConfig
    var health: FeedHealth
    var connected: bool
    var now: Option<int>
    var records: seq<ShadowRecord>
    var bars: map<Instrument, seq<Bar>>
    var quotes: map<Instrument, Quote>
    var latest: map<(ObservationKind, Instrument), Observation>
    var seen: map<(ObservationKind, Instrument, int), (Observation, string)>

    function State(): SessionState
      reads this
    {
      SessionState(health, connected, now, records, bars, quotes, latest, seen)
    }

    constructor (config: ShadowConfig)
      requires config.Valid()
      ensures this.config == config && State() == NewSession
    {
      this.config := config;
      health, connected, now, records := Starting, false, None, [];
      bars, quotes, latest, seen := map[], map[], map[], map[];
    }

    method AdvanceTo(time: int) returns (fault: Option<string>)
      modifies this`health, this`now
      ensures (State(), fault) == Advance(config, old(State()), time)
    {
      if now.Some? && time < now.value {
        health := Failed;
        return Some("session clock moved backwards");
      }
      if |records| >= config.maximumRecords {
        health := Failed;
        return Some("bounded session evidence limit reached");
      }
      now := Some(time);
      fault := None;
    }

    method Refresh(time: int)
      modifies this`health
      ensures State() == Refreshed(config, old(State()), time)
    {
      if !connected || Terminal(health) {
        return;
      }
      var received := exists c :: c in config.strategies && (BarKind, c.instrument) in latest;
      var current := forall c :: c in config.strategies ==> BarIsFresh(config, State(), c.instrument, time);
      health := if current then Healthy else if received then Stale else Starting;
    }

    method Append(
      time: int, action: string, disposition: string, observation: Option<Observation>, delivery: string, d: Derived)
      returns (r: ShadowRecord)
      modifies this`records
      ensures r == RecordFor(config, old(State()), time, action, disposition, observation, delivery, d)
      ensures State() == Appended(old(State()), r)
    {
      r := ShadowRecord(|records|, config.session, time, action, disposition, health, observation, delivery,
                        d.feature, d.signal, d.intent, d.risk);
      records := records + [r];
    }

    method Control(action: string, time: int, detail: string) returns (result: Result<ShadowRecord>)
      modifies this
      ensures (State(), result) == ControlStep(config, old(State()), action, time, detail)
    {
      var fault := AdvanceTo(time);
      if fault.Some? {
        return Err(fault.value);
      }
      if action !in {"connected", "disconnected", "failed", "stopped", "tick"} {
        return Err("unknown shadow control");
      }
      if Terminal(health) {
        return Err("terminal shadow session");
      }
      if action == "connected" {
        connected := true;
        Refresh(time);
      } else if action == "disconnected" {
        connected, health := false, Disconnected;
      } else if action == "failed" {
        connected, health := false, Failed;
      } else if action == "stopped" {
        connected, health := false, Stopped;
      } else {
        Refresh(time);
      }
      var r := Append(time, action, if detail != "" then detail else action, None, "", NothingDerived);
      result := Ok(r);
    }

    method Invalid(time: int, detail: string, delivery: string) returns (result: Result<ShadowRecord>)
      modifies this
      ensures (State(), result) == InvalidStep(config, old(State()), time, detail, delivery)
    {
      var fault := AdvanceTo(time);
      if fault.Some? {
        return Err(fault.value);
      }
      if Terminal(health) {
        return Err("terminal shadow session");
      }
      Refresh(time);
      var r := Append(time, "observation", "invalid:" + detail, None, delivery, NothingDerived);
      result := Ok(r);
    }

    // Only a quote that is available and fresh now is shown or judged with, and a decision over the
    // configured state carries exactly the warranted reasons.
    method ObserveRisk(intent: OrderIntent, f: FeatureSnapshot, time: int) returns (view: RiskView)
      ensures view == RiskFor(config, State(), intent, f, time)
      ensures !view.QuoteNotReady? <==>
                && intent.instrument in quotes && quotes[intent.instrument].available <= time
                && time - quotes[intent.instrument].observed <= config.maximumQuoteAge
      ensures !view.QuoteNotReady? ==> view.quote == quotes[intent.instrument]
      ensures view.RiskEvaluated? ==>
                && config.observability.Some?
                && var q := Question(intent, config.policy, config.observability.value, f, view.quote, time);
                && (forall r :: r in view.decision.reasons <==> Warrants(q, r))
                && (view.decision.status == Authorized <==> forall r :: !Warrants(q, r))
    {
      var quote := FreshQuote(config, State(), intent.instrument, time);
      if quote.None? {
        return QuoteNotReady;
      }
      if config.observability.None? {
        return OperationalStateUnavailable(quote.value);
      }
      var decision := EvaluateRisk(Question(intent, config.policy, config.observability.value, f, quote.value, time));
      view := RiskEvaluated(quote.value, decision);
    }

    method DeriveFrom(strategy: MeanReversionConfig, f: FeatureSnapshot, time: int) returns (d: Derived)
      requires exists q :: q in config.quantities && q.instrument == f.instrument
      ensures d == Derive(config, State(), strategy, f, time)
    {
      d := Derived(Some(f), None, None, None);
      if BarIsFresh(config, State(), f.instrument, time) {
        var signal := EvaluateMeanReversion(f, strategy, PositionFlat, time);
        if signal.Some? {
          var intent := IntentFor(config, signal.value);
          var view := ObserveRisk(intent, f, time);
          d := Derived(Some(f), signal, Some(intent), Some(view));
        }
      }
    }

    // Features from the retained bars, unless the data set or the kernel refuses them.
    method Compute(history: seq<Bar>, window: int) returns (f: Option<FeatureSnapshot>)
      requires history != [] && window > 0
      ensures f.Some? <==> Computable(config, history)
      ensures f.Some? ==> f.value == Last(ZScores(history, window, config.session))
    {
      var bar := Last(history);
      if !Trimmed(config.session) || bar.observed < history[0].observed {
        return None;
      }
      var dataset := Metadata(config.source, config.session, [bar.instrument], history[0].observed, bar.observed,
                              Some(bar.interval), false);
      var scores := CalculateZScores(history, dataset, window);
      if scores.Err? {
        return None;
      }
      f := Some(Last(scores.value));
    }

    method Accept(o: Observation, delivery: string) returns (result: Result<ShadowRecord>)
      requires config.Valid()
      modifies this
      ensures (State(), result) == AcceptStep(config, old(State()), o, delivery)
    {
      var time := o.Available();
      var fault := AdvanceTo(time);
      if fault.Some? {
        return Err(fault.value);
      }
      if Terminal(health) {
        return Err("terminal shadow session");
      }
      if !InSessionScope(config, o) {
        health := Failed;
        return Err("observation violates session scope");
      }
      result := Receive(o, delivery, time);
    }

    // Remember an accepted observation; a bar joins its instrument's window.
    method Take(o: Observation, delivery: string)
      requires config.Valid() && InSessionScope(config, o)
      modifies this
      ensures State() == Taken(config, old(State()), o, delivery)
    {
      seen := seen[IdentityOf(o) := (o, delivery)];
      latest := latest[Key(o) := o];
      if o.QuoteSeen? {
        quotes := quotes[o.quote.instrument := o.quote];
      } else {
        var strategy := StrategyFor(config.strategies, o.bar.instrument);
        var history := (if o.bar.instrument in bars then bars[o.bar.instrument] else []) + [o.bar];
        history := LastN(history, strategy.window);
        bars := bars[o.bar.instrument := history];
      }
    }

    // The candidate an accepted bar leads to, if its window can be computed with.
    method DeriveBar(bar: Bar, time: int) returns (d: Option<Derived>)
      requires config.Valid() && Watches(config.strategies, bar.instrument)
      requires bar.instrument in bars && bars[bar.instrument] != [] && Last(bars[bar.instrument]) == bar
      ensures d == DerivedFrom(config, State(), bars[bar.instrument], time)
    {
      var strategy := StrategyFor(config.strategies, bar.instrument);
      var feature := Compute(bars[bar.instrument], strategy.window);
      QuantityExists(config, bar.instrument);
      if feature.None? {
        return None;
      }
      ScoreInstrument(bars[bar.instrument], strategy.window, config.session);
      var derived := DeriveFrom(strategy, feature.value, time);
      d := Some(derived);
    }

    method Receive(o: Observation, delivery: string, time: int) returns (result: Result<ShadowRecord>)
      requires config.Valid() && InSessionScope(config, o)
      modifies this
      ensures (State(), result) == Received(config, old(State()), o, delivery, time)
    {
      var disposition := Disposition(State(), o, delivery);
      var derived := Some(NothingDerived);
      if disposition == "accepted" {
        Take(o, delivery);
        if o.BarSeen? {
          derived := DeriveBar(o.bar, time);
        }
      }
      if derived.None? {
        return Err("dataset or bars refused");
      }
      Refresh(time);
      var r := Append(time, "observation", disposition, Some(o), delivery, derived.value);
      result := Ok(r);
    }
  }
}
