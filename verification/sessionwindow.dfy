// The bounded window of a session stands in for its whole history.
module SessionWindow {
  import opened Collections
  import opened Domain
  import opened Kernel
  import opened Execution
  import opened Risk
  import opened Session
  import opened SessionReplay

  predicate AcceptedBar(r: ShadowRecord, instrument: Instrument) {
    && r.observation.Some? && r.observation.value.BarSeen? && r.disposition == "accepted"
    && r.observation.value.bar.instrument == instrument
  }

  // Every bar of an instrument the session ever accepted, in order.
  function AcceptedBars(records: seq<ShadowRecord>, instrument: Instrument): seq<Bar> {
    if records == [] then []
    else
      AcceptedBars(Front(records), instrument) +
      if AcceptedBar(Last(records), instrument) then [Last(records).observation.value.bar] else []
  }

  lemma AcceptedSnoc(records: seq<ShadowRecord>, r: ShadowRecord, instrument: Instrument)
    ensures AcceptedBars(records + [r], instrument)
         == AcceptedBars(records, instrument) + if AcceptedBar(r, instrument) then [r.observation.value.bar] else []
  {
    assert Front(records + [r]) == records;
  }

  lemma {:induction false} AcceptedInstrument(records: seq<ShadowRecord>, instrument: Instrument)
    ensures forall b :: b in AcceptedBars(records, instrument) ==> b.instrument == instrument
  {
    if records != [] {
      AcceptedInstrument(Front(records), instrument);
    }
  }

  // The window of a watched instrument is the end of everything accepted for it.
  ghost predicate Refines(config: ShadowConfig, s: SessionState, instrument: Instrument)
    requires config.Valid()
  {
    Watches(config.strategies, instrument) ==>
      var all := AcceptedBars(s.records, instrument);
      && HistoryFor(s, instrument) == LastN(all, StrategyFor(config.strategies, instrument).window)
      && Increasing(all)
  }

  // An accepted bar's feature is the kernel's newest over everything accepted up to it.
  ghost predicate FullFeature(config: ShadowConfig, records: seq<ShadowRecord>, n: nat)
    requires config.Valid() && n < |records|
  {
    var r := records[n];
    r.observation.Some? && r.observation.value.BarSeen? && r.disposition == "accepted" ==>
      var instrument := r.observation.value.bar.instrument;
      var all := AcceptedBars(records[..n + 1], instrument);
      && Watches(config.strategies, instrument) && all != []
      && r.feature == Some(Last(ZScores(all, StrategyFor(config.strategies, instrument).window, config.session)))
  }

  ghost predicate Featured(config: ShadowConfig, records: seq<ShadowRecord>)
    requires config.Valid()
  {
    forall n :: 0 <= n < |records| ==> FullFeature(config, records, n)
  }

  ghost predicate Faithful(config: ShadowConfig, s: SessionState)
    requires config.Valid()
  {
    (forall i :: Refines(config, s, i)) && Featured(config, s.records)
  }

  // An earlier record's feature does not depend on the records after it.
  lemma FullFeatureKept(config: ShadowConfig, records: seq<ShadowRecord>, r: ShadowRecord, n: nat)
    requires config.Valid() && n < |records| && FullFeature(config, records, n)
    ensures FullFeature(config, records + [r], n)
  {
    assert (records + [r])[..n + 1] == records[..n + 1];
  }

  lemma FeaturedSnoc(config: ShadowConfig, records: seq<ShadowRecord>, r: ShadowRecord)
    requires config.Valid() && Featured(config, records) && FullFeature(config, records + [r], |records|)
    ensures Featured(config, records + [r])
  {
    forall n: nat | n < |records| + 1 ensures FullFeature(config, records + [r], n) {
      if n < |records| {
        FullFeatureKept(config, records, r, n);
      }
    }
  }

  // What a step must show to stay faithful: the windows of accepted bars, and their feature.
  lemma FaithfulAfter(config: ShadowConfig, s: SessionState, t: SessionState, r: ShadowRecord)
    requires config.Valid() && Faithful(config, s) && t.records == s.records + [r]
    requires forall i :: Refines(config, t, i)
    requires FullFeature(config, s.records + [r], |s.records|)
    ensures Faithful(config, t)
  {
    FeaturedSnoc(config, s.records, r);
  }

  lemma FaithfulStill(config: ShadowConfig, s: SessionState, t: SessionState)
    requires config.Valid() && Faithful(config, s) && t.records == s.records && t.bars == s.bars
    ensures Faithful(config, t)
  {
    forall i ensures Refines(config, t, i) {
      assert Refines(config, s, i);
    }
  }

  lemma FaithfulOther(config: ShadowConfig, s: SessionState, t: SessionState, r: ShadowRecord)
    requires config.Valid() && Faithful(config, s) && t.records == s.records + [r] && t.bars == s.bars
    requires forall i :: !AcceptedBar(r, i)
    ensures Faithful(config, t)
  {
    forall i ensures Refines(config, t, i) {
      assert Refines(config, s, i);
      AcceptedSnoc(s.records, r, i);
    }
    if r.observation.Some? && r.observation.value.BarSeen? {
      assert !AcceptedBar(r, r.observation.value.bar.instrument);
    }
    FaithfulAfter(config, s, t, r);
  }

  // The kernel over the window agrees with the kernel over everything.
  lemma WindowFeature(config: ShadowConfig, s: SessionState, bar: Bar)
    requires config.Valid() && Watches(config.strategies, bar.instrument) && Refines(config, s, bar.instrument)
    ensures var all := AcceptedBars(s.records, bar.instrument) + [bar];
            var window := StrategyFor(config.strategies, bar.instrument).window;
            && Window(config, s, bar) == LastN(all, window)
            && Last(ZScores(Window(config, s, bar), window, config.session))
               == Last(ZScores(all, window, config.session))
  {
    var all := AcceptedBars(s.records, bar.instrument);
    var window := StrategyFor(config.strategies, bar.instrument).window;
    LastNSnoc(all, bar, window);
    AcceptedInstrument(s.records, bar.instrument);
    BoundedHistorySuffices(all + [bar], window, config.session);
  }

  lemma AcceptedIncreasing(config: ShadowConfig, s: SessionState, bar: Bar, delivery: string)
    requires config.Valid() && Reachable(config, s) && Disposition(s, BarSeen(bar), delivery) == "accepted"
    requires Watches(config.strategies, bar.instrument) && Refines(config, s, bar.instrument)
    ensures Increasing(AcceptedBars(s.records, bar.instrument) + [bar])
  {
    var all := AcceptedBars(s.records, bar.instrument);
    AcceptedLater(config, s, bar, delivery);
    assert all != [] ==> Last(HistoryFor(s, bar.instrument)) == Last(all);
    IncreasingSnoc(all, bar);
  }

  // The record and the state an accepted bar leads to.
  ghost predicate BarTaken(config: ShadowConfig, s: SessionState, bar: Bar, t: SessionState, r: ShadowRecord)
    requires config.Valid() && Watches(config.strategies, bar.instrument)
  {
    && t.records == s.records + [r]
    && r.observation == Some(BarSeen(bar)) && r.disposition == "accepted"
    && r.feature == Some(Last(ZScores(Window(config, s, bar), StrategyFor(config.strategies, bar.instrument).window,
                                      config.session)))
    && t.bars == s.bars[bar.instrument := Window(config, s, bar)]
  }

  lemma RefinesBar(config: ShadowConfig, s: SessionState, bar: Bar, t: SessionState, r: ShadowRecord, i: Instrument)
    requires config.Valid() && Watches(config.strategies, bar.instrument)
    requires t.records == s.records + [r] && t.bars == s.bars[bar.instrument := Window(config, s, bar)]
    requires r.observation == Some(BarSeen(bar)) && r.disposition == "accepted"
    requires Refines(config, s, i) && Increasing(AcceptedBars(s.records, bar.instrument) + [bar])
    requires Window(config, s, bar) == LastN(AcceptedBars(s.records, bar.instrument) + [bar],
                                             StrategyFor(config.strategies, bar.instrument).window)
    ensures Refines(config, t, i)
  {
    AcceptedSnoc(s.records, r, i);
  }

  lemma FullFeatureBar(config: ShadowConfig, s: SessionState, bar: Bar, r: ShadowRecord)
    requires config.Valid() && Watches(config.strategies, bar.instrument)
    requires r.observation == Some(BarSeen(bar)) && r.disposition == "accepted"
    requires r.feature == Some(Last(ZScores(AcceptedBars(s.records, bar.instrument) + [bar],
                                            StrategyFor(config.strategies, bar.instrument).window, config.session)))
    ensures FullFeature(config, s.records + [r], |s.records|)
  {
    AcceptedSnoc(s.records, r, bar.instrument);
    assert (s.records + [r])[..|s.records| + 1] == s.records + [r];
  }

  lemma FaithfulBar(config: ShadowConfig, s: SessionState, bar: Bar, delivery: string, t: SessionState, r: ShadowRecord)
    requires config.Valid() && Faithful(config, s) && Reachable(config, s)
    requires Watches(config.strategies, bar.instrument) && Disposition(s, BarSeen(bar), delivery) == "accepted"
    requires BarTaken(config, s, bar, t, r)
    ensures Faithful(config, t)
  {
    assert Refines(config, s, bar.instrument);
    WindowFeature(config, s, bar);
    AcceptedIncreasing(config, s, bar, delivery);
    forall i ensures Refines(config, t, i) {
      assert Refines(config, s, i);
      RefinesBar(config, s, bar, t, r, i);
    }
    FullFeatureBar(config, s, bar, r);
    FaithfulAfter(config, s, t, r);
  }

  lemma TakenBars(config: ShadowConfig, s: SessionState, bar: Bar, delivery: string)
    requires config.Valid() && InSessionScope(config, BarSeen(bar))
    ensures Taken(config, s, BarSeen(bar), delivery).bars == s.bars[bar.instrument := Window(config, s, bar)]
  {
  }

  lemma ReceivedBar(config: ShadowConfig, s: SessionState, bar: Bar, delivery: string, now: int)
    requires config.Valid() && InSessionScope(config, BarSeen(bar))
    requires Disposition(s, BarSeen(bar), delivery) == "accepted" && Computable(config, Window(config, s, bar))
    ensures var (t, result) := Received(config, s, BarSeen(bar), delivery, now);
            result.Ok? && BarTaken(config, s, bar, t, result.value)
  {
    ReceivedCases(config, s, BarSeen(bar), delivery, now);
    TakenBars(config, s, bar, delivery);
  }

  lemma ReceivedOther(config: ShadowConfig, s: SessionState, o: Observation, delivery: string, now: int)
    requires config.Valid() && InSessionScope(config, o)
    requires o.QuoteSeen? || Disposition(s, o, delivery) != "accepted"
    ensures var (t, result) := Received(config, s, o, delivery, now);
            && result.Ok? && t.records == s.records + [result.value] && t.bars == s.bars
            && forall i :: !AcceptedBar(result.value, i)
  {
    ReceivedCases(config, s, o, delivery, now);
  }

  lemma ReceivedFaithful(config: ShadowConfig, s: SessionState, o: Observation, delivery: string, now: int)
    requires config.Valid() && Faithful(config, s) && Reachable(config, s) && Trimmed(config.session)
    requires InSessionScope(config, o)
    ensures Faithful(config, Received(config, s, o, delivery, now).0)
  {
    var (t, result) := Received(config, s, o, delivery, now);
    if o.BarSeen? && Disposition(s, o, delivery) == "accepted" {
      AlwaysComputable(config, s, o.bar, delivery);
      ReceivedBar(config, s, o.bar, delivery, now);
      FaithfulBar(config, s, o.bar, delivery, t, result.value);
    } else {
      ReceivedOther(config, s, o, delivery, now);
      FaithfulOther(config, s, t, result.value);
    }
  }

  lemma ControlFaithful(config: ShadowConfig, s: SessionState, action: string, now: int, detail: string)
    requires config.Valid() && Faithful(config, s)
    ensures Faithful(config, ControlStep(config, s, action, now, detail).0)
  {
    ControlData(config, s, action, now, detail);
    var (t, result) := ControlStep(config, s, action, now, detail);
    if result.Ok? {
      FaithfulOther(config, s, t, result.value);
    } else {
      FaithfulStill(config, s, t);
    }
  }

  lemma InvalidFaithful(config: ShadowConfig, s: SessionState, now: int, detail: string, delivery: string)
    requires config.Valid() && Faithful(config, s)
    ensures Faithful(config, InvalidStep(config, s, now, detail, delivery).0)
  {
    InvalidData(config, s, now, detail, delivery);
    var (t, result) := InvalidStep(config, s, now, detail, delivery);
    if result.Ok? {
      FaithfulOther(config, s, t, result.value);
    } else {
      FaithfulStill(config, s, t);
    }
  }

  lemma AcceptFaithful(config: ShadowConfig, s: SessionState, o: Observation, delivery: string)
    requires config.Valid() && Faithful(config, s) && Reachable(config, s) && Trimmed(config.session)
    ensures Faithful(config, AcceptStep(config, s, o, delivery).0)
  {
    AcceptCases(config, s, o, delivery);
    var (t, fault) := Advance(config, s, o.Available());
    FaithfulStill(config, s, t);
    SameDataReachable(config, s, t);
    if fault.None? && !Terminal(t.health) && InSessionScope(config, o) {
      ReceivedFaithful(config, t, o, delivery, o.Available());
    } else {
      FaithfulStill(config, s, AcceptStep(config, s, o, delivery).0);
    }
  }

  // Over every history of calls: the retained bars of an instrument are the last window of all it
  // accepted, accepted times strictly increase, and every accepted bar's feature is the newest
  // snapshot of the kernel over everything accepted up to it.
  lemma {:induction false} WindowRefinesHistory(config: ShadowConfig, calls: seq<SessionCall>)
    requires config.Valid() && Trimmed(config.session)
    ensures Faithful(config, After(config, calls))
  {
    if calls != [] {
      var s := After(config, Front(calls));
      WindowRefinesHistory(config, Front(calls));
      AfterReachable(config, Front(calls));
      match Last(calls)
      case ControlCall(action, now, detail) => ControlFaithful(config, s, action, now, detail);
      case InvalidCall(now, detail, delivery) => InvalidFaithful(config, s, now, detail, delivery);
      case AcceptCall(o, delivery) => AcceptFaithful(config, s, o, delivery);
    }
  }
}
