// What holds of a session over every history of calls.
module SessionReplay {
  import opened Collections
  import opened Domain
  import opened Validation
  import opened Execution
  import opened Risk
  import opened Session

  datatype SessionCall =
    | ControlCall(action: string, time: int, detail: string)
    | InvalidCall(time: int, detail: string, delivery: string)
    | AcceptCall(observation: Observation, delivery: string)

  ghost function CallStep(config: ShadowConfig, s: SessionState, c: SessionCall): (SessionState, Result<ShadowRecord>)
    requires config.Valid()
  {
    match c
    case ControlCall(action, time, detail) => ControlStep(config, s, action, time, detail)
    case InvalidCall(time, detail, delivery) => InvalidStep(config, s, time, detail, delivery)
    case AcceptCall(o, delivery) => AcceptStep(config, s, o, delivery)
  }

  // The state after a history of calls, whether or not they raised.
  ghost function After(config: ShadowConfig, calls: seq<SessionCall>): SessionState
    requires config.Valid()
  {
    if calls == [] then NewSession else CallStep(config, After(config, Front(calls)), Last(calls)).0
  }

  predicate StartsWith(text: string, prefix: string) {
    prefix <= text
  }

  function RemovePrefix(text: string, prefix: string): string {
    if prefix <= text then text[|prefix|..] else text
  }

  const INVALID := "invalid:"

  // The call a record is replayed with.
  function CallOf(r: ShadowRecord): Result<SessionCall> {
    if r.observation.Some? then Ok(AcceptCall(r.observation.value, r.delivery))
    else if r.action == "observation" then
      if !StartsWith(r.disposition, INVALID) then Err("observation without payload must be invalid evidence")
      else Ok(InvalidCall(r.time, RemovePrefix(r.disposition, INVALID), r.delivery))
    else Ok(ControlCall(r.action, r.time, r.disposition))
  }

  ghost function ReplayStep(config: ShadowConfig, s: SessionState, r: ShadowRecord): Result<SessionState>
    requires config.Valid()
  {
    var call :- CallOf(r);
    var (t, result) := CallStep(config, s, call);
    if result.Err? then Err(result.error) else Ok(t)
  }

  // The session a capture of records replays into, if no replayed call raises.
  ghost function Replayed(config: ShadowConfig, captured: seq<ShadowRecord>): Result<SessionState>
    requires config.Valid()
  {
    if captured == [] then Ok(NewSession)
    else
      var s :- Replayed(config, Front(captured));
      ReplayStep(config, s, Last(captured))
  }

  lemma {:induction false} ReplayFails(config: ShadowConfig, captured: seq<ShadowRecord>, n: nat)
    requires config.Valid() && n <= |captured| && Replayed(config, captured[..n]).Err?
    ensures Replayed(config, captured).Err?
  {
    if n == |captured| {
      assert captured[..n] == captured;
    } else {
      assert Front(captured)[..n] == captured[..n];
      ReplayFails(config, Front(captured), n);
    }
  }

  // One record, replayed into a running session.
  method ReplayRecord(session: ShadowSession, r: ShadowRecord) returns (ok: bool)
    requires session.config.Valid()
    modifies session
    ensures ok <==> ReplayStep(session.config, old(session.State()), r).Ok?
    ensures ok ==> Ok(session.State()) == ReplayStep(session.config, old(session.State()), r)
  {
    var result;
    if r.observation.Some? {
      result := session.Accept(r.observation.value, r.delivery);
    } else if r.action == "observation" {
      if !StartsWith(r.disposition, INVALID) {
        return false;
      }
      result := session.Invalid(r.time, RemovePrefix(r.disposition, INVALID), r.delivery);
    } else {
      result := session.Control(r.action, r.time, r.disposition);
    }
    ok := result.Ok?;
  }

  // The replay driver: a fresh session, fed with the records' own inputs.
  method Replay(config: ShadowConfig, captured: seq<ShadowRecord>) returns (r: Result<seq<ShadowRecord>>)
    requires config.Valid()
    ensures r.Ok? <==> Replayed(config, captured).Ok?
    ensures r.Ok? ==> r.value == Replayed(config, captured).value.records
  {
    var session := new ShadowSession(config);
    for i := 0 to |captured|
      invariant session.config == config && fresh(session)
      invariant Replayed(config, captured[..i]) == Ok(session.State())
    {
      assert Front(captured[..i + 1]) == captured[..i];
      var ok := ReplayRecord(session, captured[i]);
      if !ok {
        ReplayFails(config, captured, i + 1);
        return Err("replayed call raised");
      }
    }
    assert captured[..|captured|] == captured;
    r := Ok(session.records);
  }

  // ----- reachable sessions -----

  // Bars of one instrument, each observed strictly later than the one before.
  ghost predicate Increasing(history: seq<Bar>) {
    forall i, j :: 0 <= i < j < |history| ==> history[i].observed < history[j].observed
  }

  // Minute bars of one instrument, from the session's source.
  ghost predicate InWindow(config: ShadowConfig, instrument: Instrument, window: seq<Bar>) {
    forall b :: b in window ==>
      b.instrument == instrument && b.interval == MINUTE && b.provenance.source == config.source
  }

  // The retained bars are the newest of the session's scope, and the newest is the latest seen.
  ghost predicate Retained(config: ShadowConfig, s: SessionState, instrument: Instrument) {
    var history := HistoryFor(s, instrument);
    && Increasing(history)
    && InWindow(config, instrument, history)
    && (history != [] ==> (BarKind, instrument) in s.latest
                          && s.latest[(BarKind, instrument)] == BarSeen(Last(history)))
    && ((BarKind, instrument) in s.latest ==> history != [])
  }

  // The latest observation of each kind and instrument has been seen.
  ghost predicate LatestSeen(s: SessionState) {
    forall k :: k in s.latest ==> (k.0, k.1, s.latest[k].Observed()) in s.seen
  }

  ghost predicate Reachable(config: ShadowConfig, s: SessionState) {
    LatestSeen(s) && forall i :: Retained(config, s, i)
  }

  // A bar is accepted only strictly after the latest of its instrument.
  lemma AcceptedLater(config: ShadowConfig, s: SessionState, bar: Bar, delivery: string)
    requires Reachable(config, s) && Disposition(s, BarSeen(bar), delivery) == "accepted"
    ensures var history := HistoryFor(s, bar.instrument); history != [] ==> Last(history).observed < bar.observed
  {
    assert Retained(config, s, bar.instrument);
  }

  lemma LastNIncreasing(history: seq<Bar>, n: nat)
    requires Increasing(history)
    ensures Increasing(LastN(history, n))
  {
  }

  lemma IncreasingSnoc(history: seq<Bar>, bar: Bar)
    requires Increasing(history) && (history != [] ==> Last(history).observed < bar.observed)
    ensures Increasing(history + [bar])
  {
    forall i | 0 <= i < |history| ensures history[i].observed < bar.observed {
      assert i == |history| - 1 || history[i].observed < Last(history).observed;
    }
  }

  lemma LastNScope(config: ShadowConfig, instrument: Instrument, history: seq<Bar>, bar: Bar, n: nat)
    requires InWindow(config, instrument, history) && InWindow(config, instrument, [bar])
    ensures InWindow(config, instrument, LastN(history + [bar], n))
  {
    forall b | b in LastN(history + [bar], n)
      ensures b.instrument == instrument && b.interval == MINUTE && b.provenance.source == config.source
    {
      assert b in history || b in [bar];
    }
  }

  // The window after one more bar of the session's scope.
  lemma WindowKept(config: ShadowConfig, s: SessionState, bar: Bar, delivery: string)
    requires config.Valid() && Reachable(config, s) && InSessionScope(config, BarSeen(bar))
    requires Disposition(s, BarSeen(bar), delivery) == "accepted"
    ensures var window := Window(config, s, bar);
            Increasing(window) && InWindow(config, bar.instrument, window)
  {
    var history, n := HistoryFor(s, bar.instrument), StrategyFor(config.strategies, bar.instrument).window;
    AcceptedLater(config, s, bar, delivery);
    assert Retained(config, s, bar.instrument);
    IncreasingSnoc(history, bar);
    LastNIncreasing(history + [bar], n);
    LastNScope(config, bar.instrument, history, bar, n);
  }

  // Increasing bars of one instrument, interval and source always satisfy the kernel.
  lemma WindowComputable(config: ShadowConfig, window: seq<Bar>)
    requires window != [] && Increasing(window) && InWindow(config, Last(window).instrument, window)
    ensures Computable(config, window) <==> Trimmed(config.session)
  {
    var m := DatasetFor(config, window);
    forall b | b in window ensures InScope(b, m) {
      var i :| 0 <= i < |window| && window[i] == b;
      assert i == 0 || window[0].observed < window[i].observed;
      assert i == |window| - 1 || window[i].observed < Last(window).observed;
    }
    forall i, j | 0 <= i < j < |window| ensures BarIdentity(window[i]) != BarIdentity(window[j]) {
      assert window[i].observed < window[j].observed;
    }
  }

  lemma TakenReachable(config: ShadowConfig, s: SessionState, o: Observation, delivery: string)
    requires config.Valid() && Reachable(config, s) && InSessionScope(config, o)
    requires Disposition(s, o, delivery) == "accepted"
    ensures Reachable(config, Taken(config, s, o, delivery))
  {
    var t := Taken(config, s, o, delivery);
    forall i ensures Retained(config, t, i) {
      assert Retained(config, s, i);
      if o.BarSeen? && i == o.bar.instrument {
        WindowKept(config, s, o.bar, delivery);
      }
    }
  }

  lemma SameDataReachable(config: ShadowConfig, s: SessionState, t: SessionState)
    requires Reachable(config, s) && t.bars == s.bars && t.latest == s.latest && t.seen == s.seen
    ensures Reachable(config, t)
  {
    forall i ensures Retained(config, t, i) {
      assert Retained(config, s, i);
    }
  }

  // With a trimmed session, an accepted bar is always computed with.
  lemma AlwaysComputable(config: ShadowConfig, s: SessionState, bar: Bar, delivery: string)
    requires config.Valid() && Reachable(config, s) && InSessionScope(config, BarSeen(bar))
    requires Disposition(s, BarSeen(bar), delivery) == "accepted"
    ensures Computable(config, Window(config, s, bar)) <==> Trimmed(config.session)
  {
    WindowKept(config, s, bar, delivery);
    WindowComputable(config, Window(config, s, bar));
  }

  lemma ConcludedData(
    config: ShadowConfig, u: SessionState, o: Observation, delivery: string, now: int, disposition: string,
    derived: Option<Derived>)
    ensures var (t, result) := Concluded(config, u, o, delivery, now, disposition, derived);
            && t == u.(health := t.health, records := t.records)
            && (result.Ok? <==> derived.Some?)
            && t.records == (if result.Ok? then u.records + [result.value] else u.records)
            && (result.Ok? ==>
                  && result.value.observation == Some(o) && result.value.disposition == disposition
                  && result.value.delivery == delivery && result.value.action == "observation"
                  && result.value.feature == derived.value.feature)
  {
  }

  // Only an accepted observation changes what the session remembers.
  lemma ReceivedData(config: ShadowConfig, s: SessionState, o: Observation, delivery: string, now: int)
    requires config.Valid() && InSessionScope(config, o)
    ensures var disposition := Disposition(s, o, delivery);
            var u := if disposition == "accepted" then Taken(config, s, o, delivery) else s;
            var derived := if disposition == "accepted" then DerivedBy(config, s, o, delivery, now) else Some(NothingDerived);
            Received(config, s, o, delivery, now) == Concluded(config, u, o, delivery, now, disposition, derived)
  {
  }

  lemma TakenRecords(config: ShadowConfig, s: SessionState, o: Observation, delivery: string)
    requires config.Valid() && InSessionScope(config, o)
    ensures Taken(config, s, o, delivery).records == s.records
  {
  }

  // What became of an observation of the session's scope.
  lemma ReceivedCases(config: ShadowConfig, s: SessionState, o: Observation, delivery: string, now: int)
    requires config.Valid() && InSessionScope(config, o)
    ensures var (t, result) := Received(config, s, o, delivery, now);
            var accepted := Disposition(s, o, delivery) == "accepted";
            var u := if accepted then Taken(config, s, o, delivery) else s;
            && t == u.(health := t.health, records := t.records)
            && (result.Ok? <==> !accepted || DerivedBy(config, s, o, delivery, now).Some?)
            && t.records == (if result.Ok? then s.records + [result.value] else s.records)
            && (result.Ok? ==>
                  && result.value.observation == Some(o) && result.value.disposition == Disposition(s, o, delivery)
                  && result.value.delivery == delivery && result.value.action == "observation"
                  && (accepted ==> result.value.feature == DerivedBy(config, s, o, delivery, now).value.feature))
  {
    ReceivedData(config, s, o, delivery, now);
    var disposition := Disposition(s, o, delivery);
    if disposition == "accepted" {
      TakenRecords(config, s, o, delivery);
      ConcludedData(config, Taken(config, s, o, delivery), o, delivery, now, disposition,
                    DerivedBy(config, s, o, delivery, now));
    } else {
      ConcludedData(config, s, o, delivery, now, disposition, Some(NothingDerived));
    }
  }

  lemma ReceivedReachable(config: ShadowConfig, s: SessionState, o: Observation, delivery: string, now: int)
    requires config.Valid() && Reachable(config, s) && InSessionScope(config, o)
    ensures Reachable(config, Received(config, s, o, delivery, now).0)
  {
    ReceivedCases(config, s, o, delivery, now);
    if Disposition(s, o, delivery) == "accepted" {
      TakenReachable(config, s, o, delivery);
      SameDataReachable(config, Taken(config, s, o, delivery), Received(config, s, o, delivery, now).0);
    } else {
      SameDataReachable(config, s, Received(config, s, o, delivery, now).0);
    }
  }

  lemma ControlledData(config: ShadowConfig, s: SessionState, action: string, now: int)
    ensures var t := Controlled(config, s, action, now); t == s.(health := t.health, connected := t.connected)
  {
    if action == "connected" {
      assert Controlled(config, s, action, now) == Refreshed(config, s.(connected := true), now);
    }
  }

  // A control keeps what was remembered, and records itself unless it raises.
  lemma ControlData(config: ShadowConfig, s: SessionState, action: string, now: int, detail: string)
    ensures var (t, result) := ControlStep(config, s, action, now, detail);
            && t == s.(health := t.health, connected := t.connected, now := t.now, records := t.records)
            && t.records == if result.Ok? then s.records + [result.value] else s.records
  {
    var (t, fault) := Advance(config, s, now);
    if fault.None? && action in CONTROLS && !Terminal(t.health) {
      ControlledData(config, t, action, now);
      NotedData(config, Controlled(config, t, action, now), now, action, if detail != "" then detail else action);
    }
  }

  lemma NotedData(config: ShadowConfig, s: SessionState, now: int, action: string, disposition: string)
    ensures var (t, result) := Noted(config, s, now, action, disposition, None, "", NothingDerived);
            result.Ok? && t == s.(records := s.records + [result.value])
  {
  }

  lemma InvalidData(config: ShadowConfig, s: SessionState, now: int, detail: string, delivery: string)
    ensures var (t, result) := InvalidStep(config, s, now, detail, delivery);
            && t == s.(health := t.health, now := t.now, records := t.records)
            && t.records == if result.Ok? then s.records + [result.value] else s.records
  {
    var t := Advance(config, s, now).0;
    assert t == s.(health := t.health, now := t.now);
    assert Refreshed(config, t, now) == t.(health := RefreshedHealth(config, t, now));
  }

  // An accepted call either stops at its checks, or receives the observation.
  lemma AcceptCases(config: ShadowConfig, s: SessionState, o: Observation, delivery: string)
    requires config.Valid()
    ensures var (t, fault) := Advance(config, s, o.Available());
            var u := AcceptStep(config, s, o, delivery).0;
            if fault.None? && !Terminal(t.health) && InSessionScope(config, o)
            then AcceptStep(config, s, o, delivery) == Received(config, t, o, delivery, o.Available())
            else AcceptStep(config, s, o, delivery).1.Err? && u == s.(health := u.health, now := u.now)
    ensures Advance(config, s, o.Available()).0
         == s.(health := Advance(config, s, o.Available()).0.health, now := Advance(config, s, o.Available()).0.now)
  {
  }

  lemma StepReachable(config: ShadowConfig, s: SessionState, c: SessionCall)
    requires config.Valid() && Reachable(config, s)
    ensures Reachable(config, CallStep(config, s, c).0)
  {
    match c
    case ControlCall(action, now, detail) =>
      ControlData(config, s, action, now, detail);
      SameDataReachable(config, s, CallStep(config, s, c).0);
    case InvalidCall(now, detail, delivery) =>
      InvalidData(config, s, now, detail, delivery);
      SameDataReachable(config, s, CallStep(config, s, c).0);
    case AcceptCall(o, delivery) =>
      AcceptCases(config, s, o, delivery);
      var (t, fault) := Advance(config, s, o.Available());
      SameDataReachable(config, s, t);
      if fault.None? && !Terminal(t.health) && InSessionScope(config, o) {
        ReceivedReachable(config, t, o, delivery, o.Available());
      } else {
        SameDataReachable(config, s, CallStep(config, s, c).0);
      }
  }

  lemma {:induction false} AfterReachable(config: ShadowConfig, calls: seq<SessionCall>)
    requires config.Valid()
    ensures Reachable(config, After(config, calls))
  {
    if calls != [] {
      AfterReachable(config, Front(calls));
      StepReachable(config, After(config, Front(calls)), Last(calls));
    }
  }

  // ----- replay is a fixpoint -----

  // A session and its replay: raised calls may have moved only the clock, or failed the session.
  ghost predicate Alike(s: SessionState, r: SessionState) {
    && r == s.(now := r.now, health := r.health)
    && (r.now.Some? ==> s.now.Some? && r.now.value <= s.now.value)
    && (s.health == r.health || s.health == Failed)
  }

  // A call that gets past the clock, the bound and the terminal check finds both sessions the same.
  lemma AdvanceAlike(config: ShadowConfig, s: SessionState, r: SessionState, now: int)
    requires Alike(s, r)
    ensures var (t, fault) := Advance(config, s, now);
            if fault.Some? || Terminal(t.health) then t == s.(health := t.health, now := t.now) && Alike(t, r)
            else Advance(config, r, now) == (t, None)
  {
  }

  lemma ControlAlike(config: ShadowConfig, s: SessionState, r: SessionState, action: string, now: int, detail: string)
    requires Alike(s, r)
    ensures var (t, result) := ControlStep(config, s, action, now, detail);
            if result.Err? then Alike(t, r)
            else
              && CallOf(result.value) == Ok(ControlCall(action, now, result.value.disposition))
              && ControlStep(config, r, action, now, result.value.disposition) == (t, result)
  {
    AdvanceAlike(config, s, r, now);
    var (t, fault) := Advance(config, s, now);
    if fault.None? && !Terminal(t.health) {
      if action in CONTROLS {
        ControlRecorded(config, t, action, now, detail);
      } else {
        assert Alike(t, r);
      }
    }
  }

  // A control's record asks for the same control, and noting that notes the same.
  lemma ControlRecorded(config: ShadowConfig, s: SessionState, action: string, now: int, detail: string)
    requires action in CONTROLS
    ensures var (t, result) := ControlNoted(config, s, action, now, detail);
            && result.Ok? && CallOf(result.value) == Ok(ControlCall(action, now, result.value.disposition))
            && ControlNoted(config, s, action, now, result.value.disposition) == (t, result)
  {
    assert "observation" !in CONTROLS;
  }

  lemma InvalidAlike(config: ShadowConfig, s: SessionState, r: SessionState, now: int, detail: string, delivery: string)
    requires Alike(s, r)
    ensures var (t, result) := InvalidStep(config, s, now, detail, delivery);
            if result.Err? then Alike(t, r)
            else
              && CallOf(result.value) == Ok(InvalidCall(now, detail, delivery))
              && InvalidStep(config, r, now, detail, delivery) == (t, result)
  {
    AdvanceAlike(config, s, r, now);
  }

  // Every observation that gets as far as being received is recorded: the session is trimmed,
  // or so bounded that connecting uses up its only record.
  ghost predicate Recordable(config: ShadowConfig, s: SessionState) {
    Trimmed(config.session) || (config.maximumRecords < 2 && (s.connected ==> s.records != []))
  }

  predicate OutOfScope(config: ShadowConfig, c: SessionCall) {
    c.AcceptCall? ==> !InSessionScope(config, c.observation)
  }

  ghost predicate NoneInScope(config: ShadowConfig, calls: seq<SessionCall>) {
    forall c :: c in calls ==> OutOfScope(config, c)
  }

  lemma AlwaysRecorded(config: ShadowConfig, s: SessionState, o: Observation, delivery: string, now: int)
    requires config.Valid() && Reachable(config, s) && InSessionScope(config, o)
    requires Trimmed(config.session) || !s.connected
    ensures Received(config, s, o, delivery, now).1.Ok?
    ensures CallOf(Received(config, s, o, delivery, now).1.value) == Ok(AcceptCall(o, delivery))
  {
    ReceivedCases(config, s, o, delivery, now);
    if o.BarSeen? && Disposition(s, o, delivery) == "accepted" {
      AlwaysComputable(config, s, o.bar, delivery);
    }
  }

  // Sessions that the clock takes to the same state accept alike.
  lemma AcceptsAlike(
    config: ShadowConfig, s: SessionState, r: SessionState, t: SessionState, o: Observation, delivery: string)
    requires config.Valid() && Reachable(config, s) && Recordable(config, s)
    requires Advance(config, s, o.Available()) == (t, None) && Advance(config, r, o.Available()) == (t, None)
    requires !Terminal(t.health) && InSessionScope(config, o)
    ensures AcceptStep(config, s, o, delivery) == AcceptStep(config, r, o, delivery)
    ensures AcceptStep(config, s, o, delivery).1.Ok?
    ensures CallOf(AcceptStep(config, s, o, delivery).1.value) == Ok(AcceptCall(o, delivery))
  {
    AcceptPast(config, s, t, o, delivery);
    AcceptPast(config, r, t, o, delivery);
    MovedRecords(config, s, t, o, delivery);
  }

  lemma MovedOn(config: ShadowConfig, s: SessionState, now: int, t: SessionState)
    requires Advance(config, s, now) == (t, None)
    ensures t.bars == s.bars && t.latest == s.latest && t.seen == s.seen && t.connected == s.connected
    ensures Recordable(config, s) ==> Trimmed(config.session) || !t.connected
  {
  }

  lemma MovedRecords(config: ShadowConfig, s: SessionState, t: SessionState, o: Observation, delivery: string)
    requires config.Valid() && Reachable(config, s) && Recordable(config, s) && InSessionScope(config, o)
    requires Advance(config, s, o.Available()) == (t, None)
    ensures Received(config, t, o, delivery, o.Available()).1.Ok?
    ensures CallOf(Received(config, t, o, delivery, o.Available()).1.value) == Ok(AcceptCall(o, delivery))
  {
    MovedOn(config, s, o.Available(), t);
    SameDataReachable(config, s, t);
    AlwaysRecorded(config, t, o, delivery, o.Available());
  }

  lemma AcceptAlike(config: ShadowConfig, s: SessionState, r: SessionState, o: Observation, delivery: string)
    requires config.Valid() && Alike(s, r) && Reachable(config, s)
    requires Recordable(config, s) || !InSessionScope(config, o)
    ensures var (t, result) := AcceptStep(config, s, o, delivery);
            if result.Err? then Alike(t, r)
            else
              && CallOf(result.value) == Ok(AcceptCall(o, delivery))
              && AcceptStep(config, r, o, delivery) == (t, result)
  {
    var (t, fault) := Advance(config, s, o.Available());
    if fault.None? && !Terminal(t.health) && InSessionScope(config, o) {
      AdvanceAlike(config, s, r, o.Available());
      AcceptsAlike(config, s, r, t, o, delivery);
    } else {
      AcceptRefused(config, s, r, o, delivery);
    }
  }

  lemma AcceptPast(config: ShadowConfig, s: SessionState, t: SessionState, o: Observation, delivery: string)
    requires config.Valid() && Advance(config, s, o.Available()) == (t, None)
    requires !Terminal(t.health) && InSessionScope(config, o)
    ensures AcceptStep(config, s, o, delivery) == Received(config, t, o, delivery, o.Available())
  {
  }

  lemma AcceptRefused(config: ShadowConfig, s: SessionState, r: SessionState, o: Observation, delivery: string)
    requires config.Valid() && Alike(s, r)
    requires var (t, fault) := Advance(config, s, o.Available());
             fault.Some? || Terminal(t.health) || !InSessionScope(config, o)
    ensures var (t, result) := AcceptStep(config, s, o, delivery);
            result.Err? && Alike(t, r)
  {
    AdvanceAlike(config, s, r, o.Available());
    var (t, fault) := Advance(config, s, o.Available());
    if fault.None? && !Terminal(t.health) {
      OnlyClock(config, r, o.Available(), t);
    }
  }

  // Failing after the clock has advanced moves no more than clock and health.
  lemma OnlyClock(config: ShadowConfig, r: SessionState, now: int, t: SessionState)
    requires Advance(config, r, now) == (t, None)
    ensures Alike(t.(health := Failed), r)
  {
  }

  lemma StepAlike(config: ShadowConfig, s: SessionState, r: SessionState, c: SessionCall)
    requires config.Valid() && Alike(s, r) && Reachable(config, s) && (Recordable(config, s) || OutOfScope(config, c))
    ensures var (t, result) := CallStep(config, s, c);
            if result.Err? then Alike(t, r)
            else var u := ReplayStep(config, r, result.value); u.Ok? && Alike(t, u.value)
  {
    match c
    case ControlCall(action, now, detail) => ControlAlike(config, s, r, action, now, detail);
    case InvalidCall(now, detail, delivery) => InvalidAlike(config, s, r, now, detail, delivery);
    case AcceptCall(o, delivery) => AcceptAlike(config, s, r, o, delivery);
  }

  // A call that raises leaves the records as they were; one that does not adds its record.
  lemma StepRecords(config: ShadowConfig, s: SessionState, c: SessionCall)
    requires config.Valid()
    ensures var (t, result) := CallStep(config, s, c);
            t.records == if result.Ok? then s.records + [result.value] else s.records
  {
    match c
    case ControlCall(action, now, detail) => ControlData(config, s, action, now, detail);
    case InvalidCall(now, detail, delivery) => InvalidData(config, s, now, detail, delivery);
    case AcceptCall(o, delivery) =>
      AcceptCases(config, s, o, delivery);
      var (t, fault) := Advance(config, s, o.Available());
      if fault.None? && !Terminal(t.health) && InSessionScope(config, o) {
        ReceivedRecords(config, t, o, delivery, o.Available());
      }
  }

  lemma ReceivedRecords(config: ShadowConfig, s: SessionState, o: Observation, delivery: string, now: int)
    requires config.Valid() && InSessionScope(config, o)
    ensures var (t, result) := Received(config, s, o, delivery, now);
            t.records == if result.Ok? then s.records + [result.value] else s.records
  {
    ReceivedCases(config, s, o, delivery, now);
  }

  lemma StepRecordable(config: ShadowConfig, s: SessionState, c: SessionCall)
    requires config.Valid() && Recordable(config, s)
    ensures Recordable(config, CallStep(config, s, c).0)
  {
    match c
    case ControlCall(action, now, detail) => ControlRecordable(config, s, action, now, detail);
    case InvalidCall(now, detail, delivery) => InvalidData(config, s, now, detail, delivery);
    case AcceptCall(o, delivery) =>
      StepRecords(config, s, c);
      AcceptConnected(config, s, o, delivery);
  }

  lemma ControlRecordable(config: ShadowConfig, s: SessionState, action: string, now: int, detail: string)
    requires Recordable(config, s)
    ensures Recordable(config, ControlStep(config, s, action, now, detail).0)
  {
    ControlData(config, s, action, now, detail);
    var (t, result) := ControlStep(config, s, action, now, detail);
    if result.Err? {
      assert t.connected == s.connected;
    }
  }

  lemma AcceptConnected(config: ShadowConfig, s: SessionState, o: Observation, delivery: string)
    requires config.Valid()
    ensures AcceptStep(config, s, o, delivery).0.connected == s.connected
  {
    AcceptCases(config, s, o, delivery);
    var (t, fault) := Advance(config, s, o.Available());
    if fault.None? && !Terminal(t.health) && InSessionScope(config, o) {
      ReceivedCases(config, t, o, delivery, o.Available());
      TakenConnected(config, t, o, delivery);
    }
  }

  lemma TakenConnected(config: ShadowConfig, s: SessionState, o: Observation, delivery: string)
    requires config.Valid() && InSessionScope(config, o)
    ensures Taken(config, s, o, delivery).connected == s.connected
  {
  }

  // Replaying the records of a history of calls reproduces them.
  ghost predicate Reproduced(config: ShadowConfig, calls: seq<SessionCall>)
    requires config.Valid()
  {
    var records := After(config, calls).records;
    Replayed(config, records).Ok? && Replayed(config, records).value.records == records
  }

  lemma {:induction false} ReplayAlike(config: ShadowConfig, calls: seq<SessionCall>)
    requires config.Valid()
    requires Trimmed(config.session) || config.maximumRecords < 2 || NoneInScope(config, calls)
    ensures var s := After(config, calls);
            && (Trimmed(config.session) || config.maximumRecords < 2 ==> Recordable(config, s))
            && Replayed(config, s.records).Ok? && Alike(s, Replayed(config, s.records).value)
  {
    if calls != [] {
      assert calls == Front(calls) + [Last(calls)];
      ReplayAlike(config, Front(calls));
      AfterReachable(config, Front(calls));
      var s := After(config, Front(calls));
      var r := Replayed(config, s.records).value;
      if Recordable(config, s) {
        StepRecordable(config, s, Last(calls));
      }
      StepAlike(config, s, r, Last(calls));
      StepRecords(config, s, Last(calls));
      var (t, result) := CallStep(config, s, Last(calls));
      if result.Ok? {
        assert Front(t.records) == s.records && Last(t.records) == result.value;
      }
    }
  }

  // Replay is a fixpoint for every history of calls, including calls that raise, if the session's
  // name is trimmed, only one record may be held, or no observation is in scope.
  lemma ReplayFixpoint(config: ShadowConfig, calls: seq<SessionCall>)
    requires config.Valid()
    requires Trimmed(config.session) || config.maximumRecords < 2 || NoneInScope(config, calls)
    ensures Reproduced(config, calls)
  {
    ReplayAlike(config, calls);
  }

  // A call a caller can make: the constructors of its observation accept it, and so its source
  // is trimmed.
  predicate Constructible(c: SessionCall) {
    c.AcceptCall? ==>
      && c.observation.Source() != "" && Trimmed(c.observation.Source())
      && (if c.observation.BarSeen? then c.observation.bar.Valid() else c.observation.quote.Valid())
  }

  ghost predicate AllConstructible(calls: seq<SessionCall>) {
    forall c :: c in calls ==> Constructible(c)
  }

  // Its name is trimmed, or it may hold only one record, or no observation can have its source.
  predicate Reproducible(config: ShadowConfig) {
    Trimmed(config.session) || config.maximumRecords < 2 || !Trimmed(config.source)
  }

  lemma ReproducibleFixpoint(config: ShadowConfig, calls: seq<SessionCall>)
    requires config.Valid() && Reproducible(config) && AllConstructible(calls)
    ensures Reproduced(config, calls)
  {
    ReplayFixpoint(config, calls);
  }

  // ----- where replay is not a fixpoint -----

  // Connect, then deliver one bar twice.
  function Twice(config: ShadowConfig): seq<SessionCall>
    requires config.strategies != []
  {
    var bar := PlainBar(config);
    [ControlCall("connected", 0, ""), AcceptCall(BarSeen(bar), ""), AcceptCall(BarSeen(bar), "")]
  }

  function PlainBar(config: ShadowConfig): Bar
    requires config.strategies != []
  {
    Bar(config.strategies[0].instrument, MINUTE, 0, 0, SystemReceived, 1.0, 1.0, 1.0, 1.0, None,
        Provenance(config.source, None, None))
  }

  lemma PlainInScope(config: ShadowConfig)
    requires config.Valid()
    ensures InSessionScope(config, BarSeen(PlainBar(config)))
  {
    assert config.strategies[0] in config.strategies;
  }

  lemma NotTerminal(config: ShadowConfig, s: SessionState, now: int)
    requires !Terminal(s.health)
    ensures !Terminal(Refreshed(config, s, now).health)
    ensures Refreshed(config, s, now) == s.(health := Refreshed(config, s, now).health)
  {
  }

  // Connecting a new session.
  lemma Connects(config: ShadowConfig) returns (s: SessionState, r: ShadowRecord)
    requires config.Valid()
    ensures CallStep(config, NewSession, Twice(config)[0]) == (s, Ok(r))
    ensures s == NewSession.(connected := true, now := Some(0), records := [r], health := s.health)
    ensures !Terminal(s.health)
    ensures r.observation.None? && r.action == "connected" && r.time == 0 && r.disposition == "connected"
  {
    var connected := NewSession.(now := Some(0), connected := true);
    NotTerminal(config, connected, 0);
    s, r := CallStep(config, NewSession, Twice(config)[0]).0, CallStep(config, NewSession, Twice(config)[0]).1.value;
    assert Controlled(config, NewSession.(now := Some(0)), "connected", 0) == Refreshed(config, connected, 0);
  }

  // The first delivery raises, and is remembered all the same.
  lemma FirstRaises(config: ShadowConfig, s: SessionState)
    requires config.Valid() && !Trimmed(config.session) && config.maximumRecords >= 2
    requires s.connected && s.now == Some(0) && |s.records| == 1 && !Terminal(s.health)
    requires s.bars == map[] && s.latest == map[] && s.seen == map[]
    ensures var (t, result) := AcceptStep(config, s, BarSeen(PlainBar(config)), "");
            result.Err? && t == Taken(config, s, BarSeen(PlainBar(config)), "")
  {
    var o := BarSeen(PlainBar(config));
    PlainInScope(config);
    AcceptCases(config, s, o, "");
    assert Advance(config, s, 0) == (s, None);
    assert Disposition(s, o, "") == "accepted";
    ReceivedData(config, s, o, "", 0);
  }

  // The second delivery is a duplicate, and recorded.
  lemma SecondRecorded(config: ShadowConfig, t: SessionState) returns (r: ShadowRecord)
    requires config.Valid() && config.maximumRecords >= 2
    requires t.connected && t.now == Some(0) && |t.records| == 1 && !Terminal(t.health)
    requires var o := BarSeen(PlainBar(config)); IdentityOf(o) in t.seen && t.seen[IdentityOf(o)] == (o, "")
    ensures AcceptStep(config, t, BarSeen(PlainBar(config)), "").1 == Ok(r)
    ensures AcceptStep(config, t, BarSeen(PlainBar(config)), "").0.records == t.records + [r]
    ensures r.observation == Some(BarSeen(PlainBar(config))) && r.delivery == "" && r.disposition == "duplicate"
  {
    var o := BarSeen(PlainBar(config));
    PlainInScope(config);
    AcceptCases(config, t, o, "");
    assert Advance(config, t, 0) == (t, None);
    assert Disposition(t, o, "") == "duplicate";
    ReceivedCases(config, t, o, "", 0);
    r := AcceptStep(config, t, o, "").1.value;
  }

  lemma AfterSnoc(config: ShadowConfig, calls: seq<SessionCall>, c: SessionCall)
    requires config.Valid()
    ensures After(config, calls + [c]) == CallStep(config, After(config, calls), c).0
  {
    assert Front(calls + [c]) == calls;
  }

  lemma AfterThree(config: ShadowConfig, a: SessionCall, b: SessionCall, c: SessionCall)
    requires config.Valid()
    ensures var s := CallStep(config, NewSession, a).0;
            var t := CallStep(config, s, b).0;
            After(config, [a, b, c]) == CallStep(config, t, c).0
  {
    AfterSnoc(config, [], a);
    AfterSnoc(config, [a], b);
    AfterSnoc(config, [a, b], c);
    assert [] + [a] == [a] && [a] + [b] == [a, b] && [a, b] + [c] == [a, b, c];
  }

  // The bar that raised leaves no record, its duplicate does.
  lemma TwiceRecorded(config: ShadowConfig) returns (s: SessionState, r0: ShadowRecord, r1: ShadowRecord)
    requires config.Valid() && !Reproducible(config)
    ensures CallStep(config, NewSession, Twice(config)[0]) == (s, Ok(r0))
    ensures After(config, Twice(config)).records == [r0, r1]
    ensures r0.observation.None? && r0.action == "connected" && r0.time == 0 && r0.disposition == "connected"
    ensures AcceptStep(config, s, BarSeen(PlainBar(config)), "").1.Err?
    ensures r1.observation == Some(BarSeen(PlainBar(config))) && r1.delivery == "" && r1.disposition == "duplicate"
  {
    var calls, o := Twice(config), BarSeen(PlainBar(config));
    s, r0 := Connects(config);
    FirstRaises(config, s);
    r1 := SecondRecorded(config, Taken(config, s, o, ""));
    AfterThree(config, calls[0], calls[1], calls[2]);
  }

  // Replay connects, and then raises on the bar as its first delivery did.
  lemma SecondRaises(config: ShadowConfig, s: SessionState, r0: ShadowRecord, r1: ShadowRecord)
    requires config.Valid() && ReplayStep(config, NewSession, r0) == Ok(s) && ReplayStep(config, s, r1).Err?
    ensures Replayed(config, [r0, r1]).Err?
  {
    assert Front([r0]) == [] && Front([r0, r1]) == [r0];
    assert Replayed(config, []) == Ok(NewSession);
    assert Replayed(config, [r0]) == Ok(s);
  }

  lemma TwiceConstructible(config: ShadowConfig)
    requires config.Valid() && Trimmed(config.source)
    ensures AllConstructible(Twice(config))
  {
  }

  // The first record only says that it connected.
  lemma ConnectsAgain(config: ShadowConfig, r0: ShadowRecord)
    requires config.Valid() && r0.observation.None?
    requires r0.action == "connected" && r0.time == 0 && r0.disposition == "connected"
    ensures CallOf(r0) == Ok(ControlCall("connected", 0, "connected"))
    ensures ControlStep(config, NewSession, "connected", 0, "connected")
         == CallStep(config, NewSession, Twice(config)[0])
  {
  }

  // A session whose name has outer white space records the duplicate of a bar that raised, and
  // replaying that record raises.
  lemma UntrimmedSessionBreaks(config: ShadowConfig)
    requires config.Valid() && !Reproducible(config)
    ensures AllConstructible(Twice(config)) && !Reproduced(config, Twice(config))
  {
    TwiceConstructible(config);
    var s, r0, r1 := TwiceRecorded(config);
    ConnectsAgain(config, r0);
    SecondRaises(config, s, r0, r1);
  }

  // Every history of calls a caller can make is reproduced exactly when the session's name is
  // trimmed, it may hold only one record, or its source is one no observation can have.
  lemma ReplayFixpointExactly(config: ShadowConfig)
    requires config.Valid()
    ensures (forall calls: seq<SessionCall> :: AllConstructible(calls) ==> Reproduced(config, calls))
       <==> Reproducible(config)
  {
    if Reproducible(config) {
      forall calls: seq<SessionCall> | AllConstructible(calls) ensures Reproduced(config, calls) {
        ReproducibleFixpoint(config, calls);
      }
    } else {
      UntrimmedSessionBreaks(config);
    }
  }
}
