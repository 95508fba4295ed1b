// Written captures load and verify; cut captures load as incomplete and verify to what is left.
module CaptureRecovery {
  import opened Collections
  import opened Domain
  import opened Risk
  import opened Session
  import opened SessionReplay
  import opened Capture
  import opened CaptureConfig
  import opened CaptureFile

  // Constructed observations are valid; malformed input has a stated detail.
  ghost predicate WellCalled(calls: seq<SessionCall>) {
    forall c :: c in calls ==> WellFormedCall(c)
  }

  predicate WellFormedCall(c: SessionCall) {
    Constructible(c) && (c.InvalidCall? ==> c.detail != "")
  }

  ghost predicate AllShaped(config: ShadowConfig, records: seq<ShadowRecord>) {
    forall n :: 0 <= n < |records| ==> Shaped(config, records[n], n)
  }

  // ----- what a session records -----

  lemma ControlShaped(config: ShadowConfig, s: SessionState, action: string, now: int, detail: string)
    ensures var result := ControlStep(config, s, action, now, detail).1;
            result.Ok? ==> Shaped(config, result.value, |s.records|) && result.value.action == action
  {
    var (t, fault) := Advance(config, s, now);
    if fault.None? && action in CONTROLS && !Terminal(t.health) {
      ControlledData(config, t, action, now);
    }
  }

  lemma InvalidShaped(config: ShadowConfig, s: SessionState, now: int, detail: string, delivery: string)
    requires detail != ""
    ensures var result := InvalidStep(config, s, now, detail, delivery).1;
            result.Ok? ==> Shaped(config, result.value, |s.records|)
  {
  }

  lemma ConcludedShaped(
    config: ShadowConfig, u: SessionState, o: Observation, delivery: string, now: int, disposition: string,
    derived: Option<Derived>)
    requires ValidObservation(o)
    ensures var result := Concluded(config, u, o, delivery, now, disposition, derived).1;
            result.Ok? ==> Shaped(config, result.value, |u.records|)
  {
  }

  lemma AcceptShaped(config: ShadowConfig, s: SessionState, o: Observation, delivery: string)
    requires config.Valid() && ValidObservation(o)
    ensures var result := AcceptStep(config, s, o, delivery).1;
            result.Ok? ==> Shaped(config, result.value, |s.records|)
  {
    AcceptCases(config, s, o, delivery);
    var (t, fault) := Advance(config, s, o.Available());
    if fault.None? && !Terminal(t.health) && InSessionScope(config, o) {
      var now, disposition := o.Available(), Disposition(t, o, delivery);
      ReceivedData(config, t, o, delivery, now);
      TakenRecords(config, t, o, delivery);
      if disposition == "accepted" {
        ConcludedShaped(config, Taken(config, t, o, delivery), o, delivery, now, disposition,
                        DerivedBy(config, t, o, delivery, now));
      } else {
        ConcludedShaped(config, t, o, delivery, now, disposition, Some(NothingDerived));
      }
    }
  }

  lemma {:induction false} RecordsShaped(config: ShadowConfig, calls: seq<SessionCall>)
    requires config.Valid() && WellCalled(calls)
    ensures AllShaped(config, After(config, calls).records)
  {
    if calls != [] {
      var front, c := Front(calls), Last(calls);
      assert calls == front + [c];
      RecordsShaped(config, front);
      var s := After(config, front);
      StepRecords(config, s, c);
      assert c in calls && WellFormedCall(c);
      match c
      case ControlCall(action, now, detail) => ControlShaped(config, s, action, now, detail);
      case InvalidCall(now, detail, delivery) => InvalidShaped(config, s, now, detail, delivery);
      case AcceptCall(o, delivery) => AcceptShaped(config, s, o, delivery);
    }
  }

  // ----- reading back what was written -----

  function Inputs(records: seq<ShadowRecord>): seq<ReplayInput> {
    Map((r: ShadowRecord) => InputOf(r), records)
  }

  lemma ReadInputsSnoc(
    config: ShadowConfig, lines: seq<Line>, earlier: seq<ReplayInput>, content: Json, input: ReplayInput)
    requires ReadInputs(config, lines) == Ok(earlier) && DecodeInput(content, config, |earlier|) == Ok(input)
    ensures ReadInputs(config, lines + [Line(Some(content), true)]) == Ok(earlier + [input])
  {
    assert Front(lines + [Line(Some(content), true)]) == lines;
  }

  lemma ShapedFront(config: ShadowConfig, records: seq<ShadowRecord>)
    requires AllShaped(config, records) && records != []
    ensures AllShaped(config, Front(records)) && Shaped(config, Last(records), |Front(records)|)
    ensures records == Front(records) + [Last(records)]
  {
  }

  lemma WrittenSnoc(records: seq<ShadowRecord>, r: ShadowRecord)
    ensures WrittenRecords(records + [r]) == WrittenRecords(records) + [Line(Some(EncodeRecord(r)), true)]
    ensures Inputs(records + [r]) == Inputs(records) + [InputOf(r)]
  {
  }

  lemma {:induction false} InputsReadBack(config: ShadowConfig, records: seq<ShadowRecord>)
    requires AllShaped(config, records)
    ensures ReadInputs(config, WrittenRecords(records)) == Ok(Inputs(records))
  {
    if records != [] {
      var front, last := Front(records), Last(records);
      ShapedFront(config, records);
      InputsReadBack(config, front);
      RecordRoundTrip(config, last, |front|);
      ReadInputsSnoc(config, WrittenRecords(front), Inputs(front), EncodeRecord(last), InputOf(last));
      WrittenSnoc(front, last);
    }
  }

  lemma HeaderReadBack(config: ShadowConfig, lines: seq<Line>)
    requires ConfigContract(config) && lines != [] && lines[0] == Line(Some(Header(config)), true)
    ensures ReadHeader(lines) == Ok(config)
  {
    ConfigRoundTrip(config);
    assert Header(config).entries.Keys == {FSchema, FConfig};
  }

  const Fragment := Line(None, false)

  // The file of these records, possibly ending in a cut line.
  function FileOf(config: ShadowConfig, records: seq<ShadowRecord>, cut: bool): seq<Line> {
    Written(config, records) + if cut then [Fragment] else []
  }

  lemma BodyRead(written: seq<Line>, cut: bool)
    requires forall l :: l in written ==> l.content.Some?
    ensures var body := written + if cut then [Fragment] else [];
            Truncated(body) == cut && (if Truncated(body) then Front(body) else body) == written
  {
  }

  lemma FileLoads(config: ShadowConfig, records: seq<ShadowRecord>, cut: bool)
    requires ConfigContract(config) && AllShaped(config, records)
    ensures Loaded(FileOf(config, records, cut))
         == Ok(CaptureOf(config, Inputs(records), cut))
  {
    var lines := FileOf(config, records, cut);
    HeaderReadBack(config, lines);
    InputsReadBack(config, records);
    assert lines[1..] == WrittenRecords(records) + if cut then [Fragment] else [];
    BodyRead(WrittenRecords(records), cut);
  }

  // ----- verifying -----

  lemma {:induction false} RecomputedIsReplayed(config: ShadowConfig, records: seq<ShadowRecord>)
    requires config.Valid() && AllShaped(config, records)
    ensures Replayed(config, records).Ok? ==> Recomputed(config, Inputs(records)) == Replayed(config, records)
  {
    if records != [] {
      assert AllShaped(config, Front(records));
      RecomputedIsReplayed(config, Front(records));
      assert Front(Inputs(records)) == Inputs(Front(records)) && Last(Inputs(records)) == InputOf(Last(records));
      assert Shaped(config, records[|records| - 1], |records| - 1);
      assert CallOf(Last(records)) == Ok(CallOfInput(InputOf(Last(records))));
    }
  }

  lemma InputsPersist(records: seq<ShadowRecord>)
    ensures Persisted(records, Inputs(records))
  {
  }

  // A replay that gives its records back does so without the last.
  lemma ReplayedFront(config: ShadowConfig, records: seq<ShadowRecord>)
    requires config.Valid() && records != []
    requires Replayed(config, records).Ok? && Replayed(config, records).value.records == records
    ensures Replayed(config, Front(records)).Ok? && Replayed(config, Front(records)).value.records == Front(records)
  {
    StepFront(config, Replayed(config, Front(records)).value, Last(records), records);
  }

  lemma StepFront(config: ShadowConfig, s: SessionState, r: ShadowRecord, records: seq<ShadowRecord>)
    requires config.Valid() && records != []
    requires ReplayStep(config, s, r).Ok? && ReplayStep(config, s, r).value.records == records
    ensures s.records == Front(records)
  {
    StepRecords(config, s, CallOf(r).value);
  }

  // A replay of a prefix is the prefix of the replay.
  lemma {:induction false} ReplayedPrefix(config: ShadowConfig, records: seq<ShadowRecord>, n: nat)
    requires config.Valid() && n <= |records|
    requires Replayed(config, records).Ok? && Replayed(config, records).value.records == records
    ensures Replayed(config, records[..n]).Ok? && Replayed(config, records[..n]).value.records == records[..n]
  {
    if n == |records| {
      assert records[..n] == records;
    } else {
      ReplayedFront(config, records);
      assert Front(records)[..n] == records[..n];
      ReplayedPrefix(config, Front(records), n);
    }
  }

  // Every call on a terminal session raises.
  lemma TerminalRaises(config: ShadowConfig, s: SessionState, c: SessionCall)
    requires config.Valid() && Terminal(s.health)
    ensures CallStep(config, s, c).1.Err?
  {
    match c
    case ControlCall(_, _, _) =>
    case InvalidCall(_, _, _) =>
    case AcceptCall(o, delivery) => AcceptCases(config, s, o, delivery);
  }

  lemma StopsOrFails(config: ShadowConfig, s: SessionState, action: string, now: int, detail: string)
    requires ControlStep(config, s, action, now, detail).1.Ok?
    ensures action == "stopped" ==> ControlStep(config, s, action, now, detail).0.health == Stopped
    ensures action == "failed" ==> ControlStep(config, s, action, now, detail).0.health == Failed
  {
  }

  // A record that ends a session leaves its replay terminal.
  lemma EndsTerminal(config: ShadowConfig, records: seq<ShadowRecord>)
    requires config.Valid() && records != [] && Replayed(config, records).Ok?
    requires Shaped(config, Last(records), |records| - 1)
    ensures Last(records).action == "stopped" ==> Replayed(config, records).value.health == Stopped
    ensures Last(records).action == "failed" ==> Replayed(config, records).value.health == Failed
  {
    var r := Last(records);
    if r.action == "stopped" || r.action == "failed" {
      var s := Replayed(config, Front(records)).value;
      StopsOrFails(config, s, r.action, r.time, r.disposition);
    }
  }

  // Nothing follows a record that ends a session.
  lemma NotTheEnd(config: ShadowConfig, records: seq<ShadowRecord>, n: nat)
    requires config.Valid() && 0 < n < |records| && AllShaped(config, records) && Replayed(config, records).Ok?
    requires Replayed(config, records[..n]).Ok? && Replayed(config, records[..n + 1]).Ok?
    ensures records[n - 1].action != "stopped" && records[n - 1].action != "failed"
  {
    var front, next := records[..n], records[..n + 1];
    assert Last(front) == records[n - 1] && Shaped(config, records[n - 1], n - 1);
    EndsTerminal(config, front);
    assert Front(next) == front && Last(next) == records[n];
    var s := Replayed(config, front).value;
    var call := CallOf(records[n]);
    if Terminal(s.health) {
      TerminalRaises(config, s, call.value);
    }
  }

  lemma VerifiesBack(c: ShadowCapture, records: seq<ShadowRecord>)
    requires c.config.Valid() && AllShaped(c.config, records) && c.inputs == Inputs(records)
    requires Replayed(c.config, records).Ok? && Replayed(c.config, records).value.records == records
    requires EndsAsDeclared(c.status, Replayed(c.config, records).value.health)
    ensures Verified(c).Ok? && Verified(c).value.records == records
  {
    RecomputedIsReplayed(c.config, records);
    InputsPersist(records);
    VerificationExact(c);
  }

  lemma StatusEnds(config: ShadowConfig, records: seq<ShadowRecord>)
    requires config.Valid() && AllShaped(config, records) && Replayed(config, records).Ok?
    ensures EndsAsDeclared(StatusOf(Inputs(records), false), Replayed(config, records).value.health)
  {
    if records != [] {
      assert Last(Inputs(records)) == InputOf(Last(records));
      assert Shaped(config, records[|records| - 1], |records| - 1);
      EndsTerminal(config, records);
    }
  }

  // The records of any session can be written, loaded and verified, giving identical records.
  lemma CaptureRoundTrip(config: ShadowConfig, calls: seq<SessionCall>)
    requires ConfigContract(config) && WellCalled(calls)
    requires Reproducible(config)
    ensures var records := After(config, calls).records;
            var loaded := Loaded(Written(config, records));
            && loaded.Ok? && loaded.value.config == config && loaded.value.inputs == Inputs(records)
            && Verified(loaded.value).Ok? && Verified(loaded.value).value.records == records
  {
    var records := After(config, calls).records;
    RecordsShaped(config, calls);
    ReproducibleFixpoint(config, calls);
    FileLoads(config, records, false);
    assert FileOf(config, records, false) == Written(config, records);
    StatusEnds(config, records);
    VerifiesBack(CaptureOf(config, Inputs(records), false), records);
  }

  // What is left of a file after its first n records, and possibly a cut line.
  function Remains(config: ShadowConfig, records: seq<ShadowRecord>, n: nat, cut: bool): seq<Line>
    requires n < |records|
  {
    Written(config, records)[..n + 1] + if cut then [Fragment] else []
  }

  // A session that went on had not ended, so what is left of it loads as incomplete.
  lemma RemainsLoad(config: ShadowConfig, records: seq<ShadowRecord>, n: nat, cut: bool)
    requires ConfigContract(config) && AllShaped(config, records) && n < |records|
    requires Replayed(config, records).Ok? && Replayed(config, records).value.records == records
    ensures Loaded(Remains(config, records, n, cut))
         == Ok(ShadowCapture(config, Inputs(records[..n]), Incomplete, Some(if cut then CUT else UNENDED)))
  {
    ReplayedPrefix(config, records, n);
    ReplayedPrefix(config, records, n + 1);
    assert Written(config, records)[..n + 1] == Written(config, records[..n]);
    FileLoads(config, records[..n], cut);
    if n > 0 {
      NotTheEnd(config, records, n);
      assert Last(Inputs(records[..n])) == InputOf(records[n - 1]);
    }
  }

  // A capture that lost its last records, or was cut inside one of them, loads as incomplete and
  // verifies to exactly the records before the loss.
  lemma TruncationRecovers(config: ShadowConfig, calls: seq<SessionCall>, n: nat, cut: bool)
    requires ConfigContract(config) && WellCalled(calls)
    requires Reproducible(config)
    requires n < |After(config, calls).records|
    ensures var records := After(config, calls).records;
            var loaded := Loaded(Remains(config, records, n, cut));
            && loaded == Ok(ShadowCapture(config, Inputs(records[..n]), Incomplete, Some(if cut then CUT else UNENDED)))
            && Verified(loaded.value).Ok? && Verified(loaded.value).value.records == records[..n]
  {
    var records := After(config, calls).records;
    RecordsShaped(config, calls);
    ReproducibleFixpoint(config, calls);
    RemainsLoad(config, records, n, cut);
    ReplayedPrefix(config, records, n);
    VerifiesBack(Loaded(Remains(config, records, n, cut)).value, records[..n]);
  }

  // ----- losing only a terminator -----

  // The file without the terminator of its last line.
  function Unterminated(lines: seq<Line>): seq<Line>
    requires lines != []
  {
    Front(lines) + [Last(lines).(terminated := false)]
  }

  // A last line that still parses counts as a whole record.
  lemma TerminatorIrrelevant(lines: seq<Line>)
    requires |lines| > 1 && Last(lines).content.Some?
    ensures Loaded(Unterminated(lines)) == Loaded(lines)
  {
    var cut := Unterminated(lines);
    assert cut[0] == lines[0] && ReadHeader(cut) == ReadHeader(lines);
    assert Front(cut[1..]) == Front(lines[1..]);
    assert Last(cut[1..]).content == Last(lines[1..]).content;
  }

  lemma KeptLine(config: ShadowConfig, records: seq<ShadowRecord>, n: nat)
    requires 0 < n <= |records|
    ensures var kept := Written(config, records)[..n + 1]; |kept| > 1 && Last(kept).content.Some?
  {
    assert Last(Written(config, records)[..n + 1]) == WrittenRecords(records)[n - 1];
  }

  // However many of its records a capture still has, it loads and verifies to them.
  lemma PrefixVerifies(config: ShadowConfig, calls: seq<SessionCall>, n: nat)
    requires ConfigContract(config) && WellCalled(calls) && Reproducible(config)
    requires n <= |After(config, calls).records|
    ensures var records := After(config, calls).records;
            var loaded := Loaded(Written(config, records)[..n + 1]);
            && loaded.Ok? && loaded.value.inputs == Inputs(records[..n])
            && Verified(loaded.value).Ok? && Verified(loaded.value).value.records == records[..n]
  {
    var records := After(config, calls).records;
    if n == |records| {
      CaptureRoundTrip(config, calls);
      assert Written(config, records)[..n + 1] == Written(config, records) && records[..n] == records;
    } else {
      TruncationRecovers(config, calls, n, false);
      assert Remains(config, records, n, false) == Written(config, records)[..n + 1];
    }
  }

  // A capture that lost only the terminator of a record's line loads and verifies as if it had it.
  lemma LostTerminator(config: ShadowConfig, calls: seq<SessionCall>, n: nat)
    requires ConfigContract(config) && WellCalled(calls) && Reproducible(config)
    requires 0 < n <= |After(config, calls).records|
    ensures var records := After(config, calls).records;
            var kept := Written(config, records)[..n + 1];
            var loaded := Loaded(Unterminated(kept));
            && loaded == Loaded(kept) && loaded.Ok? && loaded.value.inputs == Inputs(records[..n])
            && Verified(loaded.value).Ok? && Verified(loaded.value).value.records == records[..n]
  {
    KeptLine(config, After(config, calls).records, n);
    TerminatorIrrelevant(Written(config, After(config, calls).records)[..n + 1]);
    PrefixVerifies(config, calls, n);
  }
}
