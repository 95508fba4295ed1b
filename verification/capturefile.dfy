// Loading and verifying persisted captures: application/evidence.py.
module CaptureFile {
  import opened Collections
  import opened Domain
  import opened Risk
  import opened Session
  import opened SessionReplay
  import opened Capture
  import opened CaptureConfig

  const SCHEMA := "shadow.live.v1"

  // ----- records -----

  const RecordFields := {FSequence, FSession, FTime, FAction, FDisposition, FHealth, FObservation, FDelivery, FFeature,
                         FSignal, FIntent, FRisk}

  function EncodeFeature(f: Option<FeatureSnapshot>): Json { if f.Some? then JEvidence(FeatureEvidence(f.value)) else JNull }
  function EncodeSignal(s: Option<Signal>): Json { if s.Some? then JEvidence(SignalEvidence(s.value)) else JNull }
  function EncodeIntent(i: Option<OrderIntent>): Json { if i.Some? then JEvidence(IntentEvidence(i.value)) else JNull }
  function EncodeRisk(v: Option<RiskView>): Json { if v.Some? then JEvidence(RiskEvidence(v.value)) else JNull }

  function EncodeOptionalObservation(o: Option<Observation>): Json {
    if o.Some? then EncodeObservation(o.value) else JNull
  }

  function EncodeRecord(r: ShadowRecord): Json {
    JObject(map[
      FSequence := JInt(r.sequence), FSession := Word(r.session), FTime := Time(r.time), FAction := Word(r.action),
      FDisposition := Word(r.disposition), FHealth := JText(HealthText(r.health)),
      FObservation := EncodeOptionalObservation(r.observation), FDelivery := Word(r.delivery),
      FFeature := EncodeFeature(r.feature), FSignal := EncodeSignal(r.signal), FIntent := EncodeIntent(r.intent),
      FRisk := EncodeRisk(r.risk)])
  }

  datatype ReplayInput = ReplayInput(
    observation: Option<Observation>, action: string, time: int, disposition: string, delivery: string, persisted: Json)

  function ReadObservation(action: string, disposition: string, value: Json): Result<Option<Observation>> {
    if action == "observation" then
      if value.JNull? then
        if !StartsWith(disposition, INVALID) || RemovePrefix(disposition, INVALID) == ""
        then Err("invalid observation disposition")
        else Ok(None)
      else
        var observation :- DecodeObservation(value);
        Ok(Some(observation))
    else if action in CONTROLS then
      if !value.JNull? then Err("control record cannot contain an observation") else Ok(None)
    else Err("invalid record action")
  }

  function DecodeInput(value: Json, config: ShadowConfig, sequence: nat): Result<ReplayInput> {
    var item :- Mapping(value, RecordFields);
    var number :- AsInt(item[FSequence]);
    if number != sequence then Err("non-sequential record sequence") else
    var session :- AsText(item[FSession]);
    if session != config.session then Err("record session id differs from config") else
    var action :- AsText(item[FAction]);
    var disposition :- AsText(item[FDisposition]);
    var delivery :- AsText(item[FDelivery]);
    if !(item[FHealth].JText? && item[FHealth].text.HealthText?) then Err("invalid record health") else
    var observation :- ReadObservation(action, disposition, item[FObservation]);
    var time :- AsTime(item[FTime]);
    Ok(ReplayInput(observation, action, time, disposition, delivery, value))
  }

  function InputOf(r: ShadowRecord): ReplayInput {
    ReplayInput(r.observation, r.action, r.time, r.disposition, r.delivery, EncodeRecord(r))
  }

  // What a session guarantees of the record it appends at a place.
  ghost predicate Shaped(config: ShadowConfig, r: ShadowRecord, n: nat) {
    && r.sequence == n && r.session == config.session
    && (if r.observation.Some? then r.action == "observation" && ValidObservation(r.observation.value)
        else if r.action == "observation" then StartsWith(r.disposition, INVALID) && |r.disposition| > |INVALID|
        else r.action in CONTROLS)
  }

  lemma RecordEntries(r: ShadowRecord)
    ensures var e := EncodeRecord(r).entries;
            && e.Keys == RecordFields
            && e[FSequence] == JInt(r.sequence) && e[FSession] == Word(r.session) && e[FTime] == Time(r.time)
            && e[FAction] == Word(r.action) && e[FDisposition] == Word(r.disposition)
            && e[FHealth] == JText(HealthText(r.health)) && e[FDelivery] == Word(r.delivery)
            && e[FObservation] == EncodeOptionalObservation(r.observation)
            && e[FFeature] == EncodeFeature(r.feature) && e[FSignal] == EncodeSignal(r.signal)
            && e[FIntent] == EncodeIntent(r.intent) && e[FRisk] == EncodeRisk(r.risk)
  {
    var e := EncodeRecord(r).entries;
    forall f ensures f in e <==> f in RecordFields {
    }
  }

  lemma ReadObservationBack(config: ShadowConfig, r: ShadowRecord, n: nat)
    requires Shaped(config, r, n)
    ensures ReadObservation(r.action, r.disposition, EncodeOptionalObservation(r.observation)) == Ok(r.observation)
  {
    if r.observation.Some? {
      ObservationRoundTrip(r.observation.value);
    }
  }

  lemma InputRead(value: Json, config: ShadowConfig, r: ShadowRecord)
    requires value.JObject? && value.entries.Keys == RecordFields
    requires value.entries[FSequence] == JInt(r.sequence) && value.entries[FSession] == Word(config.session)
    requires value.entries[FTime] == Time(r.time) && value.entries[FAction] == Word(r.action)
    requires value.entries[FDisposition] == Word(r.disposition) && value.entries[FDelivery] == Word(r.delivery)
    requires value.entries[FHealth] == JText(HealthText(r.health))
    requires ReadObservation(r.action, r.disposition, value.entries[FObservation]) == Ok(r.observation)
    ensures DecodeInput(value, config, r.sequence)
         == Ok(ReplayInput(r.observation, r.action, r.time, r.disposition, r.delivery, value))
  {
  }

  // A written record is read back as the input it was made from.
  lemma RecordRoundTrip(config: ShadowConfig, r: ShadowRecord, n: nat)
    requires Shaped(config, r, n)
    ensures DecodeInput(EncodeRecord(r), config, n) == Ok(InputOf(r))
  {
    RecordEntries(r);
    ReadObservationBack(config, r, n);
    InputRead(EncodeRecord(r), config, r);
  }

  // Records written alike are alike.
  lemma EncodeRecordInjective(x: ShadowRecord, y: ShadowRecord)
    requires EncodeRecord(x) == EncodeRecord(y)
    requires x.observation.Some? ==> ValidObservation(x.observation.value)
    requires y.observation.Some? ==> ValidObservation(y.observation.value)
    ensures x == y
  {
    RecordEntries(x);
    RecordEntries(y);
    if x.observation.Some? {
      ObservationRoundTrip(x.observation.value);
    }
    if y.observation.Some? {
      ObservationRoundTrip(y.observation.value);
    }
  }

  // ----- files -----

  // One physical line: the tree it parses to, if it parses, and whether it is terminated.
  datatype Line = Line(content: Option<Json>, terminated: bool)

  datatype CaptureStatus = CompleteStopped | CompleteFailed | Incomplete

  datatype ShadowCapture = ShadowCapture(
    config: ShadowConfig, inputs: seq<ReplayInput>, status: CaptureStatus, diagnostic: Option<string>)

  const CUT := "truncated final JSON line"
  const UNENDED := "capture ended without terminal evidence"

  function Header(config: ShadowConfig): Json {
    JObject(map[FSchema := Word(SCHEMA), FConfig := EncodeConfig(config)])
  }

  function WrittenRecords(records: seq<ShadowRecord>): seq<Line> {
    Map((r: ShadowRecord) => Line(Some(EncodeRecord(r)), true), records)
  }

  // What a writer leaves after these records.
  function Written(config: ShadowConfig, records: seq<ShadowRecord>): seq<Line> {
    [Line(Some(Header(config)), true)] + WrittenRecords(records)
  }

  function ReadHeader(lines: seq<Line>): (r: Result<ShadowConfig>)
    ensures r.Ok? ==> r.value.Valid() && lines != []
  {
    if lines == [] then Err("capture is empty")
    else if !lines[0].terminated then Err("capture header is incomplete")
    else if lines[0].content.None? then Err("malformed capture header")
    else
      var header :- Mapping(lines[0].content.value, {FSchema, FConfig});
      if header[FSchema] != Word(SCHEMA) then Err("unsupported capture schema")
      else DecodeConfig(header[FConfig])
  }

  // The inputs of the first lines, none of which may fail to parse.
  function ReadInputs(config: ShadowConfig, lines: seq<Line>): (r: Result<seq<ReplayInput>>)
    ensures r.Ok? ==> |r.value| == |lines|
  {
    if lines == [] then Ok([])
    else
      var earlier :- ReadInputs(config, Front(lines));
      if Last(lines).content.None? then Err("malformed complete record line")
      else
        var input :- DecodeInput(Last(lines).content.value, config, |earlier|);
        Ok(earlier + [input])
  }

  // Whether the file ends in a line cut short.
  predicate Truncated(lines: seq<Line>) {
    lines != [] && Last(lines).content.None? && !Last(lines).terminated
  }

  function StatusOf(inputs: seq<ReplayInput>, truncated: bool): CaptureStatus {
    if truncated || inputs == [] then Incomplete
    else if Last(inputs).action == "stopped" then CompleteStopped
    else if Last(inputs).action == "failed" then CompleteFailed
    else Incomplete
  }

  // Why a capture is incomplete.
  function DiagnosticOf(inputs: seq<ReplayInput>, truncated: bool): Option<string> {
    if truncated then Some(CUT)
    else if StatusOf(inputs, false) == Incomplete then Some(UNENDED)
    else None
  }

  function CaptureOf(config: ShadowConfig, inputs: seq<ReplayInput>, truncated: bool): ShadowCapture {
    ShadowCapture(config, inputs, StatusOf(inputs, truncated), DiagnosticOf(inputs, truncated))
  }

  // A capture is diagnosed exactly when it is incomplete.
  function Loaded(lines: seq<Line>): (r: Result<ShadowCapture>)
    ensures r.Ok? ==> r.value.config.Valid() && (r.value.status == Incomplete <==> r.value.diagnostic.Some?)
  {
    var config :- ReadHeader(lines);
    var body := lines[1..];
    var inputs :- ReadInputs(config, if Truncated(body) then Front(body) else body);
    Ok(CaptureOf(config, inputs, Truncated(body)))
  }

  lemma {:induction false} ReadFails(config: ShadowConfig, lines: seq<Line>, n: nat)
    requires n <= |lines| && ReadInputs(config, lines[..n]).Err?
    ensures ReadInputs(config, lines).Err?
  {
    if n == |lines| {
      assert lines[..n] == lines;
    } else {
      assert Front(lines)[..n] == lines[..n];
      ReadFails(config, Front(lines), n);
    }
  }

  method LoadCapture(lines: seq<Line>) returns (r: Result<ShadowCapture>)
    ensures r.Ok? <==> Loaded(lines).Ok?
    ensures r.Ok? ==> r == Loaded(lines)
  {
    var header := ReadHeader(lines);
    if header.Err? {
      return Err(header.error);
    }
    var config, body := header.value, lines[1..];
    var inputs: seq<ReplayInput> := [];
    var diagnostic := None;
    var i := 0;
    while i < |body| && diagnostic.None?
      invariant 0 <= i <= |body|
      invariant diagnostic.None? ==> ReadInputs(config, body[..i]) == Ok(inputs)
      invariant diagnostic.Some? ==>
                  diagnostic == Some(CUT) && Truncated(body) && ReadInputs(config, Front(body)) == Ok(inputs)
      decreases |body| - i, if diagnostic.Some? then 0 else 1
    {
      var final := i == |body| - 1;
      assert Front(body[..i + 1]) == body[..i];
      if body[i].content.None? {
        if final && !body[i].terminated {
          assert body[..i] == Front(body);
          diagnostic := Some(CUT);
        } else {
          ReadFails(config, body, i + 1);
          NotSkipped(config, body, i);
          return Err("malformed complete record line");
        }
      } else {
        var input := DecodeInput(body[i].content.value, config, |inputs|);
        if input.Err? {
          ReadFails(config, body, i + 1);
          NotSkipped(config, body, i);
          return Err(input.error);
        }
        inputs := inputs + [input.value];
        i := i + 1;
      }
    }
    if diagnostic.Some? {
      return Ok(ShadowCapture(config, inputs, Incomplete, diagnostic));
    }
    assert body[..i] == body;
    ReadTotal(config, body);
    var status := StatusOf(inputs, false);
    if status == Incomplete {
      diagnostic := Some(UNENDED);
    }
    r := Ok(ShadowCapture(config, inputs, status, diagnostic));
  }

  // A line that does not read spoils the file, unless it is the cut-short end.
  lemma NotSkipped(config: ShadowConfig, body: seq<Line>, i: nat)
    requires i < |body| && ReadInputs(config, body[..i + 1]).Err?
    requires body[i].content.None? ==> i < |body| - 1 || body[i].terminated
    ensures Truncated(body) ==> ReadInputs(config, Front(body)).Err?
  {
    if Truncated(body) {
      assert i < |body| - 1;
      assert Front(body)[..i + 1] == body[..i + 1];
      ReadFails(config, Front(body), i + 1);
    }
  }

  lemma ReadTotal(config: ShadowConfig, body: seq<Line>)
    requires ReadInputs(config, body).Ok?
    ensures !Truncated(body)
  {
  }

  // ----- verification -----

  // The call an input is replayed with.
  function CallOfInput(x: ReplayInput): SessionCall {
    if x.observation.Some? then AcceptCall(x.observation.value, x.delivery)
    else if x.action == "observation" then InvalidCall(x.time, RemovePrefix(x.disposition, INVALID), x.delivery)
    else ControlCall(x.action, x.time, x.disposition)
  }

  ghost function Recompute(config: ShadowConfig, s: SessionState, x: ReplayInput): Result<SessionState>
    requires config.Valid()
  {
    var (t, result) := CallStep(config, s, CallOfInput(x));
    if result.Err? then Err(result.error) else Ok(t)
  }

  // The session the inputs lead to, whatever their persisted evidence says.
  ghost function Recomputed(config: ShadowConfig, inputs: seq<ReplayInput>): Result<SessionState>
    requires config.Valid()
  {
    if inputs == [] then Ok(NewSession)
    else
      var s :- Recomputed(config, Front(inputs));
      Recompute(config, s, Last(inputs))
  }

  ghost function VerifyStep(config: ShadowConfig, s: SessionState, x: ReplayInput): Result<SessionState>
    requires config.Valid()
  {
    var (t, result) := CallStep(config, s, CallOfInput(x));
    if result.Err? then Err("normalized input cannot replay")
    else if EncodeRecord(result.value) != x.persisted then Err("persisted derived evidence differs")
    else Ok(t)
  }

  ghost function VerifiedInputs(config: ShadowConfig, inputs: seq<ReplayInput>): Result<SessionState>
    requires config.Valid()
  {
    if inputs == [] then Ok(NewSession)
    else
      var s :- VerifiedInputs(config, Front(inputs));
      VerifyStep(config, s, Last(inputs))
  }

  predicate EndsAsDeclared(status: CaptureStatus, health: FeedHealth) {
    && (status == CompleteStopped ==> health == Stopped)
    && (status == CompleteFailed ==> health == Failed)
  }

  ghost function Verified(c: ShadowCapture): Result<SessionState>
    requires c.config.Valid()
  {
    var s :- VerifiedInputs(c.config, c.inputs);
    if EndsAsDeclared(c.status, s.health) then Ok(s) else Err("capture did not replay terminally")
  }

  lemma {:induction false} VerifyFails(config: ShadowConfig, inputs: seq<ReplayInput>, n: nat)
    requires config.Valid() && n <= |inputs| && VerifiedInputs(config, inputs[..n]).Err?
    ensures VerifiedInputs(config, inputs).Err?
  {
    if n == |inputs| {
      assert inputs[..n] == inputs;
    } else {
      assert Front(inputs)[..n] == inputs[..n];
      VerifyFails(config, Front(inputs), n);
    }
  }

  method VerifyInput(session: ShadowSession, x: ReplayInput) returns (ok: bool)
    requires session.config.Valid()
    modifies session
    ensures ok <==> VerifyStep(session.config, old(session.State()), x).Ok?
    ensures ok ==> Ok(session.State()) == VerifyStep(session.config, old(session.State()), x)
  {
    var actual;
    if x.observation.Some? {
      actual := session.Accept(x.observation.value, x.delivery);
    } else if x.action == "observation" {
      actual := session.Invalid(x.time, RemovePrefix(x.disposition, INVALID), x.delivery);
    } else {
      actual := session.Control(x.action, x.time, x.disposition);
    }
    ok := actual.Ok? && EncodeRecord(actual.value) == x.persisted;
  }

  method VerifyCapture(c: ShadowCapture) returns (r: Result<ShadowSession>)
    requires c.config.Valid()
    ensures r.Ok? <==> Verified(c).Ok?
    ensures r.Ok? ==> fresh(r.value) && Ok(r.value.State()) == Verified(c)
  {
    var session := new ShadowSession(c.config);
    for i := 0 to |c.inputs|
      invariant session.config == c.config && fresh(session)
      invariant VerifiedInputs(c.config, c.inputs[..i]) == Ok(session.State())
    {
      assert Front(c.inputs[..i + 1]) == c.inputs[..i];
      var ok := VerifyInput(session, c.inputs[i]);
      if !ok {
        VerifyFails(c.config, c.inputs, i + 1);
        return Err("normalized input does not recompute its persisted evidence");
      }
    }
    assert c.inputs[..|c.inputs|] == c.inputs;
    if c.status == CompleteStopped && session.health != Stopped {
      return Err("stopped capture did not replay terminally");
    }
    if c.status == CompleteFailed && session.health != Failed {
      return Err("failed capture did not replay terminally");
    }
    r := Ok(session);
  }

  function PersistedOf(): ReplayInput -> Json { (x: ReplayInput) => x.persisted }
  function RecordWriter(): ShadowRecord -> Json { (r: ShadowRecord) => EncodeRecord(r) }

  // The records are the persisted evidence, line by line.
  ghost predicate Persisted(records: seq<ShadowRecord>, inputs: seq<ReplayInput>) {
    Map(RecordWriter(), records) == Map(PersistedOf(), inputs)
  }

  lemma PersistedSnoc(records: seq<ShadowRecord>, r: ShadowRecord, inputs: seq<ReplayInput>, x: ReplayInput)
    requires |records| == |inputs|
    ensures Persisted(records + [r], inputs + [x]) <==> Persisted(records, inputs) && EncodeRecord(r) == x.persisted
  {
    assert Map(RecordWriter(), records + [r]) == Map(RecordWriter(), records) + [EncodeRecord(r)];
    assert Map(PersistedOf(), inputs + [x]) == Map(PersistedOf(), inputs) + [x.persisted];
    SnocEqual(Map(RecordWriter(), records), EncodeRecord(r), Map(PersistedOf(), inputs), x.persisted);
  }

  lemma VerifiedStep(config: ShadowConfig, s: SessionState, front: seq<ReplayInput>, x: ReplayInput)
    requires config.Valid() && |s.records| == |front|
    ensures VerifyStep(config, s, x).Ok? ==> VerifyStep(config, s, x) == Recompute(config, s, x)
    ensures Recompute(config, s, x).Ok? ==>
              var t := Recompute(config, s, x).value;
              && |t.records| == |front| + 1
              && (Persisted(t.records, front + [x]) <==> Persisted(s.records, front) && VerifyStep(config, s, x).Ok?)
    ensures Recompute(config, s, x).Err? ==> VerifyStep(config, s, x).Err?
  {
    StepRecords(config, s, CallOfInput(x));
    var (t, result) := CallStep(config, s, CallOfInput(x));
    if result.Ok? {
      PersistedSnoc(s.records, result.value, front, x);
    }
  }

  lemma {:induction false} VerifiedInputsExactly(config: ShadowConfig, inputs: seq<ReplayInput>)
    requires config.Valid()
    ensures var recomputed := Recomputed(config, inputs);
            && (recomputed.Ok? ==> |recomputed.value.records| == |inputs|)
            && (if recomputed.Ok? && Persisted(recomputed.value.records, inputs)
                then VerifiedInputs(config, inputs) == recomputed
                else VerifiedInputs(config, inputs).Err?)
  {
    if inputs != [] {
      var front, x := Front(inputs), Last(inputs);
      VerifiedInputsExactly(config, front);
      FrontAndLast(inputs);
      if Recomputed(config, front).Ok? {
        VerifiedStep(config, Recomputed(config, front).value, front, x);
      } else {
        assert Recomputed(config, inputs).Err? && VerifiedInputs(config, inputs).Err?;
      }
    }
  }

  lemma SnocEqual<T>(a: seq<T>, x: T, b: seq<T>, y: T)
    requires |a| == |b|
    ensures a + [x] == b + [y] <==> a == b && x == y
  {
    if a + [x] == b + [y] {
      assert a == (a + [x])[..|a|] && b == (b + [y])[..|b|];
      assert x == (a + [x])[|a|];
    }
  }

  // Verification accepts exactly the captures whose inputs replay and whose persisted evidence is
  // what the replay records, line by line, ending as the capture declares.
  lemma VerificationExact(c: ShadowCapture)
    requires c.config.Valid()
    ensures var recomputed := Recomputed(c.config, c.inputs);
            Verified(c).Ok? <==>
              && recomputed.Ok? && Persisted(recomputed.value.records, c.inputs)
              && EndsAsDeclared(c.status, recomputed.value.health)
    ensures Verified(c).Ok? ==> Verified(c) == Recomputed(c.config, c.inputs)
  {
    VerifiedInputsExactly(c.config, c.inputs);
  }
}
