// A capture is read exactly when it is one a writer could have left: application/evidence.py.
module CaptureExact {
  import opened Collections
  import opened Domain
  import opened Risk
  import opened Session
  import opened SessionReplay
  import opened Capture
  import opened CaptureConfig
  import opened CaptureFile
  import CaptureRecovery

  // ----- leaves and observations -----

  lemma InstrumentExact(value: Json, i: Instrument)
    ensures DecodeInstrument(value) == Ok(i) <==> value == EncodeInstrument(i)
  {
    InstrumentRoundTrip(i);
    if DecodeInstrument(value) == Ok(i) {
      assert value.entries == EncodeInstrument(i).entries;
    }
  }

  lemma ProvenanceExact(value: Json, p: Provenance)
    ensures DecodeProvenance(value) == Ok(p) <==> value == EncodeProvenance(p)
  {
    ProvenanceRoundTrip(p);
    if DecodeProvenance(value) == Ok(p) {
      assert value.entries == EncodeProvenance(p).entries;
    }
  }

  // What reading a bar found in each entry.
  lemma BarParts(value: Json, b: Bar)
    requires DecodeBar(value) == Ok(b)
    ensures b.Valid() && value.JObject? && value.entries.Keys == BarFields
    ensures DecodeInstrument(value.entries[FInstrument]) == Ok(b.instrument)
    ensures DecodeProvenance(value.entries[FProvenance]) == Ok(b.provenance)
    ensures Mapping(value.entries[FInterval], {FDuration}).Ok?
    ensures value.entries[FInterval].entries[FDuration] == JInt(b.interval)
    ensures value.entries[FObserved] == Time(b.observed) && value.entries[FAvailable] == Time(b.available)
    ensures value.entries[FSemantics] == JText(SemanticsText(b.semantics))
    ensures value.entries[FOpen] == Number(b.open) && value.entries[FHigh] == Number(b.high)
    ensures value.entries[FLow] == Number(b.low) && value.entries[FClose] == Number(b.close)
    ensures value.entries[FVolume] == OptionalNumber(b.volume)
  {
  }

  lemma BarTree(value: Json, b: Bar)
    requires value.JObject? && value.entries.Keys == BarFields
    requires value.entries[FInstrument] == EncodeInstrument(b.instrument)
    requires value.entries[FProvenance] == EncodeProvenance(b.provenance)
    requires value.entries[FInterval] == JObject(map[FDuration := JInt(b.interval)])
    requires value.entries[FObserved] == Time(b.observed) && value.entries[FAvailable] == Time(b.available)
    requires value.entries[FSemantics] == JText(SemanticsText(b.semantics))
    requires value.entries[FOpen] == Number(b.open) && value.entries[FHigh] == Number(b.high)
    requires value.entries[FLow] == Number(b.low) && value.entries[FClose] == Number(b.close)
    requires value.entries[FVolume] == OptionalNumber(b.volume)
    ensures value == EncodeBar(b)
  {
    BarEntries(b);
    SameEntries(value.entries, EncodeBar(b).entries);
  }

  lemma BarExact(value: Json, b: Bar)
    ensures DecodeBar(value) == Ok(b) <==> b.Valid() && value == EncodeBar(b)
  {
    if b.Valid() {
      BarRoundTrip(b);
    }
    if DecodeBar(value) == Ok(b) {
      BarParts(value, b);
      InstrumentExact(value.entries[FInstrument], b.instrument);
      ProvenanceExact(value.entries[FProvenance], b.provenance);
      IntervalExact(value.entries[FInterval], b.interval);
      BarTree(value, b);
    }
  }

  lemma IntervalExact(value: Json, duration: int)
    requires Mapping(value, {FDuration}).Ok? && value.entries[FDuration] == JInt(duration)
    ensures value == JObject(map[FDuration := JInt(duration)])
  {
    assert value.entries == map[FDuration := JInt(duration)];
  }

  lemma SameEntries(a: map<Field, Json>, b: map<Field, Json>)
    requires a.Keys == b.Keys && forall f :: f in a ==> a[f] == b[f]
    ensures a == b
  {
  }

  // What reading a quote found in each entry.
  lemma QuoteParts(value: Json, q: Quote)
    requires DecodeQuote(value) == Ok(q)
    ensures q.Valid() && value.JObject? && value.entries.Keys == QuoteFields
    ensures DecodeInstrument(value.entries[FInstrument]) == Ok(q.instrument)
    ensures DecodeProvenance(value.entries[FProvenance]) == Ok(q.provenance)
    ensures value.entries[FBid] == Number(q.bid) && value.entries[FAsk] == Number(q.ask)
    ensures value.entries[FBidSize] == OptionalNumber(q.bidSize)
    ensures value.entries[FAskSize] == OptionalNumber(q.askSize)
    ensures value.entries[FObserved] == Time(q.observed) && value.entries[FAvailable] == Time(q.available)
    ensures value.entries[FSemantics] == JText(SemanticsText(q.semantics))
  {
  }

  lemma QuoteTree(value: Json, q: Quote)
    requires value.JObject? && value.entries.Keys == QuoteFields
    requires value.entries[FInstrument] == EncodeInstrument(q.instrument)
    requires value.entries[FProvenance] == EncodeProvenance(q.provenance)
    requires value.entries[FBid] == Number(q.bid) && value.entries[FAsk] == Number(q.ask)
    requires value.entries[FBidSize] == OptionalNumber(q.bidSize)
    requires value.entries[FAskSize] == OptionalNumber(q.askSize)
    requires value.entries[FObserved] == Time(q.observed) && value.entries[FAvailable] == Time(q.available)
    requires value.entries[FSemantics] == JText(SemanticsText(q.semantics))
    ensures value == EncodeQuote(q)
  {
    QuoteEntries(q);
    SameEntries(value.entries, EncodeQuote(q).entries);
  }

  lemma QuoteExact(value: Json, q: Quote)
    ensures DecodeQuote(value) == Ok(q) <==> q.Valid() && value == EncodeQuote(q)
  {
    if q.Valid() {
      QuoteRoundTrip(q);
    }
    if DecodeQuote(value) == Ok(q) {
      QuoteParts(value, q);
      InstrumentExact(value.entries[FInstrument], q.instrument);
      ProvenanceExact(value.entries[FProvenance], q.provenance);
      QuoteTree(value, q);
    }
  }

  lemma ObservationExact(value: Json, o: Observation)
    ensures DecodeObservation(value) == Ok(o) <==> ValidObservation(o) && value == EncodeObservation(o)
  {
    if ValidObservation(o) {
      ObservationRoundTrip(o);
    }
    if DecodeObservation(value) == Ok(o) {
      match o
      case BarSeen(b) => BarExact(value, b);
      case QuoteSeen(q) => QuoteExact(value, q);
    }
  }

  // ----- configurations -----

  // What reading a strategy found in each entry.
  lemma StrategyParts(value: Json, c: MeanReversionConfig)
    requires DecodeStrategy(value) == Ok(c)
    ensures c.Valid() && value.JObject? && value.entries.Keys == StrategyFields
    ensures DecodeInstrument(value.entries[FInstrument]) == Ok(c.instrument)
    ensures value.entries[FConfiguration] == Word(c.configuration) && value.entries[FWindow] == JInt(c.window)
    ensures value.entries[FEntryThreshold] == Number(c.entryThreshold)
    ensures value.entries[FExitThreshold] == Number(c.exitThreshold)
    ensures value.entries[FMaximumFeatureAge] == JInt(c.maximumFeatureAge)
    ensures value.entries[FFeatureName] == Word("z_score") && value.entries[FFeatureInput] == Word("close")
    ensures value.entries[FFeatureVersion] == Word(FEATURE_VERSION)
  {
  }

  lemma StrategyExact(value: Json, c: MeanReversionConfig)
    ensures DecodeStrategy(value) == Ok(c) <==> c.Valid() && value == EncodeStrategy(c)
  {
    if c.Valid() {
      StrategyRoundTrip(c);
    }
    if DecodeStrategy(value) == Ok(c) {
      StrategyParts(value, c);
      InstrumentExact(value.entries[FInstrument], c.instrument);
      SameEntries(value.entries, EncodeStrategy(c).entries);
    }
  }

  lemma QuantityExact(value: Json, q: QuantityConfig)
    ensures DecodeQuantity(value) == Ok(q) <==> value == EncodeQuantity(q)
  {
    QuantityRoundTrip(q);
    if DecodeQuantity(value) == Ok(q) {
      InstrumentExact(value.entries[FInstrument], q.instrument);
      assert value.entries == EncodeQuantity(q).entries;
    }
  }

  // A list is read item by item.
  lemma {:induction false} DecodeAllExact<T>(decode: Json -> Result<T>, items: seq<Json>, values: seq<T>)
    requires DecodeAll(decode, items) == Ok(values)
    ensures |values| == |items| && forall i :: 0 <= i < |items| ==> decode(items[i]) == Ok(values[i])
  {
    if items != [] {
      DecodeAllExact(decode, Front(items), DecodeAll(decode, Front(items)).value);
    }
  }

  lemma InstrumentsExact(items: seq<Json>, instruments: seq<Instrument>)
    requires DecodeAll(InstrumentReader(), items) == Ok(instruments)
    ensures items == Map(InstrumentWriter(), instruments)
  {
    DecodeAllExact(InstrumentReader(), items, instruments);
    forall k | 0 <= k < |items| ensures items[k] == InstrumentWriter()(instruments[k]) {
      InstrumentExact(items[k], instruments[k]);
    }
  }

  // What reading a policy found in each entry.
  lemma PolicyParts(value: Json, p: RiskPolicy)
    requires DecodePolicy(value) == Ok(p)
    ensures PolicyContract(p) && value.JObject? && value.entries.Keys == PolicyFields && value.entries[FAllowed].JList?
    ensures DecodeAll(InstrumentReader(), value.entries[FAllowed].items) == Ok(p.allowed)
    ensures value.entries[FEnabled] == JBool(p.enabled) && value.entries[FPolicyId] == Word(p.policyId)
    ensures value.entries[FMaximumQuantity] == Number(p.maximumQuantity)
    ensures value.entries[FMaximumPositions] == JInt(p.maximumPositions)
    ensures value.entries[FMaximumSignalAge] == JInt(p.maximumSignalAge)
    ensures value.entries[FMaximumFeatureAge] == JInt(p.maximumFeatureAge)
    ensures value.entries[FMaximumQuoteAge] == JInt(p.maximumQuoteAge)
    ensures value.entries[FMaximumStateAge] == JInt(p.maximumStateAge)
    ensures value.entries[FModelVersion] == Word(MODEL_VERSION)
  {
  }

  lemma PolicyTree(value: Json, p: RiskPolicy)
    requires value.JObject? && value.entries.Keys == PolicyFields
    requires value.entries[FAllowed] == JList(Map(InstrumentWriter(), p.allowed))
    requires value.entries[FEnabled] == JBool(p.enabled) && value.entries[FPolicyId] == Word(p.policyId)
    requires value.entries[FMaximumQuantity] == Number(p.maximumQuantity)
    requires value.entries[FMaximumPositions] == JInt(p.maximumPositions)
    requires value.entries[FMaximumSignalAge] == JInt(p.maximumSignalAge)
    requires value.entries[FMaximumFeatureAge] == JInt(p.maximumFeatureAge)
    requires value.entries[FMaximumQuoteAge] == JInt(p.maximumQuoteAge)
    requires value.entries[FMaximumStateAge] == JInt(p.maximumStateAge)
    requires value.entries[FModelVersion] == Word(MODEL_VERSION)
    ensures value == EncodePolicy(p)
  {
    PolicyEntries(p);
    SameEntries(value.entries, EncodePolicy(p).entries);
  }

  lemma PolicyExact(value: Json, p: RiskPolicy)
    ensures DecodePolicy(value) == Ok(p) <==> p.Valid() && value == EncodePolicy(p)
  {
    PolicyContractValid(p);
    if p.Valid() {
      PolicyRoundTrip(p);
    }
    if DecodePolicy(value) == Ok(p) {
      PolicyParts(value, p);
      InstrumentsExact(value.entries[FAllowed].items, p.allowed);
      PolicyTree(value, p);
    }
  }

  lemma PositionExact(value: Json, p: OpenPosition)
    ensures DecodePosition(value) == Ok(p) <==> Whole(p.quantity) && value == EncodePosition(p)
  {
    if Whole(p.quantity) {
      PositionRoundTrip(p);
    }
    if DecodePosition(value) == Ok(p) {
      InstrumentExact(value.entries[FInstrument], p.instrument);
      assert value.entries == EncodePosition(p).entries;
    }
  }

  lemma OrderExact(value: Json, o: OutstandingOrder)
    ensures DecodeOrder(value) == Ok(o) <==> Whole(o.quantity) && value == EncodeOrder(o)
  {
    if Whole(o.quantity) {
      OrderRoundTrip(o);
    }
    if DecodeOrder(value) == Ok(o) {
      InstrumentExact(value.entries[FInstrument], o.instrument);
      assert value.entries == EncodeOrder(o).entries;
    }
  }

  lemma ControlsExact(value: Json, c: Controls)
    ensures DecodeControls(value) == Ok(c) <==> c.observed <= c.available && value == EncodeControls(c)
  {
    if c.observed <= c.available {
      ControlsRoundTrip(c);
    }
    if DecodeControls(value) == Ok(c) {
      assert value.entries == EncodeControls(c).entries;
    }
  }

  lemma HoldingsExact(positions: seq<Json>, orders: seq<Json>, s: RiskState)
    requires DecodeAll(PositionReader(), positions) == Ok(s.positions)
    requires DecodeAll(OrderReader(), orders) == Ok(s.orders)
    ensures positions == Map(PositionWriter(), s.positions) && orders == Map(OrderWriter(), s.orders)
    ensures forall p :: p in s.positions ==> Whole(p.quantity)
    ensures forall o :: o in s.orders ==> Whole(o.quantity)
  {
    DecodeAllExact(PositionReader(), positions, s.positions);
    DecodeAllExact(OrderReader(), orders, s.orders);
    forall k | 0 <= k < |positions| ensures positions[k] == PositionWriter()(s.positions[k]) && Whole(s.positions[k].quantity) {
      PositionExact(positions[k], s.positions[k]);
    }
    forall k | 0 <= k < |orders| ensures orders[k] == OrderWriter()(s.orders[k]) && Whole(s.orders[k].quantity) {
      OrderExact(orders[k], s.orders[k]);
    }
  }

  // What reading a state found in each entry.
  lemma StateParts(value: Json, s: RiskState)
    requires DecodeState(value) == Ok(s)
    ensures s.observed <= s.available && value.JObject? && value.entries.Keys == StateFields
    ensures DecodeControls(value.entries[FControls]) == Ok(s.controls)
    ensures value.entries[FPositions].JList? && value.entries[FOrders].JList?
    ensures DecodeAll(PositionReader(), value.entries[FPositions].items) == Ok(s.positions)
    ensures DecodeAll(OrderReader(), value.entries[FOrders].items) == Ok(s.orders)
    ensures value.entries[FComplete] == JBool(s.complete) && value.entries[FScope] == Word(s.scope)
    ensures value.entries[FStateId] == JText(StateIdText(s.id)) && value.entries[FStateRevision] == JInt(s.revision)
    ensures value.entries[FObserved] == Time(s.observed) && value.entries[FAvailable] == Time(s.available)
  {
  }

  lemma StateExact(value: Json, s: RiskState)
    ensures DecodeState(value) == Ok(s) <==> StateContract(s) && value == EncodeState(s)
  {
    if StateContract(s) {
      StateRoundTrip(s);
    }
    if DecodeState(value) == Ok(s) {
      StateParts(value, s);
      HoldingsExact(value.entries[FPositions].items, value.entries[FOrders].items, s);
      ControlsExact(value.entries[FControls], s.controls);
      StateEntries(s);
      SameEntries(value.entries, EncodeState(s).entries);
    }
  }

  lemma ListsExact(strategies: seq<Json>, quantities: seq<Json>, c: ShadowConfig)
    requires DecodeAll(StrategyReader(), strategies) == Ok(c.strategies)
    requires DecodeAll(QuantityReader(), quantities) == Ok(c.quantities)
    ensures strategies == Map(StrategyWriter(), c.strategies) && quantities == Map(QuantityWriter(), c.quantities)
  {
    DecodeAllExact(StrategyReader(), strategies, c.strategies);
    DecodeAllExact(QuantityReader(), quantities, c.quantities);
    forall k | 0 <= k < |strategies| ensures strategies[k] == StrategyWriter()(c.strategies[k]) {
      StrategyExact(strategies[k], c.strategies[k]);
    }
    forall k | 0 <= k < |quantities| ensures quantities[k] == QuantityWriter()(c.quantities[k]) {
      QuantityExact(quantities[k], c.quantities[k]);
    }
  }

  // What reading a configuration found in each entry.
  lemma ConfigParts(value: Json, c: ShadowConfig)
    requires ReadConfig(value) == Ok(c)
    ensures value.JObject? && value.entries.Keys == ConfigFields
    ensures value.entries[FStrategies].JList? && value.entries[FQuantities].JList?
    ensures DecodeAll(StrategyReader(), value.entries[FStrategies].items) == Ok(c.strategies)
    ensures DecodeAll(QuantityReader(), value.entries[FQuantities].items) == Ok(c.quantities)
    ensures DecodePolicy(value.entries[FPolicy]) == Ok(c.policy)
    ensures DecodeOptionalState(value.entries[FObservability]) == Ok(c.observability)
    ensures value.entries[FSession] == Word(c.session) && value.entries[FRevision] == Word(c.revision)
    ensures value.entries[FSource] == Word(c.source)
    ensures value.entries[FMaximumBarAge] == JInt(c.maximumBarAge)
    ensures value.entries[FMaximumQuoteAge] == JInt(c.maximumQuoteAge)
    ensures value.entries[FMaximumRecords] == JInt(c.maximumRecords)
  {
  }

  lemma OptionalStateExact(value: Json, s: Option<RiskState>)
    requires DecodeOptionalState(value) == Ok(s)
    ensures s.Some? ==> StateContract(s.value)
    ensures value == EncodeOptionalState(s)
  {
    if s.Some? {
      StateExact(value, s.value);
    }
  }

  lemma ConfigTree(value: Json, c: ShadowConfig)
    requires value.JObject? && value.entries.Keys == ConfigFields
    requires value.entries[FStrategies] == JList(Map(StrategyWriter(), c.strategies))
    requires value.entries[FQuantities] == JList(Map(QuantityWriter(), c.quantities))
    requires value.entries[FPolicy] == EncodePolicy(c.policy)
    requires value.entries[FObservability] == EncodeOptionalState(c.observability)
    requires value.entries[FSession] == Word(c.session) && value.entries[FRevision] == Word(c.revision)
    requires value.entries[FSource] == Word(c.source)
    requires value.entries[FMaximumBarAge] == JInt(c.maximumBarAge)
    requires value.entries[FMaximumQuoteAge] == JInt(c.maximumQuoteAge)
    requires value.entries[FMaximumRecords] == JInt(c.maximumRecords)
    ensures value == EncodeConfig(c)
  {
    ConfigEntries(c);
    SameEntries(value.entries, EncodeConfig(c).entries);
  }

  lemma ConfigFaithful(value: Json, c: ShadowConfig)
    requires ReadConfig(value) == Ok(c)
    ensures PolicyContract(c.policy) && (c.observability.Some? ==> StateContract(c.observability.value))
    ensures value == EncodeConfig(c)
  {
    ConfigParts(value, c);
    ListsExact(value.entries[FStrategies].items, value.entries[FQuantities].items, c);
    PolicyExact(value.entries[FPolicy], c.policy);
    PolicyContractValid(c.policy);
    OptionalStateExact(value.entries[FObservability], c.observability);
    ConfigTree(value, c);
  }

  // A configuration is read exactly from the tree it is written as.
  lemma ConfigExact(value: Json, c: ShadowConfig)
    ensures DecodeConfig(value) == Ok(c) <==> ConfigContract(c) && value == EncodeConfig(c)
  {
    if ConfigContract(c) {
      ConfigRoundTrip(c);
    }
    if DecodeConfig(value) == Ok(c) {
      ConfigFaithful(value, c);
    }
  }

  // ----- records and files -----

  // What the observation entry of a record's line says of its input.
  ghost predicate ObservationEntry(value: Json, x: ReplayInput) {
    if x.observation.Some? then
      x.action == "observation" && ValidObservation(x.observation.value) && value == EncodeObservation(x.observation.value)
    else
      value == JNull
      && if x.action == "observation" then exists detail :: detail != "" && x.disposition == "invalid:" + detail
         else x.action in {"connected", "disconnected", "tick", "failed", "stopped"}
  }

  // The line of the record of that place in a session, and the input it stands for.
  ghost predicate InputLine(config: ShadowConfig, value: Json, n: nat, x: ReplayInput) {
    && value.JObject? && value.entries.Keys == RecordFields && x.persisted == value
    && value.entries[FSequence] == JInt(n) && value.entries[FSession] == Word(config.session)
    && value.entries[FAction] == Word(x.action) && value.entries[FTime] == Time(x.time)
    && value.entries[FDisposition] == Word(x.disposition) && value.entries[FDelivery] == Word(x.delivery)
    && (exists health :: value.entries[FHealth] == JText(HealthText(health)))
    && ObservationEntry(value.entries[FObservation], x)
  }

  lemma InvalidPrefix(disposition: string)
    ensures StartsWith(disposition, INVALID) && RemovePrefix(disposition, INVALID) != "" <==>
            exists detail :: detail != "" && disposition == "invalid:" + detail
  {
    if StartsWith(disposition, INVALID) && RemovePrefix(disposition, INVALID) != "" {
      assert disposition == "invalid:" + RemovePrefix(disposition, INVALID);
    }
    if detail :| detail != "" && disposition == "invalid:" + detail {
      assert disposition[..|INVALID|] == INVALID && disposition[|INVALID|..] == detail;
    }
  }

  lemma ReadObservationExact(value: Json, x: ReplayInput)
    ensures ReadObservation(x.action, x.disposition, value) == Ok(x.observation) <==> ObservationEntry(value, x)
  {
    InvalidPrefix(x.disposition);
    if x.observation.Some? {
      ObservationExact(value, x.observation.value);
    }
  }

  // What reading a record's line found in each entry.
  lemma InputParts(config: ShadowConfig, value: Json, n: nat, x: ReplayInput)
    requires DecodeInput(value, config, n) == Ok(x)
    ensures value.JObject? && value.entries.Keys == RecordFields && x.persisted == value
    ensures value.entries[FSequence] == JInt(n) && value.entries[FSession] == Word(config.session)
    ensures value.entries[FAction] == Word(x.action) && value.entries[FTime] == Time(x.time)
    ensures value.entries[FDisposition] == Word(x.disposition) && value.entries[FDelivery] == Word(x.delivery)
    ensures value.entries[FHealth].JText? && value.entries[FHealth].text.HealthText?
    ensures ReadObservation(x.action, x.disposition, value.entries[FObservation]) == Ok(x.observation)
  {
  }

  lemma LineRead(config: ShadowConfig, value: Json, n: nat, x: ReplayInput)
    requires value.JObject? && value.entries.Keys == RecordFields && x.persisted == value
    requires value.entries[FSequence] == JInt(n) && value.entries[FSession] == Word(config.session)
    requires value.entries[FAction] == Word(x.action) && value.entries[FTime] == Time(x.time)
    requires value.entries[FDisposition] == Word(x.disposition) && value.entries[FDelivery] == Word(x.delivery)
    requires value.entries[FHealth].JText? && value.entries[FHealth].text.HealthText?
    requires ReadObservation(x.action, x.disposition, value.entries[FObservation]) == Ok(x.observation)
    ensures DecodeInput(value, config, n) == Ok(x)
  {
  }

  // A line is read exactly when it is the line of a record of this session at this place.
  lemma InputExact(config: ShadowConfig, value: Json, n: nat, x: ReplayInput)
    ensures DecodeInput(value, config, n) == Ok(x) <==> InputLine(config, value, n, x)
  {
    if DecodeInput(value, config, n) == Ok(x) {
      InputParts(config, value, n, x);
      ReadObservationExact(value.entries[FObservation], x);
      assert value.entries[FHealth] == JText(HealthText(value.entries[FHealth].text.health));
    }
    if InputLine(config, value, n, x) {
      ReadObservationExact(value.entries[FObservation], x);
      LineRead(config, value, n, x);
    }
  }

  // The first line of a file of that configuration.
  ghost predicate HeaderLine(line: Line, c: ShadowConfig) {
    ConfigContract(c)
    && line == Line(Some(JObject(map[FSchema := Word("shadow.live.v1"), FConfig := EncodeConfig(c)])), true)
  }

  lemma SchemaExact(header: map<Field, Json>, config: Json)
    requires header.Keys == {FSchema, FConfig} && header[FSchema] == Word("shadow.live.v1") && header[FConfig] == config
    ensures header == map[FSchema := Word("shadow.live.v1"), FConfig := config]
  {
  }

  lemma HeaderRead(lines: seq<Line>, c: ShadowConfig)
    requires ReadHeader(lines) == Ok(c)
    ensures lines != [] && HeaderLine(lines[0], c)
  {
    var header := lines[0].content.value.entries;
    ConfigExact(header[FConfig], c);
    SchemaExact(header, EncodeConfig(c));
  }

  lemma HeaderExact(lines: seq<Line>, c: ShadowConfig)
    ensures ReadHeader(lines) == Ok(c) <==> lines != [] && HeaderLine(lines[0], c)
  {
    if ReadHeader(lines) == Ok(c) {
      HeaderRead(lines, c);
    }
    if lines != [] && HeaderLine(lines[0], c) {
      CaptureRecovery.HeaderReadBack(c, lines);
    }
  }

  ghost predicate ReadsLine(config: ShadowConfig, line: Line, n: nat, x: ReplayInput) {
    line.content.Some? && InputLine(config, line.content.value, n, x)
  }

  // Every line is read, each as the input of its place.
  ghost predicate ReadsLines(config: ShadowConfig, lines: seq<Line>, xs: seq<ReplayInput>) {
    |xs| == |lines| && forall i :: 0 <= i < |lines| ==> ReadsLine(config, lines[i], i, xs[i])
  }

  lemma ReadsLinesSnoc(config: ShadowConfig, lines: seq<Line>, xs: seq<ReplayInput>)
    requires |lines| == |xs| && lines != []
    ensures ReadsLines(config, lines, xs) <==>
            ReadsLines(config, Front(lines), Front(xs)) && ReadsLine(config, Last(lines), |lines| - 1, Last(xs))
  {
    assert forall i :: 0 <= i < |lines| - 1 ==> Front(lines)[i] == lines[i] && Front(xs)[i] == xs[i];
    assert forall i :: 0 <= i < |lines| ==> i == |lines| - 1 || lines[i] == Front(lines)[i];
  }

  lemma ReadInputsSnoc(config: ShadowConfig, lines: seq<Line>, xs: seq<ReplayInput>)
    requires |lines| == |xs| && lines != []
    ensures ReadInputs(config, lines) == Ok(xs) <==>
            && ReadInputs(config, Front(lines)) == Ok(Front(xs)) && Last(lines).content.Some?
            && DecodeInput(Last(lines).content.value, config, |lines| - 1) == Ok(Last(xs))
  {
    FrontAndLast(xs);
    if ReadInputs(config, lines) == Ok(xs) {
      var earlier := ReadInputs(config, Front(lines)).value;
      assert Front(xs) == earlier;
    }
  }

  lemma {:induction false} InputsExact(config: ShadowConfig, lines: seq<Line>, xs: seq<ReplayInput>)
    ensures ReadInputs(config, lines) == Ok(xs) <==> ReadsLines(config, lines, xs)
  {
    if lines != [] && |lines| == |xs| {
      ReadInputsSnoc(config, lines, xs);
      ReadsLinesSnoc(config, lines, xs);
      InputsExact(config, Front(lines), Front(xs));
      if Last(lines).content.Some? {
        InputExact(config, Last(lines).content.value, |lines| - 1, Last(xs));
      }
    }
  }

  // How a session ended, by what is left of its file.
  ghost predicate Ended(c: ShadowCapture, cut: bool) {
    if cut then c.status == Incomplete && c.diagnostic == Some("truncated final JSON line")
    else if c.inputs != [] && Last(c.inputs).action == "stopped" then c.status == CompleteStopped && c.diagnostic == None
    else if c.inputs != [] && Last(c.inputs).action == "failed" then c.status == CompleteFailed && c.diagnostic == None
    else c.status == Incomplete && c.diagnostic == Some("capture ended without terminal evidence")
  }

  // What a capture says of a file: its configuration, an input for every line after the first but one
  // that was cut at the end, and how the session ended.
  ghost predicate FileReads(lines: seq<Line>, c: ShadowCapture) {
    && lines != [] && HeaderLine(lines[0], c.config)
    && var body := lines[1..];
       var cut := body != [] && Last(body).content.None? && !Last(body).terminated;
       ReadsLines(c.config, if cut then Front(body) else body, c.inputs) && Ended(c, cut)
  }

  lemma EndedExact(c: ShadowCapture, cut: bool)
    ensures c == CaptureOf(c.config, c.inputs, cut) <==> Ended(c, cut)
  {
  }

  lemma LoadParts(lines: seq<Line>, c: ShadowCapture)
    requires lines != []
    ensures Loaded(lines) == Ok(c) <==>
            && ReadHeader(lines) == Ok(c.config)
            && var body := lines[1..];
               ReadInputs(c.config, if Truncated(body) then Front(body) else body) == Ok(c.inputs)
               && c == CaptureOf(c.config, c.inputs, Truncated(body))
  {
  }

  // A file loads exactly when its header is the one written for a constructible configuration and
  // each of its lines that were not cut is the line of a record of that session at its place.
  lemma LoadExact(lines: seq<Line>, c: ShadowCapture)
    ensures Loaded(lines) == Ok(c) <==> FileReads(lines, c)
  {
    if lines != [] {
      var body := lines[1..];
      LoadParts(lines, c);
      HeaderExact(lines, c.config);
      InputsExact(c.config, if Truncated(body) then Front(body) else body, c.inputs);
      EndedExact(c, Truncated(body));
    }
  }

  // Verification accepts exactly the captures whose inputs replay to records that are written as the
  // lines read, one for one, and end the session as the capture declares.
  lemma AcceptedExactly(c: ShadowCapture)
    requires c.config.Valid()
    ensures Verified(c).Ok? <==>
            && Recomputed(c.config, c.inputs).Ok?
            && var s := Recomputed(c.config, c.inputs).value;
            && |s.records| == |c.inputs|
            && (forall i :: 0 <= i < |c.inputs| ==> EncodeRecord(s.records[i]) == c.inputs[i].persisted)
            && (c.status == CompleteStopped ==> s.health == Stopped) && (c.status == CompleteFailed ==> s.health == Failed)
  {
    VerificationExact(c);
    VerifiedInputsExactly(c.config, c.inputs);
    if Recomputed(c.config, c.inputs).Ok? {
      PersistedPointwise(Recomputed(c.config, c.inputs).value.records, c.inputs);
    }
  }

  lemma PersistedPointwise(records: seq<ShadowRecord>, xs: seq<ReplayInput>)
    requires |records| == |xs|
    ensures Persisted(records, xs) <==> forall i :: 0 <= i < |xs| ==> EncodeRecord(records[i]) == xs[i].persisted
  {
    var a, b := Map(RecordWriter(), records), Map(PersistedOf(), xs);
    assert forall i :: 0 <= i < |xs| ==> a[i] == EncodeRecord(records[i]) && b[i] == xs[i].persisted;
  }
}
