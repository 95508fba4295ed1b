// The persisted configuration of a session, written and read back: application/evidence.py.
module CaptureConfig {
  import opened Collections
  import opened Domain
  import opened Execution
  import opened Risk
  import opened Session
  import opened Capture

  const MODEL_VERSION := "shadow.risk.paper.v2"
  const Z_SCORE := "z_score"
  const CLOSE := "close"

  // ----- strategies and quantities -----

  const StrategyFields := {FInstrument, FConfiguration, FWindow, FEntryThreshold, FExitThreshold, FMaximumFeatureAge,
                           FFeatureName, FFeatureInput, FFeatureVersion}

  function EncodeStrategy(c: MeanReversionConfig): Json {
    JObject(map[
      FInstrument := EncodeInstrument(c.instrument), FConfiguration := Word(c.configuration), FWindow := JInt(c.window),
      FEntryThreshold := Number(c.entryThreshold), FExitThreshold := Number(c.exitThreshold),
      FMaximumFeatureAge := JInt(c.maximumFeatureAge),
      FFeatureName := Word(Z_SCORE), FFeatureInput := Word(CLOSE), FFeatureVersion := Word(FEATURE_VERSION)])
  }

  function DecodeStrategy(value: Json): Result<MeanReversionConfig> {
    var item :- Mapping(value, StrategyFields);
    var instrument :- DecodeInstrument(item[FInstrument]);
    var configuration :- AsText(item[FConfiguration]);
    var window :- AsInt(item[FWindow]);
    var entry :- AsNumber(item[FEntryThreshold]);
    var exit :- AsNumber(item[FExitThreshold]);
    var age :- AsInt(item[FMaximumFeatureAge]);
    var c := MeanReversionConfig(instrument, configuration, window, entry, exit, age);
    if item[FFeatureName] != Word(Z_SCORE) || item[FFeatureInput] != Word(CLOSE)
       || item[FFeatureVersion] != Word(FEATURE_VERSION) || !c.Valid()
    then Err("invalid strategy")
    else Ok(c)
  }

  lemma StrategyRoundTrip(c: MeanReversionConfig)
    requires c.Valid()
    ensures DecodeStrategy(EncodeStrategy(c)) == Ok(c)
  {
    InstrumentRoundTrip(c.instrument);
    assert EncodeStrategy(c).entries.Keys == StrategyFields;
  }

  function EncodeQuantity(q: QuantityConfig): Json {
    JObject(map[FInstrument := EncodeInstrument(q.instrument), FConfiguration := Word(q.configuration),
                FQuantity := Number(q.quantity)])
  }

  function DecodeQuantity(value: Json): Result<QuantityConfig> {
    var item :- Mapping(value, {FInstrument, FConfiguration, FQuantity});
    var instrument :- DecodeInstrument(item[FInstrument]);
    var configuration :- AsText(item[FConfiguration]);
    var quantity :- AsNumber(item[FQuantity]);
    Ok(QuantityConfig(instrument, configuration, quantity))
  }

  lemma QuantityRoundTrip(q: QuantityConfig)
    ensures DecodeQuantity(EncodeQuantity(q)) == Ok(q)
  {
    InstrumentRoundTrip(q.instrument);
    assert EncodeQuantity(q).entries.Keys == {FInstrument, FConfiguration, FQuantity};
  }

  // ----- policy -----

  predicate PolicyContract(p: RiskPolicy) {
    && NoRepeats(p.allowed) && Whole(p.maximumQuantity) && p.maximumPositions > 0
    && p.maximumSignalAge >= 0 && p.maximumFeatureAge >= 0 && p.maximumQuoteAge >= 0 && p.maximumStateAge >= 0
  }

  lemma PolicyContractValid(p: RiskPolicy)
    ensures PolicyContract(p) <==> p.Valid()
  {
    NoRepeatsDistinct(p.allowed);
  }

  const PolicyFields := {FPolicyId, FEnabled, FAllowed, FMaximumQuantity, FMaximumPositions, FMaximumSignalAge,
                         FMaximumFeatureAge, FMaximumQuoteAge, FMaximumStateAge, FModelVersion}

  function InstrumentWriter(): Instrument -> Json { (i: Instrument) => EncodeInstrument(i) }
  function InstrumentReader(): Json -> Result<Instrument> { (j: Json) => DecodeInstrument(j) }

  function EncodePolicy(p: RiskPolicy): Json {
    JObject(map[
      FPolicyId := Word(p.policyId), FEnabled := JBool(p.enabled),
      FAllowed := JList(Map(InstrumentWriter(), p.allowed)),
      FMaximumQuantity := Number(p.maximumQuantity), FMaximumPositions := JInt(p.maximumPositions),
      FMaximumSignalAge := JInt(p.maximumSignalAge), FMaximumFeatureAge := JInt(p.maximumFeatureAge),
      FMaximumQuoteAge := JInt(p.maximumQuoteAge), FMaximumStateAge := JInt(p.maximumStateAge),
      FModelVersion := Word(MODEL_VERSION)])
  }

  function DecodePolicy(value: Json): Result<RiskPolicy> {
    var item :- Mapping(value, PolicyFields);
    var listed :- AsList(item[FAllowed]);
    var enabled :- AsBool(item[FEnabled]);
    var policyId :- AsText(item[FPolicyId]);
    var allowed :- DecodeAll(InstrumentReader(), listed);
    var quantity :- AsNumber(item[FMaximumQuantity]);
    var positions :- AsInt(item[FMaximumPositions]);
    var signalAge :- AsInt(item[FMaximumSignalAge]);
    var featureAge :- AsInt(item[FMaximumFeatureAge]);
    var quoteAge :- AsInt(item[FMaximumQuoteAge]);
    var stateAge :- AsInt(item[FMaximumStateAge]);
    var p := RiskPolicy(policyId, enabled, allowed, quantity, positions, signalAge, featureAge, quoteAge, stateAge);
    if item[FModelVersion] != Word(MODEL_VERSION) || !PolicyContract(p) then Err("invalid risk policy") else Ok(p)
  }

  // A policy that is read back is one a gate can be constructed with.
  lemma PolicyReadValid(value: Json)
    requires DecodePolicy(value).Ok?
    ensures DecodePolicy(value).value.Valid()
  {
    PolicyContractValid(DecodePolicy(value).value);
  }

  lemma InstrumentsRoundTrip(instruments: seq<Instrument>)
    ensures DecodeAll(InstrumentReader(), Map(InstrumentWriter(), instruments)) == Ok(instruments)
  {
    forall i: Instrument ensures InstrumentReader()(InstrumentWriter()(i)) == Ok(i) {
      InstrumentRoundTrip(i);
    }
    DecodeAllEncoded(InstrumentReader(), InstrumentWriter(), instruments);
  }

  lemma PolicyRead(value: Json, p: RiskPolicy)
    requires PolicyContract(p) && value.JObject? && value.entries.Keys == PolicyFields
    requires value.entries[FAllowed].JList?
    requires DecodeAll(InstrumentReader(), value.entries[FAllowed].items) == Ok(p.allowed)
    requires value.entries[FEnabled] == JBool(p.enabled) && value.entries[FPolicyId] == Word(p.policyId)
    requires value.entries[FMaximumQuantity] == Number(p.maximumQuantity)
    requires value.entries[FMaximumPositions] == JInt(p.maximumPositions)
    requires value.entries[FMaximumSignalAge] == JInt(p.maximumSignalAge)
    requires value.entries[FMaximumFeatureAge] == JInt(p.maximumFeatureAge)
    requires value.entries[FMaximumQuoteAge] == JInt(p.maximumQuoteAge)
    requires value.entries[FMaximumStateAge] == JInt(p.maximumStateAge)
    requires value.entries[FModelVersion] == Word(MODEL_VERSION)
    ensures DecodePolicy(value) == Ok(p)
  {
  }

  lemma PolicyEntries(p: RiskPolicy)
    ensures EncodePolicy(p).entries.Keys == PolicyFields
  {
    var e := EncodePolicy(p).entries;
    forall f ensures f in e <==> f in PolicyFields {
    }
  }

  lemma PolicyRoundTrip(p: RiskPolicy)
    requires PolicyContract(p)
    ensures DecodePolicy(EncodePolicy(p)) == Ok(p)
  {
    InstrumentsRoundTrip(p.allowed);
    PolicyEntries(p);
    PolicyRead(EncodePolicy(p), p);
  }

  // ----- operational state -----

  function EncodePosition(p: OpenPosition): Json {
    JObject(map[FInstrument := EncodeInstrument(p.instrument), FQuantity := Number(p.quantity), FPositionId := Word(p.id)])
  }

  function DecodePosition(value: Json): Result<OpenPosition> {
    var item :- Mapping(value, {FInstrument, FQuantity, FPositionId});
    var instrument :- DecodeInstrument(item[FInstrument]);
    var quantity :- AsNumber(item[FQuantity]);
    var id :- AsText(item[FPositionId]);
    if !Whole(quantity) then Err("invalid position") else Ok(OpenPosition(instrument, quantity, id))
  }

  lemma PositionRoundTrip(p: OpenPosition)
    requires Whole(p.quantity)
    ensures DecodePosition(EncodePosition(p)) == Ok(p)
  {
    InstrumentRoundTrip(p.instrument);
    assert EncodePosition(p).entries.Keys == {FInstrument, FQuantity, FPositionId};
  }

  function AsRef(value: Json): Result<Ref> {
    if value.JText? && value.text.RefText? then Ok(value.text.ref) else Err("invalid reference")
  }

  function AsSide(value: Json): Result<Side> {
    if value.JText? && value.text.SideText? then Ok(value.text.side) else Err("invalid side")
  }

  function AsStateId(value: Json): Result<StateId> {
    if value.JText? && value.text.StateIdText? then Ok(value.text.id) else Err("invalid state id")
  }

  function EncodeOrder(o: OutstandingOrder): Json {
    JObject(map[
      FInstrument := EncodeInstrument(o.instrument), FIdentity := JText(RefText(o.identity)),
      FSide := JText(SideText(o.side)), FQuantity := Number(o.quantity), FReference := JText(RefText(o.reference))])
  }

  function DecodeOrder(value: Json): Result<OutstandingOrder> {
    var item :- Mapping(value, {FInstrument, FIdentity, FSide, FQuantity, FReference});
    var instrument :- DecodeInstrument(item[FInstrument]);
    var identity :- AsRef(item[FIdentity]);
    var side :- AsSide(item[FSide]);
    var quantity :- AsNumber(item[FQuantity]);
    var reference :- AsRef(item[FReference]);
    if !Whole(quantity) then Err("invalid outstanding order")
    else Ok(OutstandingOrder(instrument, identity, side, quantity, reference))
  }

  lemma OrderRoundTrip(o: OutstandingOrder)
    requires Whole(o.quantity)
    ensures DecodeOrder(EncodeOrder(o)) == Ok(o)
  {
    InstrumentRoundTrip(o.instrument);
    assert EncodeOrder(o).entries.Keys == {FInstrument, FIdentity, FSide, FQuantity, FReference};
  }

  function EncodeControls(c: Controls): Json {
    JObject(map[FTrading := JBool(c.tradingEnabled), FKillSwitch := JBool(c.killSwitchActive),
                FObserved := Time(c.observed), FAvailable := Time(c.available)])
  }

  function DecodeControls(value: Json): Result<Controls> {
    var item :- Mapping(value, {FTrading, FKillSwitch, FObserved, FAvailable});
    var trading :- AsBool(item[FTrading]);
    var kill :- AsBool(item[FKillSwitch]);
    var observed :- AsTime(item[FObserved]);
    var available :- AsTime(item[FAvailable]);
    if available < observed then Err("invalid controls") else Ok(Controls(trading, kill, observed, available))
  }

  lemma ControlsRoundTrip(c: Controls)
    requires c.observed <= c.available
    ensures DecodeControls(EncodeControls(c)) == Ok(c)
  {
    assert EncodeControls(c).entries.Keys == {FTrading, FKillSwitch, FObserved, FAvailable};
  }

  predicate StateContract(s: RiskState) {
    && s.observed <= s.available && s.controls.observed <= s.controls.available
    && (forall p :: p in s.positions ==> Whole(p.quantity))
    && (forall o :: o in s.orders ==> Whole(o.quantity))
  }

  const StateFields := {FScope, FStateId, FStateRevision, FComplete, FPositions, FOrders, FObserved, FAvailable,
                        FControls}

  function PositionWriter(): OpenPosition -> Json { (p: OpenPosition) => EncodePosition(p) }
  function PositionReader(): Json -> Result<OpenPosition> { (j: Json) => DecodePosition(j) }
  function OrderWriter(): OutstandingOrder -> Json { (o: OutstandingOrder) => EncodeOrder(o) }
  function OrderReader(): Json -> Result<OutstandingOrder> { (j: Json) => DecodeOrder(j) }

  function EncodeState(s: RiskState): Json {
    JObject(map[
      FScope := Word(s.scope), FStateId := JText(StateIdText(s.id)), FStateRevision := JInt(s.revision),
      FComplete := JBool(s.complete), FPositions := JList(Map(PositionWriter(), s.positions)),
      FOrders := JList(Map(OrderWriter(), s.orders)),
      FObserved := Time(s.observed), FAvailable := Time(s.available), FControls := EncodeControls(s.controls)])
  }

  function DecodeState(value: Json): Result<RiskState> {
    var item :- Mapping(value, StateFields);
    var controls :- DecodeControls(item[FControls]);
    var listedPositions :- AsList(item[FPositions]);
    var listedOrders :- AsList(item[FOrders]);
    var complete :- AsBool(item[FComplete]);
    var scope :- AsText(item[FScope]);
    var id :- AsStateId(item[FStateId]);
    var revision :- AsInt(item[FStateRevision]);
    var positions :- DecodeAll(PositionReader(), listedPositions);
    var orders :- DecodeAll(OrderReader(), listedOrders);
    var observed :- AsTime(item[FObserved]);
    var available :- AsTime(item[FAvailable]);
    if revision < 0 || available < observed then Err("invalid risk state")
    else Ok(RiskState(scope, id, revision, complete, positions, orders, observed, available, controls))
  }

  function EncodeOptionalState(s: Option<RiskState>): Json { if s.Some? then EncodeState(s.value) else JNull }

  function DecodeOptionalState(value: Json): Result<Option<RiskState>> {
    if value.JNull? then Ok(None)
    else
      var state :- DecodeState(value);
      Ok(Some(state))
  }

  lemma HoldingsRoundTrip(s: RiskState)
    requires StateContract(s)
    ensures DecodeAll(PositionReader(), Map(PositionWriter(), s.positions)) == Ok(s.positions)
    ensures DecodeAll(OrderReader(), Map(OrderWriter(), s.orders)) == Ok(s.orders)
  {
    forall p | p in s.positions ensures PositionReader()(PositionWriter()(p)) == Ok(p) {
      PositionRoundTrip(p);
    }
    forall o | o in s.orders ensures OrderReader()(OrderWriter()(o)) == Ok(o) {
      OrderRoundTrip(o);
    }
    DecodeAllEncoded(PositionReader(), PositionWriter(), s.positions);
    DecodeAllEncoded(OrderReader(), OrderWriter(), s.orders);
  }

  lemma StateRead(value: Json, s: RiskState)
    requires StateContract(s) && value.JObject? && value.entries.Keys == StateFields
    requires DecodeControls(value.entries[FControls]) == Ok(s.controls)
    requires value.entries[FPositions].JList? && value.entries[FOrders].JList?
    requires DecodeAll(PositionReader(), value.entries[FPositions].items) == Ok(s.positions)
    requires DecodeAll(OrderReader(), value.entries[FOrders].items) == Ok(s.orders)
    requires value.entries[FComplete] == JBool(s.complete) && value.entries[FScope] == Word(s.scope)
    requires value.entries[FStateId] == JText(StateIdText(s.id)) && value.entries[FStateRevision] == JInt(s.revision)
    requires value.entries[FObserved] == Time(s.observed) && value.entries[FAvailable] == Time(s.available)
    ensures DecodeState(value) == Ok(s)
  {
  }

  lemma StateEntries(s: RiskState)
    ensures EncodeState(s).entries.Keys == StateFields
  {
    var e := EncodeState(s).entries;
    forall f ensures f in e <==> f in StateFields {
    }
  }

  lemma StateRoundTrip(s: RiskState)
    requires StateContract(s)
    ensures DecodeState(EncodeState(s)) == Ok(s)
  {
    HoldingsRoundTrip(s);
    ControlsRoundTrip(s.controls);
    StateEntries(s);
    StateRead(EncodeState(s), s);
  }

  // ----- the whole configuration -----

  predicate ConfigContract(c: ShadowConfig) {
    c.Valid() && PolicyContract(c.policy) && (c.observability.Some? ==> StateContract(c.observability.value))
  }

  const ConfigFields := {FSession, FRevision, FStrategies, FQuantities, FPolicy, FSource, FMaximumBarAge,
                         FMaximumQuoteAge, FObservability, FMaximumRecords}

  function StrategyWriter(): MeanReversionConfig -> Json { (c: MeanReversionConfig) => EncodeStrategy(c) }
  function StrategyReader(): Json -> Result<MeanReversionConfig> { (j: Json) => DecodeStrategy(j) }
  function QuantityWriter(): QuantityConfig -> Json { (q: QuantityConfig) => EncodeQuantity(q) }
  function QuantityReader(): Json -> Result<QuantityConfig> { (j: Json) => DecodeQuantity(j) }

  function EncodeConfig(c: ShadowConfig): Json {
    JObject(map[
      FSession := Word(c.session), FRevision := Word(c.revision),
      FStrategies := JList(Map(StrategyWriter(), c.strategies)),
      FQuantities := JList(Map(QuantityWriter(), c.quantities)),
      FPolicy := EncodePolicy(c.policy), FSource := Word(c.source),
      FMaximumBarAge := JInt(c.maximumBarAge), FMaximumQuoteAge := JInt(c.maximumQuoteAge),
      FObservability := EncodeOptionalState(c.observability), FMaximumRecords := JInt(c.maximumRecords)])
  }

  function ReadConfig(value: Json): Result<ShadowConfig> {
    var item :- Mapping(value, ConfigFields);
    var listedStrategies :- AsList(item[FStrategies]);
    var listedQuantities :- AsList(item[FQuantities]);
    var session :- AsText(item[FSession]);
    var revision :- AsText(item[FRevision]);
    var strategies :- DecodeAll(StrategyReader(), listedStrategies);
    var quantities :- DecodeAll(QuantityReader(), listedQuantities);
    var policy :- DecodePolicy(item[FPolicy]);
    var source :- AsText(item[FSource]);
    var barAge :- AsInt(item[FMaximumBarAge]);
    var quoteAge :- AsInt(item[FMaximumQuoteAge]);
    var state :- DecodeOptionalState(item[FObservability]);
    var records :- AsInt(item[FMaximumRecords]);
    Ok(ShadowConfig(session, revision, strategies, quantities, policy, source, barAge, quoteAge, state, records))
  }

  function DecodeConfig(value: Json): (r: Result<ShadowConfig>)
    ensures r.Ok? ==> r.value.Valid()
  {
    var c :- ReadConfig(value);
    if c.Valid() then Ok(c) else Err("invalid capture config")
  }

  lemma ListsRoundTrip(c: ShadowConfig)
    requires ConfigContract(c)
    ensures DecodeAll(StrategyReader(), Map(StrategyWriter(), c.strategies)) == Ok(c.strategies)
    ensures DecodeAll(QuantityReader(), Map(QuantityWriter(), c.quantities)) == Ok(c.quantities)
  {
    forall x | x in c.strategies ensures StrategyReader()(StrategyWriter()(x)) == Ok(x) {
      StrategyRoundTrip(x);
    }
    forall x | x in c.quantities ensures QuantityReader()(QuantityWriter()(x)) == Ok(x) {
      QuantityRoundTrip(x);
    }
    DecodeAllEncoded(StrategyReader(), StrategyWriter(), c.strategies);
    DecodeAllEncoded(QuantityReader(), QuantityWriter(), c.quantities);
  }

  lemma ConfigRead(value: Json, c: ShadowConfig)
    requires value.JObject? && value.entries.Keys == ConfigFields
    requires value.entries[FStrategies].JList? && value.entries[FQuantities].JList?
    requires DecodeAll(StrategyReader(), value.entries[FStrategies].items) == Ok(c.strategies)
    requires DecodeAll(QuantityReader(), value.entries[FQuantities].items) == Ok(c.quantities)
    requires DecodePolicy(value.entries[FPolicy]) == Ok(c.policy)
    requires DecodeOptionalState(value.entries[FObservability]) == Ok(c.observability)
    requires value.entries[FSession] == Word(c.session) && value.entries[FRevision] == Word(c.revision)
    requires value.entries[FSource] == Word(c.source)
    requires value.entries[FMaximumBarAge] == JInt(c.maximumBarAge)
    requires value.entries[FMaximumQuoteAge] == JInt(c.maximumQuoteAge)
    requires value.entries[FMaximumRecords] == JInt(c.maximumRecords)
    ensures ReadConfig(value) == Ok(c)
  {
  }

  lemma ConfigEntries(c: ShadowConfig)
    ensures var e := EncodeConfig(c).entries;
            && e.Keys == ConfigFields
            && e[FStrategies] == JList(Map(StrategyWriter(), c.strategies))
            && e[FQuantities] == JList(Map(QuantityWriter(), c.quantities))
            && e[FPolicy] == EncodePolicy(c.policy) && e[FObservability] == EncodeOptionalState(c.observability)
            && e[FSession] == Word(c.session) && e[FRevision] == Word(c.revision) && e[FSource] == Word(c.source)
            && e[FMaximumBarAge] == JInt(c.maximumBarAge) && e[FMaximumQuoteAge] == JInt(c.maximumQuoteAge)
            && e[FMaximumRecords] == JInt(c.maximumRecords)
  {
    var e := EncodeConfig(c).entries;
    forall f ensures f in e <==> f in ConfigFields {
    }
  }

  lemma OptionalStateRoundTrip(s: Option<RiskState>)
    requires s.Some? ==> StateContract(s.value)
    ensures DecodeOptionalState(EncodeOptionalState(s)) == Ok(s)
  {
    if s.Some? {
      StateRoundTrip(s.value);
    }
  }

  // Every configuration a session can be constructed with is read back as it was.
  lemma ConfigRoundTrip(c: ShadowConfig)
    requires ConfigContract(c)
    ensures DecodeConfig(EncodeConfig(c)) == Ok(c)
  {
    ListsRoundTrip(c);
    PolicyRoundTrip(c.policy);
    OptionalStateRoundTrip(c.observability);
    ConfigEntries(c);
    ConfigRead(EncodeConfig(c), c);
  }
}
