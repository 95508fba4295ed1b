// The persisted form of a session: application/evidence.py. A JSON text is the tree it parses to.
module Capture {
  import opened Collections
  import opened Domain
  import opened Execution
  import opened Risk
  import opened Session
  import opened SessionReplay

  // ----- trees -----

  datatype Field =
    | FSchema | FConfig
    | FSession | FRevision | FStrategies | FQuantities | FPolicy | FSource | FMaximumBarAge | FMaximumQuoteAge
    | FObservability | FMaximumRecords
    | FInstrument | FIdentifier | FConfiguration | FWindow | FEntryThreshold | FExitThreshold | FMaximumFeatureAge
    | FFeatureName | FFeatureInput | FFeatureVersion | FQuantity
    | FPolicyId | FEnabled | FAllowed | FMaximumQuantity | FMaximumPositions | FMaximumSignalAge | FMaximumStateAge
    | FModelVersion
    | FScope | FStateId | FStateRevision | FComplete | FPositions | FOrders | FObserved | FAvailable | FControls
    | FTrading | FKillSwitch | FPositionId | FIdentity | FSide | FReference
    | FInterval | FDuration | FSemantics | FOpen | FHigh | FLow | FClose | FVolume | FProvenance | FTimezone
    | FBid | FAsk | FBidSize | FAskSize
    | FSequence | FTime | FAction | FDisposition | FHealth | FObservation | FDelivery
    | FFeature | FSignal | FIntent | FRisk
    | FOther(name: string)

  // A text carries how it is printed; Plain texts print nothing but themselves.
  datatype Text =
    | Plain(text: string)
    | TimeText(time: int)
    | NumberText(number: real)
    | SemanticsText(semantics: AvailabilitySemantics)
    | SideText(side: Side)
    | HealthText(health: FeedHealth)
    | StateIdText(id: StateId)
    | RefText(ref: Ref)

  // Derived evidence is written and compared, never read back.
  datatype Evidence =
    | FeatureEvidence(feature: FeatureSnapshot)
    | SignalEvidence(signal: Signal)
    | IntentEvidence(intent: OrderIntent)
    | RiskEvidence(view: RiskView)

  datatype Json =
    | JNull
    | JBool(flag: bool)
    | JInt(number: int)
    | JFloat(digits: string)
    | JText(text: Text)
    | JList(items: seq<Json>)
    | JObject(entries: map<Field, Json>)
    | JEvidence(evidence: Evidence)

  // ----- reading leaves and shapes -----

  function Mapping(value: Json, fields: set<Field>): (r: Result<map<Field, Json>>)
    ensures r.Ok? <==> value.JObject? && value.entries.Keys == fields
    ensures r.Ok? ==> r.value == value.entries && forall f :: f in fields ==> f in r.value
  {
    if value.JObject? && value.entries.Keys == fields then Ok(value.entries) else Err("invalid shape")
  }

  function AsText(value: Json): Result<string> {
    if value.JText? && value.text.Plain? then Ok(value.text.text) else Err("invalid text")
  }

  function AsInt(value: Json): Result<int> {
    if value.JInt? then Ok(value.number) else Err("invalid integer")
  }

  function AsBool(value: Json): Result<bool> {
    if value.JBool? then Ok(value.flag) else Err("invalid boolean")
  }

  function AsNumber(value: Json): Result<real> {
    if value.JText? && value.text.NumberText? then Ok(value.text.number) else Err("invalid decimal")
  }

  function AsTime(value: Json): Result<int> {
    if value.JText? && value.text.TimeText? then Ok(value.text.time) else Err("invalid time")
  }

  function AsSemantics(value: Json): Result<AvailabilitySemantics> {
    if value.JText? && value.text.SemanticsText? then Ok(value.text.semantics) else Err("invalid semantics")
  }

  function AsList(value: Json): Result<seq<Json>> {
    if value.JList? then Ok(value.items) else Err("invalid list")
  }

  function AsOptionalNumber(value: Json): Result<Option<real>> {
    if value.JNull? then Ok(None)
    else
      var number :- AsNumber(value);
      Ok(Some(number))
  }

  function AsOptionalText(value: Json): Result<Option<string>> {
    if value.JNull? then Ok(None)
    else
      var text :- AsText(value);
      Ok(Some(text))
  }

  function DecodeAll<T>(decode: Json -> Result<T>, items: seq<Json>): Result<seq<T>> {
    if items == [] then Ok([])
    else
      var earlier :- DecodeAll(decode, Front(items));
      var last :- decode(Last(items));
      Ok(earlier + [last])
  }

  lemma {:induction false} DecodeAllEncoded<T>(decode: Json -> Result<T>, encode: T -> Json, values: seq<T>)
    requires forall x :: x in values ==> decode(encode(x)) == Ok(x)
    ensures DecodeAll(decode, Map(encode, values)) == Ok(values)
  {
    if values != [] {
      assert values == Front(values) + [Last(values)];
      DecodeAllEncoded(decode, encode, Front(values));
      assert Front(Map(encode, values)) == Map(encode, Front(values));
    }
  }

  // ----- writing -----

  function Word(text: string): Json { JText(Plain(text)) }
  function Time(time: int): Json { JText(TimeText(time)) }
  function Number(number: real): Json { JText(NumberText(number)) }
  function OptionalNumber(number: Option<real>): Json { if number.Some? then Number(number.value) else JNull }
  function OptionalWord(text: Option<string>): Json { if text.Some? then Word(text.value) else JNull }

  function EncodeInstrument(i: Instrument): Json { JObject(map[FIdentifier := Word(i.identifier)]) }

  function EncodeProvenance(p: Provenance): Json {
    JObject(map[FSource := Word(p.source), FTimezone := OptionalWord(p.timezone), FSession := OptionalWord(p.session)])
  }

  function EncodeBar(b: Bar): Json {
    JObject(map[
      FInstrument := EncodeInstrument(b.instrument), FInterval := JObject(map[FDuration := JInt(b.interval)]),
      FObserved := Time(b.observed), FAvailable := Time(b.available), FSemantics := JText(SemanticsText(b.semantics)),
      FOpen := Number(b.open), FHigh := Number(b.high), FLow := Number(b.low), FClose := Number(b.close),
      FVolume := OptionalNumber(b.volume), FProvenance := EncodeProvenance(b.provenance)])
  }

  function EncodeQuote(q: Quote): Json {
    JObject(map[
      FInstrument := EncodeInstrument(q.instrument), FBid := Number(q.bid), FAsk := Number(q.ask),
      FBidSize := OptionalNumber(q.bidSize), FAskSize := OptionalNumber(q.askSize),
      FObserved := Time(q.observed), FAvailable := Time(q.available), FSemantics := JText(SemanticsText(q.semantics)),
      FProvenance := EncodeProvenance(q.provenance)])
  }

  function EncodeObservation(o: Observation): Json {
    if o.BarSeen? then EncodeBar(o.bar) else EncodeQuote(o.quote)
  }

  // ----- reading observations -----

  function DecodeInstrument(value: Json): Result<Instrument> {
    var item :- Mapping(value, {FIdentifier});
    var identifier :- AsText(item[FIdentifier]);
    Ok(Instrument(identifier))
  }

  function DecodeProvenance(value: Json): Result<Provenance> {
    var item :- Mapping(value, {FSource, FTimezone, FSession});
    var timezone :- AsOptionalText(item[FTimezone]);
    var session :- AsOptionalText(item[FSession]);
    var source :- AsText(item[FSource]);
    Ok(Provenance(source, timezone, session))
  }

  const BarFields := {FInstrument, FInterval, FObserved, FAvailable, FSemantics, FOpen, FHigh, FLow, FClose, FVolume,
                      FProvenance}

  const QuoteFields := {FInstrument, FBid, FAsk, FBidSize, FAskSize, FObserved, FAvailable, FSemantics, FProvenance}

  function DecodeBar(value: Json): Result<Bar> {
    var item :- Mapping(value, BarFields);
    var interval :- Mapping(item[FInterval], {FDuration});
    var volume :- AsOptionalNumber(item[FVolume]);
    var instrument :- DecodeInstrument(item[FInstrument]);
    var duration :- AsInt(interval[FDuration]);
    var observed :- AsTime(item[FObserved]);
    var available :- AsTime(item[FAvailable]);
    var semantics :- AsSemantics(item[FSemantics]);
    var open :- AsNumber(item[FOpen]);
    var high :- AsNumber(item[FHigh]);
    var low :- AsNumber(item[FLow]);
    var close :- AsNumber(item[FClose]);
    var provenance :- DecodeProvenance(item[FProvenance]);
    var bar := Bar(instrument, duration, observed, available, semantics, open, high, low, close, volume, provenance);
    if bar.Valid() then Ok(bar) else Err("invalid bar")
  }

  function DecodeQuote(value: Json): Result<Quote> {
    var item :- Mapping(value, QuoteFields);
    var bidSize :- AsOptionalNumber(item[FBidSize]);
    var askSize :- AsOptionalNumber(item[FAskSize]);
    var instrument :- DecodeInstrument(item[FInstrument]);
    var bid :- AsNumber(item[FBid]);
    var ask :- AsNumber(item[FAsk]);
    var observed :- AsTime(item[FObserved]);
    var available :- AsTime(item[FAvailable]);
    var semantics :- AsSemantics(item[FSemantics]);
    var provenance :- DecodeProvenance(item[FProvenance]);
    var quote := Quote(instrument, bid, ask, bidSize, askSize, observed, available, semantics, provenance);
    if quote.Valid() then Ok(quote) else Err("invalid quote")
  }

  // An object with an interval is a bar.
  function DecodeObservation(value: Json): Result<Observation> {
    if !value.JObject? then Err("invalid observation")
    else if FInterval in value.entries then
      var bar :- DecodeBar(value);
      Ok(BarSeen(bar))
    else
      var quote :- DecodeQuote(value);
      Ok(QuoteSeen(quote))
  }

  predicate ValidObservation(o: Observation) {
    if o.BarSeen? then o.bar.Valid() else o.quote.Valid()
  }

  lemma InstrumentRoundTrip(i: Instrument)
    ensures DecodeInstrument(EncodeInstrument(i)) == Ok(i)
  {
    assert EncodeInstrument(i).entries.Keys == {FIdentifier};
  }

  lemma ProvenanceRoundTrip(p: Provenance)
    ensures DecodeProvenance(EncodeProvenance(p)) == Ok(p)
  {
    assert EncodeProvenance(p).entries.Keys == {FSource, FTimezone, FSession};
  }

  lemma BarEntries(b: Bar)
    ensures var e := EncodeBar(b).entries;
            && e.Keys == BarFields
            && e[FInstrument] == EncodeInstrument(b.instrument)
            && e[FInterval] == JObject(map[FDuration := JInt(b.interval)])
            && e[FObserved] == Time(b.observed) && e[FAvailable] == Time(b.available)
            && e[FSemantics] == JText(SemanticsText(b.semantics))
            && e[FOpen] == Number(b.open) && e[FHigh] == Number(b.high)
            && e[FLow] == Number(b.low) && e[FClose] == Number(b.close)
            && e[FVolume] == OptionalNumber(b.volume) && e[FProvenance] == EncodeProvenance(b.provenance)
  {
    assert EncodeBar(b).entries.Keys == BarFields;
  }

  lemma BarRead(value: Json, b: Bar)
    requires b.Valid() && value.JObject? && value.entries.Keys == BarFields
    requires DecodeInstrument(value.entries[FInstrument]) == Ok(b.instrument)
    requires DecodeProvenance(value.entries[FProvenance]) == Ok(b.provenance)
    requires Mapping(value.entries[FInterval], {FDuration}) == Ok(map[FDuration := JInt(b.interval)])
    requires AsTime(value.entries[FObserved]) == Ok(b.observed) && AsTime(value.entries[FAvailable]) == Ok(b.available)
    requires AsSemantics(value.entries[FSemantics]) == Ok(b.semantics)
    requires AsNumber(value.entries[FOpen]) == Ok(b.open) && AsNumber(value.entries[FHigh]) == Ok(b.high)
    requires AsNumber(value.entries[FLow]) == Ok(b.low) && AsNumber(value.entries[FClose]) == Ok(b.close)
    requires AsOptionalNumber(value.entries[FVolume]) == Ok(b.volume)
    ensures DecodeBar(value) == Ok(b)
  {
  }

  lemma BarRoundTrip(b: Bar)
    requires b.Valid()
    ensures DecodeBar(EncodeBar(b)) == Ok(b)
  {
    BarEntries(b);
    InstrumentRoundTrip(b.instrument);
    ProvenanceRoundTrip(b.provenance);
    BarRead(EncodeBar(b), b);
  }

  lemma QuoteEntries(q: Quote)
    ensures var e := EncodeQuote(q).entries;
            && e.Keys == QuoteFields
            && e[FInstrument] == EncodeInstrument(q.instrument) && e[FProvenance] == EncodeProvenance(q.provenance)
            && e[FBid] == Number(q.bid) && e[FAsk] == Number(q.ask)
            && e[FBidSize] == OptionalNumber(q.bidSize) && e[FAskSize] == OptionalNumber(q.askSize)
            && e[FObserved] == Time(q.observed) && e[FAvailable] == Time(q.available)
            && e[FSemantics] == JText(SemanticsText(q.semantics))
  {
    assert EncodeQuote(q).entries.Keys == QuoteFields;
  }

  lemma QuoteRead(value: Json, q: Quote)
    requires q.Valid() && value.JObject? && value.entries.Keys == QuoteFields
    requires DecodeInstrument(value.entries[FInstrument]) == Ok(q.instrument)
    requires DecodeProvenance(value.entries[FProvenance]) == Ok(q.provenance)
    requires value.entries[FBid] == Number(q.bid) && value.entries[FAsk] == Number(q.ask)
    requires value.entries[FBidSize] == OptionalNumber(q.bidSize)
    requires value.entries[FAskSize] == OptionalNumber(q.askSize)
    requires value.entries[FObserved] == Time(q.observed) && value.entries[FAvailable] == Time(q.available)
    requires value.entries[FSemantics] == JText(SemanticsText(q.semantics))
    ensures DecodeQuote(value) == Ok(q)
  {
  }

  lemma QuoteRoundTrip(q: Quote)
    requires q.Valid()
    ensures DecodeQuote(EncodeQuote(q)) == Ok(q)
  {
    QuoteEntries(q);
    InstrumentRoundTrip(q.instrument);
    ProvenanceRoundTrip(q.provenance);
    QuoteRead(EncodeQuote(q), q);
  }

  lemma ObservationRoundTrip(o: Observation)
    requires ValidObservation(o)
    ensures DecodeObservation(EncodeObservation(o)) == Ok(o)
  {
    if o.BarSeen? {
      BarRoundTrip(o.bar);
    } else {
      QuoteRoundTrip(o.quote);
    }
  }
}
