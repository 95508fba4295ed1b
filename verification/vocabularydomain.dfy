// The records of the journal's vocabulary that are also the engine's own values: their constructors
// accept exactly the values the engine's contracts do.
module VocabularyDomain {
  import opened Collections
  import opened Vocabulary
  import Domain
  import Risk

  // ----- what a constructor sees of the engine's values -----

  function SeeInstrument(i: Domain.Instrument): Sight { Thing("Instrument", [Words(i.identifier)]) }

  function SeeOptional(x: Option<real>): Sight { if x.Some? then Number(x.value) else Absent }

  function SeeOptionalText(x: Option<string>): Sight { if x.Some? then Words(x.value) else Absent }

  function SeeSemantics(s: Domain.AvailabilitySemantics): Sight {
    Choice("AvailabilitySemantics",
           match s
           case ProviderPublished => "provider_published"
           case SystemReceived => "system_received"
           case Modeled => "modeled")
  }

  function SeeProvenance(p: Domain.Provenance): Sight {
    Thing("Provenance", [Words(p.source), SeeOptionalText(p.timezone), SeeOptionalText(p.session)])
  }

  // What a constructor sees of a bar.
  predicate SeesBar(b: Domain.Bar, p: seq<Sight>) {
    && |p| == 11
    && p[0] == SeeInstrument(b.instrument) && p[1] == Thing("BarInterval", [Span(b.interval)])
    && p[2] == Moment(b.observed) && p[3] == Moment(b.available) && p[4] == SeeSemantics(b.semantics)
    && p[5] == Number(b.open) && p[6] == Number(b.high) && p[7] == Number(b.low) && p[8] == Number(b.close)
    && p[9] == SeeOptional(b.volume) && p[10] == SeeProvenance(b.provenance)
  }

  predicate SeesQuote(q: Domain.Quote, p: seq<Sight>) {
    && |p| == 9
    && p[0] == SeeInstrument(q.instrument) && p[1] == Number(q.bid) && p[2] == Number(q.ask)
    && p[3] == SeeOptional(q.bidSize) && p[4] == SeeOptional(q.askSize)
    && p[5] == Moment(q.observed) && p[6] == Moment(q.available)
    && p[7] == SeeSemantics(q.semantics) && p[8] == SeeProvenance(q.provenance)
  }

  // A text that may name something.
  predicate Name(text: string) { text != "" && Trimmed(text) }

  // Instruments and provenances are constructed exactly when they name something.
  lemma NamesConstructed(i: Domain.Instrument, p: Domain.Provenance)
    ensures Checks(Instrument, SeeInstrument(i).parts) <==> Name(i.identifier)
    ensures Checks(Provenance, SeeProvenance(p).parts) <==> Name(p.source)
  {
  }

  lemma IntervalsConstructed(b: Domain.Bar)
    ensures Checks(BarInterval, [Span(b.interval)]) <==> b.interval > 0
  {
  }

  // The parts of a record are records and members of the kinds it asks for.
  lemma PartsFit(i: Domain.Instrument, interval: int, s: Domain.AvailabilitySemantics, p: Domain.Provenance)
    ensures Is(Instrument, SeeInstrument(i)) && Is(BarInterval, Thing("BarInterval", [Span(interval)]))
    ensures OneOf(SEMANTICS, SeeSemantics(s)) && Is(Provenance, SeeProvenance(p))
  {
  }

  lemma BarChecked(b: Domain.Bar, p: seq<Sight>)
    requires SeesBar(b, p)
    ensures b.interval > 0 && BarChecks(p) <==> b.Valid()
  {
    PartsFit(b.instrument, b.interval, b.semantics, b.provenance);
  }

  // A bar with its interval is constructed exactly when it is valid.
  lemma BarsConstructed(b: Domain.Bar, p: seq<Sight>)
    requires SeesBar(b, p)
    ensures b.interval > 0 && Checks(Bar, p) <==> b.Valid()
  {
    BarChecked(b, p);
    OfBar(p);
  }

  lemma OfBar(p: seq<Sight>)
    ensures Checks(Bar, p) <==> |p| == 11 && BarChecks(p)
  {
  }

  lemma QuoteChecked(q: Domain.Quote, p: seq<Sight>)
    requires SeesQuote(q, p)
    ensures QuoteChecks(p) <==> q.Valid()
  {
    PartsFit(q.instrument, 1, q.semantics, q.provenance);
  }

  lemma QuotesConstructed(q: Domain.Quote, p: seq<Sight>)
    requires SeesQuote(q, p)
    ensures Checks(Quote, p) <==> q.Valid()
  {
    QuoteChecked(q, p);
    OfQuote(p);
  }

  lemma OfQuote(p: seq<Sight>)
    ensures Checks(Quote, p) <==> |p| == 9 && QuoteChecks(p)
  {
  }

  lemma ControlsConstructed(c: Risk.Controls)
    ensures Checks(OperatorControls, [Flag(c.tradingEnabled), Flag(c.killSwitchActive), Moment(c.observed), Moment(c.available)])
       <==> c.observed <= c.available
  {
  }

  // A position is constructed exactly when it is of a positive whole quantity and has a name.
  lemma PositionsConstructed(p: Risk.OpenPosition)
    ensures Checks(OpenLongPosition, [SeeInstrument(p.instrument), Number(p.quantity), Words(p.id)])
       <==> p.quantity > 0.0 && p.quantity == p.quantity.Floor as real && Name(p.id)
  {
  }

  function SeeInstruments(instruments: seq<Domain.Instrument>): seq<Sight> {
    Map((i: Domain.Instrument) => SeeInstrument(i), instruments)
  }

  predicate SeesPolicy(r: Risk.RiskPolicy, p: seq<Sight>) {
    && |p| == 10
    && p[0] == Words(r.policyId) && p[1] == Flag(r.enabled) && p[2] == Row(SeeInstruments(r.allowed))
    && p[3] == Number(r.maximumQuantity) && p[4] == Count(r.maximumPositions)
    && p[5] == Span(r.maximumSignalAge) && p[6] == Span(r.maximumFeatureAge) && p[7] == Span(r.maximumQuoteAge)
    && p[8] == Span(r.maximumStateAge) && p[9] == Words("shadow.risk.paper.v2")
  }

  lemma AllowedSeen(instruments: seq<Domain.Instrument>)
    ensures AllAre(Instrument, SeeInstruments(instruments))
    ensures Unrepeated(Map(Lens(Identifier), SeeInstruments(instruments))) <==> Distinct(instruments)
  {
    var seen := SeeInstruments(instruments);
    var identifiers := Map(Lens(Identifier), seen);
    forall i | 0 <= i < |instruments| ensures identifiers[i] == instruments[i].identifier && Is(Instrument, seen[i]) {
      assert seen[i] == SeeInstrument(instruments[i]);
    }
    if Distinct(instruments) {
      assert Distinct(identifiers);
      DistinctLength(identifiers);
    }
    if Unrepeated(identifiers) {
      FullLengthDistinct(identifiers);
      forall i, j | 0 <= i < j < |instruments| ensures instruments[i] != instruments[j] {
        assert identifiers[i] != identifiers[j];
      }
    }
  }

  lemma PolicyChecked(r: Risk.RiskPolicy, p: seq<Sight>)
    requires SeesPolicy(r, p)
    ensures PolicyChecks(p) <==> r.Valid() && Name(r.policyId)
  {
    AllowedSeen(r.allowed);
  }

  // A policy is constructed exactly when it is valid and has a name.
  lemma PoliciesConstructed(r: Risk.RiskPolicy, p: seq<Sight>)
    requires SeesPolicy(r, p)
    ensures Checks(RiskPolicy, p) <==> r.Valid() && Name(r.policyId)
  {
    PolicyChecked(r, p);
    OfPolicy(p);
  }

  lemma OfPolicy(p: seq<Sight>)
    ensures Checks(RiskPolicy, p) <==> |p| == 10 && PolicyChecks(p)
  {
  }
}
