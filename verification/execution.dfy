// Quote-side execution of one attempt: execution/models.py.
module Execution {
  import opened Collections
  import opened Order
  import opened Domain
  import opened Events

  const EXECUTION_MODEL := "shadow.execution.quote_bid_ask.v2"

  datatype ActionType = Entry | Exit

  datatype Side = Buy | Sell

  datatype ExecutionStatus = Filled | Unfilled | Rejected

  datatype ExecutionReason =
    | FilledAtQuote | FilledWithSlippage
    | NoLegalQuote | QuoteNotYetAvailable | StaleQuote
    | CrossedQuote | DuplicateAttemptId | InstrumentMismatch | TimeMismatch
    | NotStrictlyAfterEligibility | ModelMismatch

  datatype ActionId = ActionId(signal: EventId)

  datatype AttemptId = AttemptId(action: ActionId, opportunity: EventId)

  datatype ExecutionConfig = ExecutionConfig(maximumQuoteAge: int, slippageBps: real)
  {
    predicate Valid() {
      maximumQuoteAge >= 0 && slippageBps >= 0.0
    }
  }

  datatype Attempt = Attempt(
    id: AttemptId, action: ActionId, signal: EventId, instrument: Instrument, kind: ActionType,
    eligibleAfter: int, opportunity: EventId, opportunityInstrument: Instrument,
    opportunityTime: int, time: int, model: string)
  {
    function Side(): Side {
      if kind == Entry then Buy else Sell
    }
  }

  datatype Outcome = Outcome(
    attempt: Attempt, status: ExecutionStatus, reason: ExecutionReason,
    evidence: Option<Quote>, price: Option<real>, config: ExecutionConfig)
  {
    // The contract every constructed outcome meets.
    predicate Valid() {
      && (evidence.Some? ==> evidence.value.instrument == attempt.instrument)
      && match status
         case Filled =>
           && reason == FillReason(config)
           && evidence.Some? && evidence.value.State() != Crossed
           && price.Some?
           && ModeledPrice(QuoteSide(evidence.value, attempt.Side()), attempt.Side(), config.slippageBps)
              == Ok(price.value)
         // Kept for older evidence; resolving never gives the second reason.
         case Unfilled => reason in {NoLegalQuote, QuoteNotYetAvailable, StaleQuote} && price.None?
         case Rejected => reason in RejectedReasons && price.None?
    }
  }

  const RejectedReasons := {CrossedQuote, DuplicateAttemptId, InstrumentMismatch, TimeMismatch,
                            NotStrictlyAfterEligibility, ModelMismatch}

  function FillReason(config: ExecutionConfig): ExecutionReason {
    if config.slippageBps == 0.0 then FilledAtQuote else FilledWithSlippage
  }

  function QuoteSide(q: Quote, side: Side): real {
    if side == Buy then q.ask else q.bid
  }

  // The adverse price in exact arithmetic; rounding is the subject of module Rounding.
  function ModeledPrice(baseline: real, side: Side, bps: real): Result<real> {
    if bps == 0.0 then Ok(baseline)
    else if baseline < 0.0 then Err("nonzero slippage requires a nonnegative executable price")
    else
      var fraction := bps / 10000.0;
      var price := baseline * (if side == Buy then 1.0 + fraction else 1.0 - fraction);
      Ok(if side == Buy then (if price > baseline then price else baseline)
         else if price < baseline then price else baseline)
  }

  function OptionText(o: Option<string>): string {
    if o.Some? then o.value else ""
  }

  // The complete quote evidence, the last tie-breaker between quotes.
  function QuoteReference(q: Quote): Key {
    [Text(q.instrument.identifier), Num(q.observed), Num(q.available), Amount(q.bid), Amount(q.ask),
     if q.bidSize.Some? then Amount(q.bidSize.value) else Text(""),
     if q.askSize.Some? then Amount(q.askSize.value) else Text(""),
     Num(match q.semantics case ProviderPublished => 0 case SystemReceived => 1 case Modeled => 2),
     Text(q.provenance.source), Text(OptionText(q.provenance.timezone)), Text(OptionText(q.provenance.session))]
  }

  // Newest availability, then newest observation, then reference.
  function QuoteKey(): Quote -> Key {
    (q: Quote) => [Num(q.available), Num(q.observed)] + QuoteReference(q)
  }

  function Legal(instrument: Instrument, time: int): Quote -> bool {
    (q: Quote) => q.instrument == instrument && q.available <= time
  }

  function AttemptRejection(a: Attempt): Option<ExecutionReason> {
    if a.model != EXECUTION_MODEL then Some(ModelMismatch)
    else if a.instrument != a.opportunityInstrument then Some(InstrumentMismatch)
    else if a.time != a.opportunityTime then Some(TimeMismatch)
    else if a.opportunityTime <= a.eligibleAfter then Some(NotStrictlyAfterEligibility)
    else None
  }

  function Resolve(a: Attempt, quotes: seq<Quote>, config: ExecutionConfig): (r: Result<Outcome>)
    ensures r.Ok? ==> r.value.Valid() && r.value.attempt == a && r.value.config == config
  {
    var rejection := AttemptRejection(a);
    if rejection.Some? then Ok(Outcome(a, Rejected, rejection.value, None, None, config))
    else
      var legal := Filter(Legal(a.instrument, a.time), quotes);
      if legal == [] then Ok(Outcome(a, Unfilled, NoLegalQuote, None, None, config))
      else
        var selected := MaxBy(QuoteKey(), legal);
        if selected.State() == Crossed then
          Ok(Outcome(a, Rejected, CrossedQuote, Some(selected), None, config))
        else if a.time - selected.observed > config.maximumQuoteAge then
          Ok(Outcome(a, Unfilled, StaleQuote, Some(selected), None, config))
        else
          match ModeledPrice(QuoteSide(selected, a.Side()), a.Side(), config.slippageBps)
          case Err(e) => Err(e)
          case Ok(price) => Ok(Outcome(a, Filled, FillReason(config), Some(selected), Some(price), config))
  }

  // ----- batches and scenarios -----

  function AttemptKey(): Attempt -> Key {
    (a: Attempt) =>
      [Num(a.time), Num(a.opportunityTime), Num(a.eligibleAfter)]
      + (IdKey(a.id.action.signal) + (IdKey(a.id.opportunity) + AttemptTail(a)))
  }

  function AttemptTail(a: Attempt): Key {
    IdKey(a.action.signal) + IdKey(a.signal) + IdKey(a.opportunity)
    + [Text(a.instrument.identifier), Text(a.opportunityInstrument.identifier), Num(if a.kind == Entry then 0 else 1)]
  }

  ghost predicate NonnegativeQuotes(quotes: seq<Quote>) {
    forall q :: q in quotes ==> q.bid >= 0.0 && q.ask >= 0.0
  }

  // ----- what resolution keeps -----

  // Slippage in exact arithmetic is adverse and grows with bps.
  lemma ModeledPriceMonotone(baseline: real, side: Side, low: real, high: real)
    requires baseline >= 0.0 && 0.0 <= low <= high
    ensures ModeledPrice(baseline, side, low).Ok? && ModeledPrice(baseline, side, high).Ok?
    ensures var a, b := ModeledPrice(baseline, side, low).value, ModeledPrice(baseline, side, high).value;
            && (side == Buy ==> baseline <= a <= b)
            && (side == Sell ==> b <= a <= baseline)
  {
    var x, y := low / 10000.0, high / 10000.0;
    assert 0.0 <= x <= y;
    assert 0.0 <= baseline * x <= baseline * y;
    assert baseline * (1.0 + x) == baseline + baseline * x;
    assert baseline * (1.0 + y) == baseline + baseline * y;
    assert baseline * (1.0 - x) == baseline - baseline * x;
    assert baseline * (1.0 - y) == baseline - baseline * y;
  }

  lemma QuoteKeyDetermines(a: Quote, b: Quote)
    requires QuoteKey()(a) == QuoteKey()(b)
    ensures a.instrument == b.instrument && a.observed == b.observed && a.available == b.available
    ensures a.bid == b.bid && a.ask == b.ask
  {
    var x, y := QuoteKey()(a), QuoteKey()(b);
    assert x[1] == y[1] && x[2] == y[2] && x[4] == y[4] && x[5] == y[5] && x[6] == y[6];
  }

  // Status, reason and price depend only on which quotes there are, not on
  // their arrangement or repetition.
  lemma ResolveSameQuotes(a: Attempt, quotes: seq<Quote>, others: seq<Quote>, config: ExecutionConfig)
    requires forall q :: q in quotes <==> q in others
    ensures var r, s := Resolve(a, quotes, config), Resolve(a, others, config);
            && (r.Ok? <==> s.Ok?)
            && (r.Ok? ==> r.value.status == s.value.status && r.value.reason == s.value.reason
                          && r.value.price == s.value.price)
  {
    SameSelected(Filter(Legal(a.instrument, a.time), quotes), Filter(Legal(a.instrument, a.time), others));
  }

  // The newest of the same quotes agrees in all that decides an attempt.
  lemma SameSelected(x: seq<Quote>, y: seq<Quote>)
    requires forall q :: q in x <==> q in y
    ensures x == [] <==> y == []
    ensures x != [] ==>
              var p, q := MaxBy(QuoteKey(), x), MaxBy(QuoteKey(), y);
              p.observed == q.observed && p.bid == q.bid && p.ask == q.ask
  {
    SameEmpty(x, y);
    if x != [] {
      MaxBySameElements(QuoteKey(), x, y);
      QuoteKeyDetermines(MaxBy(QuoteKey(), x), MaxBy(QuoteKey(), y));
    }
  }

  // A quote the attempt could see, with none available later, or observed later at that time.
  ghost predicate NewestLegal(a: Attempt, quotes: seq<Quote>, q: Quote) {
    && q in quotes && Legal(a.instrument, a.time)(q)
    && forall x :: x in quotes && Legal(a.instrument, a.time)(x) ==>
         x.available < q.available || (x.available == q.available && x.observed <= q.observed)
  }

  lemma NewerQuote(x: Quote, q: Quote)
    requires KeyLe(QuoteKey()(x), QuoteKey()(q))
    ensures x.available < q.available || (x.available == q.available && x.observed <= q.observed)
  {
    assert QuoteKey()(x)[0] == Num(x.available) && QuoteKey()(q)[0] == Num(q.available);
    assert QuoteKey()(x)[1..][0] == Num(x.observed) && QuoteKey()(q)[1..][0] == Num(q.observed);
  }

  lemma SelectedNewest(a: Attempt, quotes: seq<Quote>)
    requires Filter(Legal(a.instrument, a.time), quotes) != []
    ensures NewestLegal(a, quotes, MaxBy(QuoteKey(), Filter(Legal(a.instrument, a.time), quotes)))
  {
    var legal := Filter(Legal(a.instrument, a.time), quotes);
    var newest := MaxBy(QuoteKey(), legal);
    forall x | x in legal
      ensures x.available < newest.available || (x.available == newest.available && x.observed <= newest.observed)
    {
      MaxByGreatest(QuoteKey(), legal, x);
      NewerQuote(x, newest);
    }
  }

  // The newest legal quote decides an attempt that meets its own contract: it fills exactly when
  // that quote is neither crossed nor stale, and otherwise fails for that quote, even if an older
  // one could have filled it. No quote is named exactly when none was legal.
  lemma NewestQuoteDecides(a: Attempt, quotes: seq<Quote>, config: ExecutionConfig)
    requires AttemptRejection(a).None? && Resolve(a, quotes, config).Ok?
    ensures var o := Resolve(a, quotes, config).value;
            && (o.evidence.None? <==> forall q :: q in quotes ==> !Legal(a.instrument, a.time)(q))
            && (o.evidence.None? ==> o.status == Unfilled && o.reason == NoLegalQuote)
            && (o.evidence.Some? ==> NewestLegal(a, quotes, o.evidence.value))
            && (o.evidence.Some? ==>
                  var q := o.evidence.value;
                  && (o.status == Rejected <==> q.State() == Crossed)
                  && (o.status == Filled <==> q.State() != Crossed && a.time - q.observed <= config.maximumQuoteAge)
                  && (o.status == Unfilled ==> o.reason == StaleQuote))
  {
    var legal := Filter(Legal(a.instrument, a.time), quotes);
    if legal != [] {
      SelectedNewest(a, quotes);
      assert legal[0] in legal;
    }
  }

  // The same outcome at prices no better for the trader.
  ghost predicate Dearer(l: Outcome, h: Outcome) {
    && l.attempt == h.attempt && l.status == h.status && l.evidence == h.evidence
    && (l.price.Some? <==> h.price.Some?)
    && (l.price.Some? && l.attempt.Side() == Buy ==> l.price.value <= h.price.value)
    && (l.price.Some? && l.attempt.Side() == Sell ==> l.price.value >= h.price.value)
  }

  // A changed slippage changes prices and the reason naming them, nothing else.
  lemma ResolveSlippage(a: Attempt, quotes: seq<Quote>, low: ExecutionConfig, high: ExecutionConfig)
    requires NonnegativeQuotes(quotes)
    requires low.Valid() && low.slippageBps <= high.slippageBps && low.maximumQuoteAge == high.maximumQuoteAge
    ensures Resolve(a, quotes, low).Ok? && Resolve(a, quotes, high).Ok?
    ensures var l, h := Resolve(a, quotes, low).value, Resolve(a, quotes, high).value;
            Dearer(l, h) && (l.status != Filled ==> l.reason == h.reason)
  {
    var legal := Filter(Legal(a.instrument, a.time), quotes);
    if legal != [] {
      var q := MaxBy(QuoteKey(), legal);
      ModeledPriceMonotone(QuoteSide(q, a.Side()), a.Side(), low.slippageBps, high.slippageBps);
    }
  }
}
