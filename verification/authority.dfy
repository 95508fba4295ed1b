// What a risk decision says, in the fields of what it was asked: risk/evaluator.py.
module Authority {
  import opened Collections
  import opened Domain
  import opened Execution
  import opened Risk

  // The reasons are those warranted.
  ghost predicate Judged(q: Question, reasons: set<RejectionReason>) {
    forall r :: r in reasons <==> Warrants(q, r)
  }

  lemma EvaluatedJudged(q: Question)
    ensures Judged(q, Evaluated(q).reasons)
  {
  }

  // A decision carries a reason exactly when that applies; the two reasons of retries never do.
  lemma PolicyReasons(q: Question, reasons: set<RejectionReason>)
    requires Judged(q, reasons)
    ensures var intent := q.intent;
            && (PolicyDisabled in reasons <==> !q.policy.enabled)
            && (TradingDisabled in reasons <==> !q.state.controls.tradingEnabled)
            && (KillSwitchActive in reasons <==> q.state.controls.killSwitchActive)
            && (UnsupportedInstrument in reasons <==> intent.instrument !in q.policy.allowed)
            && DuplicateIntent !in reasons && IntentIdentityConflict !in reasons
  {
  }

  lemma IntentReasons(q: Question, reasons: set<RejectionReason>)
    requires Judged(q, reasons)
    ensures var intent, signal := q.intent, q.intent.signal;
            && (InvalidQuantity in reasons <==>
                  intent.quantity <= 0.0 || intent.quantity != intent.quantity.Floor as real)
            && (MaxQuantityExceeded in reasons <==>
                  InvalidQuantity !in reasons && intent.quantity > q.policy.maximumQuantity)
            && (IntentSignalMismatch in reasons <==>
                  || intent.instrument != signal.instrument || intent.time != signal.decided
                  || intent.scope != q.state.scope || (intent.side == Buy <==> signal.kind != LongEntry))
  {
  }

  // The lineage: the feature is the ready one the signal claims, it was fresh when the signal was
  // decided, and it is past the threshold the signal claims.
  lemma LineageReason(q: Question, reasons: set<RejectionReason>)
    requires Judged(q, reasons)
    ensures var s, f := q.intent.signal, q.feature;
            LineageMismatch !in reasons <==>
              && f.state == Ready && f.value == Some(s.value) && f.instrument == s.instrument && f.name == s.featureName
              && f.version == s.featureVersion && f.window == s.featureWindow && f.observed == s.featureObserved
              && f.available == s.featureAvailable && f.dataset == s.dataset
              && s.decided - s.featureObserved <= s.maximumFeatureAge
              && (if s.kind == LongEntry then s.reason == EntryThreshold && s.value.AtMost(s.entryThreshold)
                  else s.reason == ExitThreshold && s.value.AtLeast(s.exitThreshold))
  {
  }

  // Evidence observed or available after now is of the future; other evidence is stale by its age.
  lemma AgeReasons(q: Question, reasons: set<RejectionReason>)
    requires Judged(q, reasons)
    ensures var s, f, quote := q.intent.signal, q.feature, q.quote;
            && (FutureSignal in reasons <==> s.decided > q.now || s.available > q.now)
            && (StaleSignal in reasons <==> FutureSignal !in reasons && q.now - s.decided > q.policy.maximumSignalAge)
            && (FutureFeature in reasons <==> f.observed > q.now || f.available > q.now)
            && (StaleFeature in reasons <==> FutureFeature !in reasons && q.now - f.observed > q.policy.maximumFeatureAge)
            && (FutureQuote in reasons <==> quote.observed > q.now || quote.available > q.now)
            && (StaleQuoteEvidence in reasons <==>
                  FutureQuote !in reasons && q.now - quote.observed > q.policy.maximumQuoteAge)
  {
  }

  lemma QuoteReasons(q: Question, reasons: set<RejectionReason>)
    requires Judged(q, reasons)
    ensures && (QuoteInstrumentMismatch in reasons <==> q.quote.instrument != q.intent.instrument)
            && (CrossedQuoteEvidence in reasons <==> q.quote.bid > q.quote.ask)
            && (NonpositiveQuote in reasons <==> q.quote.bid <= 0.0 || q.quote.ask <= 0.0)
  {
  }

  lemma StateReasons(q: Question, reasons: set<RejectionReason>)
    requires Judged(q, reasons)
    ensures var state := q.state;
            && (IncompleteInventory in reasons <==> !state.complete)
            && (FutureState in reasons <==> state.observed > q.now || state.available > q.now)
            && (StaleState in reasons <==> FutureState !in reasons && q.now - state.observed > q.policy.maximumStateAge)
            && (FutureControls in reasons <==> state.controls.observed > q.now || state.controls.available > q.now)
            && (StaleControls in reasons <==>
                  FutureControls !in reasons && q.now - state.controls.observed > q.policy.maximumStateAge)
  {
  }

  // No two positions share an instrument or identifier, and no two orders an instrument, intent
  // or reference.
  ghost predicate Apart(state: RiskState) {
    && (forall i, j :: 0 <= i < j < |state.positions| ==>
          state.positions[i].instrument != state.positions[j].instrument && state.positions[i].id != state.positions[j].id)
    && (forall i, j :: 0 <= i < j < |state.orders| ==>
          && state.orders[i].instrument != state.orders[j].instrument
          && state.orders[i].identity != state.orders[j].identity
          && state.orders[i].reference != state.orders[j].reference)
  }

  // A purchase is of an instrument without a position, a sale of exactly the position held.
  ghost predicate Fitting(state: RiskState) {
    forall o :: o in state.orders ==>
      if o.side == Buy then forall p :: p in state.positions ==> p.instrument != o.instrument
      else exists p :: p in state.positions && p.instrument == o.instrument && p.quantity == o.quantity
  }

  lemma {:induction false} PositionHeld(positions: seq<OpenPosition>, instrument: Instrument)
    ensures PositionFor(positions, instrument).None? <==> forall p :: p in positions ==> p.instrument != instrument
    ensures PositionFor(positions, instrument).Some? ==>
              PositionFor(positions, instrument).value in positions
              && PositionFor(positions, instrument).value.instrument == instrument
  {
    if positions != [] {
      PositionHeld(Front(positions), instrument);
      FrontAndLast(positions);
    }
  }

  lemma OnePosition(positions: seq<OpenPosition>, p: OpenPosition, r: OpenPosition)
    requires Distinct(Map(PositionInstrument(), positions)) && p in positions && r in positions
    requires p.instrument == r.instrument
    ensures p == r
  {
    DistinctMap(PositionInstrument(), positions);
  }

  lemma OrderFitsExactly(positions: seq<OpenPosition>, o: OutstandingOrder)
    requires Distinct(Map(PositionInstrument(), positions))
    ensures OrderFits(positions, o) <==>
              if o.side == Buy then forall p :: p in positions ==> p.instrument != o.instrument
              else exists p :: p in positions && p.instrument == o.instrument && p.quantity == o.quantity
  {
    PositionHeld(positions, o.instrument);
    if p :| p in positions && p.instrument == o.instrument && p.quantity == o.quantity {
      OnePosition(positions, p, PositionFor(positions, o.instrument).value);
    }
  }

  lemma MapApart<T, U>(f: T -> U, s: seq<T>)
    ensures Distinct(Map(f, s)) <==> forall i, j :: 0 <= i < j < |s| ==> f(s[i]) != f(s[j])
  {
    if Distinct(Map(f, s)) {
      forall i, j | 0 <= i < j < |s| ensures f(s[i]) != f(s[j]) {
        assert Map(f, s)[i] != Map(f, s)[j];
      }
    }
  }

  lemma AllFit(state: RiskState)
    requires Distinct(Map(PositionInstrument(), state.positions))
    ensures Fitting(state) <==> forall o :: o in state.orders ==> OrderFits(state.positions, o)
  {
    forall o ensures OrderFits(state.positions, o) <==>
                       if o.side == Buy then forall p :: p in state.positions ==> p.instrument != o.instrument
                       else exists p :: p in state.positions && p.instrument == o.instrument && p.quantity == o.quantity
    {
      OrderFitsExactly(state.positions, o);
    }
  }

  lemma ApartExactly(state: RiskState)
    ensures Apart(state) <==>
              && ConsistentPositions(state.positions) && Distinct(Map(OrderInstrument(), state.orders))
              && Distinct(Map(OrderIdentity(), state.orders)) && Distinct(Map(OrderReference(), state.orders))
  {
    MapApart(PositionInstrument(), state.positions);
    MapApart(PositionId(), state.positions);
    MapApart(OrderInstrument(), state.orders);
    MapApart(OrderIdentity(), state.orders);
    MapApart(OrderReference(), state.orders);
  }

  // The state is inconsistent exactly when it lists something twice or an order that does not fit.
  lemma ConsistencyReason(q: Question, reasons: set<RejectionReason>)
    requires Judged(q, reasons)
    ensures InconsistentState in reasons <==> !(Apart(q.state) && Fitting(q.state))
  {
    ApartExactly(q.state);
    if Apart(q.state) {
      AllFit(q.state);
    }
  }

  // How many places of a list hold.
  function CountBuys(orders: seq<OutstandingOrder>): nat {
    if orders == [] then 0 else CountBuys(Front(orders)) + if Last(orders).side == Buy then 1 else 0
  }

  lemma {:induction false} BuysCounted(orders: seq<OutstandingOrder>)
    ensures |Filter(IsBuy(), orders)| == CountBuys(orders)
  {
    if orders != [] {
      BuysCounted(Front(orders));
    }
  }

  lemma OutstandingReason(q: Question, reasons: set<RejectionReason>)
    requires Judged(q, reasons)
    ensures OutstandingOrderExists in reasons <==> exists o :: o in q.state.orders && o.instrument == q.intent.instrument
  {
  }

  // A purchase needs an instrument without a position, and room among the positions and purchases.
  lemma PurchaseReasons(q: Question, reasons: set<RejectionReason>)
    requires Judged(q, reasons)
    ensures PositionAlreadyOpen in reasons <==>
              q.intent.side == Buy && exists p :: p in q.state.positions && p.instrument == q.intent.instrument
    ensures MaxConcurrentPositions in reasons <==>
              q.intent.side == Buy && |q.state.positions| + CountBuys(q.state.orders) >= q.policy.maximumPositions
  {
    BuysCounted(q.state.orders);
  }

  lemma SaleReason(q: Question, reasons: set<RejectionReason>)
    requires Judged(q, reasons)
    ensures PositionNotOpen in reasons <==>
              q.intent.side == Sell && forall p :: p in q.state.positions ==> p.instrument != q.intent.instrument
  {
    FilterNonempty(PositionOn(q.intent.instrument), q.state.positions);
  }

  // Over a consistent state a sale must be of exactly the quantity held.
  lemma SaleQuantityReasons(q: Question, reasons: set<RejectionReason>)
    requires Judged(q, reasons) && Apart(q.state)
    ensures PartialExit in reasons <==>
              q.intent.side == Sell && exists p :: HeldAs(q, p) && q.intent.quantity < p.quantity
    ensures Oversell in reasons <==>
              q.intent.side == Sell && exists p :: HeldAs(q, p) && q.intent.quantity > p.quantity
  {
    QuantitiesJudged(q, reasons);
    HeldAlone(q);
  }

  lemma QuantitiesJudged(q: Question, reasons: set<RejectionReason>)
    requires Judged(q, reasons)
    ensures var held := Filter(PositionOn(q.intent.instrument), q.state.positions);
            && (PartialExit in reasons <==> q.intent.side == Sell && |held| == 1 && q.intent.quantity < held[0].quantity)
            && (Oversell in reasons <==> q.intent.side == Sell && |held| == 1 && q.intent.quantity > held[0].quantity)
  {
  }

  // A position on the instrument is the only one.
  lemma HeldAlone(q: Question)
    requires Apart(q.state)
    ensures var held := Filter(PositionOn(q.intent.instrument), q.state.positions);
            && (|held| == 1 ==> HeldAs(q, held[0])) && forall p :: HeldAs(q, p) ==> held == [p]
  {
    ApartExactly(q.state);
    HeldOnce(q.state.positions, q.intent.instrument);
  }

  predicate HeldAs(q: Question, p: OpenPosition) { p in q.state.positions && p.instrument == q.intent.instrument }

  lemma HeldOnce(positions: seq<OpenPosition>, instrument: Instrument)
    requires Distinct(Map(PositionInstrument(), positions))
    ensures var held := Filter(PositionOn(instrument), positions);
            && |held| <= 1 && (held == [] <==> forall p :: p in positions ==> p.instrument != instrument)
            && (|held| == 1 ==> forall p :: p in positions && p.instrument == instrument <==> p == held[0])
  {
    var held := Filter(PositionOn(instrument), positions);
    DistinctMapDistinct(PositionInstrument(), positions);
    FilterDistinct(PositionOn(instrument), positions);
    FilterNonempty(PositionOn(instrument), positions);
    if |held| > 1 {
      assert held[0] in held && held[1] in held;
      OnePosition(positions, held[0], held[1]);
    }
    if |held| == 1 {
      assert held[0] in held;
      forall p | p in positions && p.instrument == instrument ensures p == held[0] {
        OnePosition(positions, p, held[0]);
      }
    }
  }

  // ----- identities -----

  // Two intents are the same business exactly when they act in the same scope on the same feature
  // for the same rule and proposal.
  lemma IdentityExactly(a: OrderIntent, b: OrderIntent)
    ensures var s, t := a.signal, b.signal;
            a.Identity() == b.Identity() <==>
              && a.scope == b.scope && s.instrument == t.instrument && s.kind == t.kind
              && s.strategy == t.strategy && s.strategyVersion == t.strategyVersion && s.configuration == t.configuration
              && s.featureName == t.featureName && s.featureVersion == t.featureVersion
              && s.featureWindow == t.featureWindow && s.featureObserved == t.featureObserved
              && s.featureAvailable == t.featureAvailable && s.dataset == t.dataset
  {
  }

  // Two intents have the same payload exactly when they differ at most in when their signal was decided.
  lemma PayloadExactly(a: OrderIntent, b: OrderIntent)
    ensures a.Payload() == b.Payload() <==> a == b.(signal := b.signal.(decided := a.signal.decided))
    ensures a.Payload() == b.Payload() ==> a.Identity() == b.Identity()
  {
  }

  // Two decisions have the same identifier exactly when they differ at most in that.
  lemma DecisionIdExactly(d: RiskDecision, e: RiskDecision)
    ensures d.Id() == e.Id() <==> d.intent.Payload() == e.intent.Payload() && d == e.(intent := d.intent)
  {
    PayloadExactly(d.intent, e.intent);
  }
}
