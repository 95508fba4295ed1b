// Paper risk contracts and their evaluation: risk/models.py and risk/evaluator.py.
module Risk {
  import opened Collections
  import opened Domain
  import opened Execution

  // ----- contracts -----

  // The parts of a signal that identify a business intent.
  datatype Business = Business(
    instrument: Instrument, strategy: string, strategyVersion: string, configuration: string, kind: SignalType,
    featureName: FeatureName, featureVersion: string, featureWindow: int,
    featureObserved: int, featureAvailable: int, dataset: string)

  function BusinessOf(s: Signal): Business {
    Business(s.instrument, s.strategy, s.strategyVersion, s.configuration, s.kind, s.featureName, s.featureVersion,
             s.featureWindow, s.featureObserved, s.featureAvailable, s.dataset)
  }

  // Digests keep what they are digests of; Given is a text from outside.
  datatype Ref =
    | Given(text: string)
    | IntentRef(scope: string, business: Business)
    | PayloadRef(
        scope: string, business: Business, available: int, value: SignedRoot,
        entryThreshold: real, exitThreshold: real, maximumFeatureAge: int, reason: SignalReason,
        instrument: Instrument, side: Side, quantity: real, time: int, quantityConfiguration: string)
    | PolicyRef(policy: RiskPolicy)
    | StateRef(state: RiskState)
    | FeatureRef(feature: FeatureSnapshot)
    | QuoteRef(quote: Quote)
    | DecisionRef(
        identity: Ref, payload: Ref, status: RiskStatus, reasons: set<RejectionReason>,
        policyId: string, policyFingerprint: Ref, stateId: StateId, revision: nat, stateFingerprint: Ref,
        featureReference: Ref, quoteReference: Ref, decided: int, prior: Option<Ref>)
    | GrantRef(decision: Ref)

  // A state identifier names the gate's merge after the caller's identifier.
  datatype StateId = SuppliedState(text: string) | MergedState(of: StateId)

  datatype OrderIntent = OrderIntent(
    scope: string, signal: Signal, instrument: Instrument, side: Side, quantity: real, time: int,
    quantityConfiguration: string)
  {
    function Identity(): Ref { IntentRef(scope, BusinessOf(signal)) }

    function Payload(): Ref {
      PayloadRef(scope, BusinessOf(signal), signal.available, signal.value, signal.entryThreshold,
                 signal.exitThreshold, signal.maximumFeatureAge, signal.reason, instrument, side, quantity, time,
                 quantityConfiguration)
    }
  }

  datatype RiskPolicy = RiskPolicy(
    policyId: string, enabled: bool, allowed: seq<Instrument>, maximumQuantity: real, maximumPositions: int,
    maximumSignalAge: int, maximumFeatureAge: int, maximumQuoteAge: int, maximumStateAge: int)
  {
    ghost predicate Valid() {
      && Distinct(allowed) && Whole(maximumQuantity) && maximumPositions > 0
      && maximumSignalAge >= 0 && maximumFeatureAge >= 0 && maximumQuoteAge >= 0 && maximumStateAge >= 0
    }
  }

  predicate Whole(quantity: real) {
    quantity > 0.0 && quantity == quantity.Floor as real
  }

  datatype Controls = Controls(tradingEnabled: bool, killSwitchActive: bool, observed: int, available: int)

  datatype OpenPosition = OpenPosition(instrument: Instrument, quantity: real, id: string)

  datatype OutstandingOrder = OutstandingOrder(
    instrument: Instrument, identity: Ref, side: Side, quantity: real, reference: Ref)

  datatype RiskState = RiskState(
    scope: string, id: StateId, revision: nat, complete: bool, positions: seq<OpenPosition>,
    orders: seq<OutstandingOrder>, observed: int, available: int, controls: Controls)

  datatype RiskStatus = Authorized | Refused

  datatype RejectionReason =
    | PolicyDisabled | TradingDisabled | KillSwitchActive | UnsupportedInstrument
    | InvalidQuantity | MaxQuantityExceeded | IntentSignalMismatch | LineageMismatch
    | FutureSignal | StaleSignal | FutureFeature | StaleFeature
    | QuoteInstrumentMismatch | FutureQuote | StaleQuoteEvidence | CrossedQuoteEvidence | NonpositiveQuote
    | IncompleteInventory | FutureState | StaleState | FutureControls | StaleControls | InconsistentState
    | PositionAlreadyOpen | OutstandingOrderExists | MaxConcurrentPositions
    | PositionNotOpen | PartialExit | Oversell
    | DuplicateIntent | IntentIdentityConflict

  datatype RiskDecision = RiskDecision(
    intent: OrderIntent, status: RiskStatus, reasons: set<RejectionReason>, policyId: string, policyFingerprint: Ref,
    stateId: StateId, revision: nat, stateFingerprint: Ref, featureReference: Ref, quoteReference: Ref,
    decided: int, prior: Option<Ref>)
  {
    // The contract every constructed decision meets.
    predicate Valid() { status == Authorized <==> reasons == {} }

    function Id(): Ref {
      DecisionRef(intent.Identity(), intent.Payload(), status, reasons, policyId, policyFingerprint, stateId, revision,
                  stateFingerprint, featureReference, quoteReference, decided, prior)
    }
  }

  // ----- what each reason means -----

  function ExpectedSide(kind: SignalType): Side {
    if kind == LongEntry then Buy else Sell
  }

  // The feature is the one the signal claims, and the claimed rule holds of it.
  predicate LineageMatches(signal: Signal, feature: FeatureSnapshot) {
    && (if signal.kind == LongEntry then signal.reason == EntryThreshold && signal.value.AtMost(signal.entryThreshold)
        else signal.reason == ExitThreshold && signal.value.AtLeast(signal.exitThreshold))
    && signal.decided - signal.featureObserved <= signal.maximumFeatureAge
    && feature.instrument == signal.instrument && feature.name == signal.featureName
    && feature.version == signal.featureVersion && feature.window == signal.featureWindow
    && feature.observed == signal.featureObserved && feature.available == signal.featureAvailable
    && feature.value == Some(signal.value) && feature.dataset == signal.dataset
    && feature.state == Ready
  }

  // The last position listed for an instrument.
  function PositionFor(positions: seq<OpenPosition>, instrument: Instrument): Option<OpenPosition> {
    if positions == [] then None
    else if Last(positions).instrument == instrument then Some(Last(positions))
    else PositionFor(Front(positions), instrument)
  }

  // A purchase opens nothing already open; a sale closes exactly what is open.
  predicate OrderFits(positions: seq<OpenPosition>, o: OutstandingOrder) {
    var held := PositionFor(positions, o.instrument);
    if o.side == Buy then held.None? else held.Some? && o.quantity == held.value.quantity
  }

  function PositionInstrument(): OpenPosition -> Instrument { (p: OpenPosition) => p.instrument }
  function PositionId(): OpenPosition -> string { (p: OpenPosition) => p.id }
  function OrderInstrument(): OutstandingOrder -> Instrument { (o: OutstandingOrder) => o.instrument }
  function OrderIdentity(): OutstandingOrder -> Ref { (o: OutstandingOrder) => o.identity }
  function OrderReference(): OutstandingOrder -> Ref { (o: OutstandingOrder) => o.reference }
  function IsBuy(): OutstandingOrder -> bool { (o: OutstandingOrder) => o.side == Buy }

  function PositionOn(instrument: Instrument): OpenPosition -> bool {
    (p: OpenPosition) => p.instrument == instrument
  }

  function OrderOn(instrument: Instrument): OutstandingOrder -> bool {
    (o: OutstandingOrder) => o.instrument == instrument
  }

  ghost predicate ConsistentPositions(positions: seq<OpenPosition>) {
    Distinct(Map(PositionInstrument(), positions)) && Distinct(Map(PositionId(), positions))
  }

  ghost predicate ConsistentOrders(positions: seq<OpenPosition>, orders: seq<OutstandingOrder>) {
    && Distinct(Map(OrderInstrument(), orders))
    && Distinct(Map(OrderIdentity(), orders))
    && Distinct(Map(OrderReference(), orders))
    && forall o :: o in orders ==> OrderFits(positions, o)
  }

  ghost predicate Consistent(positions: seq<OpenPosition>, orders: seq<OutstandingOrder>) {
    ConsistentPositions(positions) && ConsistentOrders(positions, orders)
  }

  datatype Question = Question(
    intent: OrderIntent, policy: RiskPolicy, state: RiskState, feature: FeatureSnapshot, quote: Quote, now: int)

  // Exactly when each reason about permission and lineage is given.
  ghost predicate PolicyWarrants(q: Question, r: RejectionReason) {
    var intent, policy, state, signal := q.intent, q.policy, q.state, q.intent.signal;
    match r
    case PolicyDisabled => !policy.enabled
    case TradingDisabled => !state.controls.tradingEnabled
    case KillSwitchActive => state.controls.killSwitchActive
    case UnsupportedInstrument => intent.instrument !in policy.allowed
    case InvalidQuantity => !Whole(intent.quantity)
    case MaxQuantityExceeded => Whole(intent.quantity) && intent.quantity > policy.maximumQuantity
    case IntentSignalMismatch =>
      !(intent.instrument == signal.instrument && intent.side == ExpectedSide(signal.kind)
        && intent.time == signal.decided && intent.scope == state.scope)
    case LineageMismatch => !LineageMatches(signal, q.feature)
    case _ => false
  }

  // Exactly when each reason about the signal and its feature is given.
  ghost predicate SignalWarrants(q: Question, r: RejectionReason) {
    var policy, signal := q.policy, q.intent.signal;
    match r
    case FutureSignal => Later(signal.decided, signal.available, q.now)
    case StaleSignal => Aged(signal.decided, signal.available, q.now, policy.maximumSignalAge)
    case FutureFeature => Later(q.feature.observed, q.feature.available, q.now)
    case StaleFeature => Aged(q.feature.observed, q.feature.available, q.now, policy.maximumFeatureAge)
    case _ => false
  }

  // Exactly when each reason about the quote is given.
  ghost predicate QuoteWarrants(q: Question, r: RejectionReason) {
    match r
    case QuoteInstrumentMismatch => q.quote.instrument != q.intent.instrument
    case FutureQuote => Later(q.quote.observed, q.quote.available, q.now)
    case StaleQuoteEvidence => Aged(q.quote.observed, q.quote.available, q.now, q.policy.maximumQuoteAge)
    case CrossedQuoteEvidence => q.quote.bid > q.quote.ask
    case NonpositiveQuote => !(q.quote.bid > 0.0 && q.quote.ask > 0.0)
    case _ => false
  }

  // Exactly when each reason about the supplied operational state is given.
  ghost predicate StateWarrants(q: Question, r: RejectionReason) {
    var policy, state, controls := q.policy, q.state, q.state.controls;
    match r
    case IncompleteInventory => !state.complete
    case FutureState => Later(state.observed, state.available, q.now)
    case StaleState => Aged(state.observed, state.available, q.now, policy.maximumStateAge)
    case FutureControls => Later(controls.observed, controls.available, q.now)
    case StaleControls => Aged(controls.observed, controls.available, q.now, policy.maximumStateAge)
    case InconsistentState => !Consistent(state.positions, state.orders)
    case _ => false
  }

  // Exactly when each reason about entering is given.
  ghost predicate EntryWarrants(q: Question, r: RejectionReason) {
    match r
    case OutstandingOrderExists => exists o :: o in q.state.orders && o.instrument == q.intent.instrument
    case PositionAlreadyOpen =>
      q.intent.side == Buy && exists p :: p in q.state.positions && p.instrument == q.intent.instrument
    case MaxConcurrentPositions =>
      q.intent.side == Buy
      && |q.state.positions| + |Filter(IsBuy(), q.state.orders)| >= q.policy.maximumPositions
    case _ => false
  }

  // Exactly when each reason about leaving is given.
  ghost predicate ExitWarrants(q: Question, r: RejectionReason) {
    var held := Filter(PositionOn(q.intent.instrument), q.state.positions);
    match r
    case PositionNotOpen => q.intent.side == Sell && held == []
    case PartialExit => q.intent.side == Sell && |held| == 1 && q.intent.quantity < held[0].quantity
    case Oversell => q.intent.side == Sell && |held| == 1 && q.intent.quantity > held[0].quantity
    case _ => false
  }

  ghost predicate Warrants(q: Question, r: RejectionReason) {
    || PolicyWarrants(q, r) || SignalWarrants(q, r) || QuoteWarrants(q, r)
    || StateWarrants(q, r) || EntryWarrants(q, r) || ExitWarrants(q, r)
  }

  predicate Later(observed: int, available: int, now: int) {
    observed > now || available > now
  }

  predicate Aged(observed: int, available: int, now: int, limit: int) {
    !Later(observed, available, now) && now - observed > limit
  }

  ghost function Reasons(q: Question): set<RejectionReason> {
    set r: RejectionReason | Warrants(q, r)
  }

  function DecisionOf(q: Question, reasons: set<RejectionReason>): RiskDecision {
    RiskDecision(q.intent, if reasons == {} then Authorized else Refused, reasons,
                 q.policy.policyId, PolicyRef(q.policy), q.state.id, q.state.revision, StateRef(q.state),
                 FeatureRef(q.feature), QuoteRef(q.quote), q.now, None)
  }

  ghost function Evaluated(q: Question): RiskDecision {
    DecisionOf(q, Reasons(q))
  }

  // ----- the evaluator -----

  // What the operator's switches and the allowlist refuse.
  method JudgeSwitches(q: Question) returns (reasons: set<RejectionReason>)
    ensures forall r :: r in reasons <==> r in Switches && PolicyWarrants(q, r)
  {
    var intent, policy, state := q.intent, q.policy, q.state;
    reasons := {};
    if !policy.enabled { reasons := reasons + {PolicyDisabled}; }
    if !state.controls.tradingEnabled { reasons := reasons + {TradingDisabled}; }
    if state.controls.killSwitchActive { reasons := reasons + {KillSwitchActive}; }
    if intent.instrument !in policy.allowed { reasons := reasons + {UnsupportedInstrument}; }
  }

  const Switches := {PolicyDisabled, TradingDisabled, KillSwitchActive, UnsupportedInstrument}

  method JudgePolicy(q: Question) returns (reasons: set<RejectionReason>)
    ensures forall r :: r in reasons <==> PolicyWarrants(q, r)
  {
    var intent, policy, state, signal := q.intent, q.policy, q.state, q.intent.signal;
    reasons := JudgeSwitches(q);
    if !Whole(intent.quantity) {
      reasons := reasons + {InvalidQuantity};
    } else if intent.quantity > policy.maximumQuantity {
      reasons := reasons + {MaxQuantityExceeded};
    }
    var expected := if signal.kind == LongEntry then Buy else Sell;
    if intent.instrument != signal.instrument || intent.side != expected
       || intent.time != signal.decided || intent.scope != state.scope
    {
      reasons := reasons + {IntentSignalMismatch};
    }
    if !LineageMatches(signal, q.feature) { reasons := reasons + {LineageMismatch}; }
  }

  // One piece of evidence: from the future, else too old.
  method JudgeAge(
    observed: int, available: int, now: int, limit: int, future: RejectionReason, stale: RejectionReason)
    returns (reasons: set<RejectionReason>)
    requires future != stale
    ensures forall r :: r in reasons <==>
              (r == future && Later(observed, available, now)) || (r == stale && Aged(observed, available, now, limit))
  {
    reasons := {};
    if observed > now || available > now {
      reasons := reasons + {future};
    } else if now - observed > limit {
      reasons := reasons + {stale};
    }
  }

  method JudgeSignal(q: Question) returns (reasons: set<RejectionReason>)
    ensures forall r :: r in reasons <==> SignalWarrants(q, r)
  {
    var policy, signal := q.policy, q.intent.signal;
    reasons := JudgeAge(signal.decided, signal.available, q.now, policy.maximumSignalAge, FutureSignal, StaleSignal);
    var more := JudgeAge(q.feature.observed, q.feature.available, q.now, policy.maximumFeatureAge,
                         FutureFeature, StaleFeature);
    reasons := reasons + more;
  }

  method JudgeQuote(q: Question) returns (reasons: set<RejectionReason>)
    ensures forall r :: r in reasons <==> QuoteWarrants(q, r)
  {
    var quote := q.quote;
    reasons := {};
    if quote.instrument != q.intent.instrument { reasons := reasons + {QuoteInstrumentMismatch}; }
    var more := JudgeAge(quote.observed, quote.available, q.now, q.policy.maximumQuoteAge,
                         FutureQuote, StaleQuoteEvidence);
    reasons := reasons + more;
    if quote.State() == Crossed { reasons := reasons + {CrossedQuoteEvidence}; }
    if quote.bid <= 0.0 || quote.ask <= 0.0 { reasons := reasons + {NonpositiveQuote}; }
  }

  // Whether no value repeats, as comparing a set's size with its list's does.
  predicate NoRepeats<T(==)>(s: seq<T>) {
    |ToSet(s)| == |s|
  }

  lemma NoRepeatsDistinct<T>(s: seq<T>)
    ensures NoRepeats(s) <==> Distinct(s)
  {
    if NoRepeats(s) {
      FullLengthDistinct(s);
    }
    if Distinct(s) {
      DistinctLength(s);
    }
  }

  method CheckConsistency(positions: seq<OpenPosition>, orders: seq<OutstandingOrder>) returns (ok: bool)
    ensures ok <==> Consistent(positions, orders)
  {
    NoRepeatsDistinct(Map(PositionInstrument(), positions));
    NoRepeatsDistinct(Map(PositionId(), positions));
    NoRepeatsDistinct(Map(OrderInstrument(), orders));
    NoRepeatsDistinct(Map(OrderIdentity(), orders));
    NoRepeatsDistinct(Map(OrderReference(), orders));
    var fits := true;
    for i := 0 to |orders|
      invariant fits <==> forall o :: o in orders[..i] ==> OrderFits(positions, o)
    {
      assert orders[..i + 1] == orders[..i] + [orders[i]];
      fits := fits && OrderFits(positions, orders[i]);
    }
    assert orders[..|orders|] == orders;
    ok := NoRepeats(Map(PositionInstrument(), positions)) && NoRepeats(Map(PositionId(), positions))
          && NoRepeats(Map(OrderInstrument(), orders)) && NoRepeats(Map(OrderIdentity(), orders))
          && NoRepeats(Map(OrderReference(), orders)) && fits;
  }

  const StateAges := {FutureState, StaleState, FutureControls, StaleControls}

  // The age of the state and, apart, of its controls.
  method JudgeStateAge(q: Question) returns (reasons: set<RejectionReason>)
    ensures forall r :: r in reasons <==> r in StateAges && StateWarrants(q, r)
  {
    var state, controls, limit := q.state, q.state.controls, q.policy.maximumStateAge;
    reasons := JudgeAge(state.observed, state.available, q.now, limit, FutureState, StaleState);
    var more := JudgeAge(controls.observed, controls.available, q.now, limit, FutureControls, StaleControls);
    reasons := reasons + more;
  }

  method JudgeState(q: Question) returns (reasons: set<RejectionReason>)
    ensures forall r :: r in reasons <==> StateWarrants(q, r)
  {
    var state := q.state;
    reasons := {};
    if !state.complete { reasons := reasons + {IncompleteInventory}; }
    var aged := JudgeStateAge(q);
    reasons := reasons + aged;
    var ok := CheckConsistency(state.positions, state.orders);
    if !ok { reasons := reasons + {InconsistentState}; }
  }

  lemma FilterNonempty<T(!new)>(p: T -> bool, s: seq<T>)
    ensures Filter(p, s) != [] <==> exists x :: x in s && p(x)
  {
    if Filter(p, s) != [] {
      assert Filter(p, s)[0] in Filter(p, s);
    }
  }

  method JudgeEntry(q: Question) returns (reasons: set<RejectionReason>)
    ensures forall r :: r in reasons <==> EntryWarrants(q, r)
  {
    var outstanding := Filter(OrderOn(q.intent.instrument), q.state.orders);
    FilterNonempty(OrderOn(q.intent.instrument), q.state.orders);
    reasons := {};
    if outstanding != [] { reasons := reasons + {OutstandingOrderExists}; }
    if q.intent.side == Buy {
      var more := JudgePurchase(q);
      reasons := reasons + more;
    }
  }

  method JudgePurchase(q: Question) returns (reasons: set<RejectionReason>)
    requires q.intent.side == Buy
    ensures forall r :: r in reasons <==> r != OutstandingOrderExists && EntryWarrants(q, r)
  {
    var positions := Filter(PositionOn(q.intent.instrument), q.state.positions);
    FilterNonempty(PositionOn(q.intent.instrument), q.state.positions);
    reasons := {};
    if positions != [] { reasons := reasons + {PositionAlreadyOpen}; }
    var entries := |Filter(IsBuy(), q.state.orders)|;
    if |q.state.positions| + entries >= q.policy.maximumPositions {
      reasons := reasons + {MaxConcurrentPositions};
    }
  }

  method JudgeExit(q: Question) returns (reasons: set<RejectionReason>)
    ensures forall r :: r in reasons <==> ExitWarrants(q, r)
  {
    reasons := {};
    var positions := Filter(PositionOn(q.intent.instrument), q.state.positions);
    if q.intent.side == Sell {
      if positions == [] {
        reasons := reasons + {PositionNotOpen};
      } else if |positions| == 1 {
        if q.intent.quantity < positions[0].quantity {
          reasons := reasons + {PartialExit};
        } else if q.intent.quantity > positions[0].quantity {
          reasons := reasons + {Oversell};
        }
      }
    }
  }

  // A decision gives exactly the warranted reasons, and authorizes exactly when there is none.
  method EvaluateRisk(q: Question) returns (d: RiskDecision)
    ensures d == Evaluated(q)
    ensures forall r :: r in d.reasons <==> Warrants(q, r)
    ensures d.status == Authorized <==> forall r :: !Warrants(q, r)
  {
    var policy := JudgePolicy(q);
    var signal := JudgeSignal(q);
    var quote := JudgeQuote(q);
    var state := JudgeState(q);
    var entry := JudgeEntry(q);
    var exit := JudgeExit(q);
    var reasons := policy + signal + quote + state + entry + exit;
    assert forall r :: r in reasons <==> Warrants(q, r);
    assert reasons == Reasons(q);
    d := DecisionOf(q, reasons);
  }
}
