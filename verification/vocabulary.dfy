// The closed vocabulary of the journal: its enumerations, its records, and what their constructors
// check, sort and keep: execution/journal_codec.py, domain/market.py, features/models.py,
// strategies/models.py, risk/models.py and execution/broker.py.
module Vocabulary {
  import opened Collections
  import opened Order
  import opened Journal

  datatype Kind =
    | Bar | BarInterval | BrokerAccount | BrokerAsset | BrokerClock | BrokerError | BrokerFill | BrokerOrder
    | BrokerPosition | BrokerSnapshot | CanaryConfig | Evidence | FeatureSnapshot | Instrument | OpenLongPosition
    | OperationalQuantityConfig | OperatorControls | OrderIntent | OutstandingOrder | Provenance | Quote
    | RiskDecision | RiskPolicy | RiskState | Signal | SubmissionResult | SubmitRequest | TradeUpdate

  function NameOf(kind: Kind): string {
    match kind
    case Bar => "Bar"
    case BarInterval => "BarInterval"
    case BrokerAccount => "BrokerAccount"
    case BrokerAsset => "BrokerAsset"
    case BrokerClock => "BrokerClock"
    case BrokerError => "BrokerError"
    case BrokerFill => "BrokerFill"
    case BrokerOrder => "BrokerOrder"
    case BrokerPosition => "BrokerPosition"
    case BrokerSnapshot => "BrokerSnapshot"
    case CanaryConfig => "CanaryConfig"
    case Evidence => "Evidence"
    case FeatureSnapshot => "FeatureSnapshot"
    case Instrument => "Instrument"
    case OpenLongPosition => "OpenLongPosition"
    case OperationalQuantityConfig => "OperationalQuantityConfig"
    case OperatorControls => "OperatorControls"
    case OrderIntent => "OrderIntent"
    case OutstandingOrder => "OutstandingOrder"
    case Provenance => "Provenance"
    case Quote => "Quote"
    case RiskDecision => "RiskDecision"
    case RiskPolicy => "RiskPolicy"
    case RiskState => "RiskState"
    case Signal => "Signal"
    case SubmissionResult => "SubmissionResult"
    case SubmitRequest => "SubmitRequest"
    case TradeUpdate => "TradeUpdate"
  }

  const KINDS := [
    Bar, BarInterval, BrokerAccount, BrokerAsset, BrokerClock, BrokerError, BrokerFill, BrokerOrder, BrokerPosition,
    BrokerSnapshot, CanaryConfig, Evidence, FeatureSnapshot, Instrument, OpenLongPosition, OperationalQuantityConfig,
    OperatorControls, OrderIntent, OutstandingOrder, Provenance, Quote, RiskDecision, RiskPolicy, RiskState, Signal,
    SubmissionResult, SubmitRequest, TradeUpdate]

  // The record of that name, if there is one.
  function KindAmong(kinds: seq<Kind>, name: string): (r: Option<Kind>)
    ensures r.Some? ==> r.value in kinds && NameOf(r.value) == name
    ensures r.None? ==> forall k :: k in kinds ==> NameOf(k) != name
  {
    if kinds == [] then None
    else if NameOf(kinds[0]) == name then Some(kinds[0])
    else KindAmong(kinds[1..], name)
  }

  // The fields of each record that its constructor takes, in order.
  function FieldsOf(kind: Kind): seq<string> {
    match kind
    case Bar =>
      ["instrument", "interval", "observation_time", "availability_time", "availability_semantics", "open", "high",
       "low", "close", "volume", "provenance"]
    case BarInterval => ["duration"]
    case BrokerAccount => ["evidence", "target", "eligibility", "buying_power", "currency"]
    case BrokerAsset => ["evidence", "instrument", "us_equity", "tradable"]
    case BrokerClock => ["evidence", "state", "trading_date", "session_open", "session_close"]
    case BrokerError => ["evidence", "category", "reason"]
    case BrokerFill => ["evidence", "execution_id", "order_id", "instrument", "side", "quantity", "price"]
    case BrokerOrder =>
      ["evidence", "order_id", "client_id", "instrument", "side", "quantity", "filled_quantity", "status",
       "order_type", "time_in_force", "extended_hours", "replaces", "replaced_by"]
    case BrokerPosition => ["evidence", "instrument", "quantity"]
    case BrokerSnapshot =>
      ["evidence", "positions", "orders", "positions_complete", "orders_complete", "history_start", "history_end"]
    case CanaryConfig =>
      ["configuration_id", "account_id", "operational_scope", "enabled", "provider", "target", "instrument",
       "quantity", "order_type", "time_in_force", "regular_hours_only", "maximum_concurrent_positions",
       "maximum_outstanding_orders", "daily_submission_limit", "maximum_entry_notional", "buying_power_buffer",
       "currency", "maximum_signal_age", "maximum_feature_age", "maximum_quote_age", "maximum_broker_evidence_age",
       "maximum_control_age", "maximum_clock_skew", "dispatch_deadline", "close_guard", "run_duration"]
    case Evidence => ["reference", "account_id", "operational_scope", "observation_time", "availability_time"]
    case FeatureSnapshot =>
      ["instrument", "feature_name", "input_value", "implementation_version", "value", "observation_time",
       "availability_time", "window", "state", "unavailable_reason", "source_dataset_id"]
    case Instrument => ["identifier"]
    case OpenLongPosition => ["instrument", "quantity", "position_id"]
    case OperationalQuantityConfig => ["instrument", "configuration_id", "quantity"]
    case OperatorControls => ["trading_enabled", "kill_switch_active", "observation_time", "availability_time"]
    case OrderIntent =>
      ["operational_scope", "source_signal", "instrument", "side", "quantity", "intent_time",
       "quantity_configuration_id", "target", "order_type", "time_in_force"]
    case OutstandingOrder => ["instrument", "intent_identity", "side", "quantity", "reference"]
    case Provenance => ["source", "source_timezone", "session"]
    case Quote =>
      ["instrument", "bid_price", "ask_price", "bid_size", "ask_size", "observation_time", "availability_time",
       "availability_semantics", "provenance"]
    case RiskDecision =>
      ["intent", "status", "reasons", "policy_id", "policy_fingerprint", "risk_state_id", "risk_state_revision",
       "risk_state_fingerprint", "feature_reference", "quote_reference", "decision_time",
       "prior_decision_reference", "risk_model_version"]
    case RiskPolicy =>
      ["policy_id", "enabled", "allowed_instruments", "maximum_quantity_per_order", "maximum_concurrent_positions",
       "maximum_signal_age", "maximum_feature_age", "maximum_quote_age", "maximum_operational_state_age",
       "risk_model_version"]
    case RiskState =>
      ["operational_scope", "state_id", "revision", "inventory_complete", "open_positions", "outstanding_orders",
       "observation_time", "availability_time", "controls"]
    case Signal =>
      ["instrument", "strategy_id", "strategy_version", "signal_type", "decision_time", "availability_time",
       "feature_name", "feature_input", "feature_implementation_version", "feature_window",
       "feature_observation_time", "feature_availability_time", "observed_feature_value", "configuration_id",
       "entry_threshold", "exit_threshold", "maximum_feature_age", "reason", "source_dataset_id"]
    case SubmissionResult => ["evidence", "request", "status", "order", "error"]
    case SubmitRequest =>
      ["account_id", "operational_scope", "client_id", "instrument", "side", "quantity", "target", "order_type",
       "time_in_force", "extended_hours"]
    case TradeUpdate => ["evidence", "event_id", "kind", "order", "fill", "affected_execution_id"]
  }

  const SEMANTICS := "AvailabilitySemantics"
  const ELIGIBILITY := "Eligibility"
  const CATEGORY := "ErrorCategory"
  const INPUT := "FeatureInput"
  const FEATURE := "FeatureName"
  const FEATURE_STATE := "FeatureState"
  const UNAVAILABLE := "FeatureUnavailableReason"
  const SIDE := "OrderSide"
  const ORDER_STATUS := "OrderStatus"
  const TARGET := "OrderTarget"
  const ORDER_TYPE := "OrderType"
  const DECISION_STATUS := "RiskDecisionStatus"
  const REJECTION := "RiskRejectionReason"
  const SESSION := "SessionState"
  const SIGNAL_REASON := "SignalReason"
  const SIGNAL_TYPE := "SignalType"
  const SUBMISSION := "SubmissionStatus"
  const TIME_IN_FORCE := "TimeInForce"
  const UPDATE := "UpdateKind"

  // The enumerations and their members.
  function Enumerations(): map<string, set<string>> {
    map[
      SEMANTICS := {"provider_published", "system_received", "modeled"},
      ELIGIBILITY := {"eligible", "ineligible", "unknown"},
      CATEGORY := {"unavailable", "malformed", "not_found", "access_denied", "rate_limited", "conflict", "unknown",
                   "definitive_rejection"},
      INPUT := {"close"},
      FEATURE := {"simple_return", "rolling_mean", "rolling_variance", "rolling_standard_deviation", "z_score"},
      FEATURE_STATE := {"warming_up", "ready", "unavailable"},
      UNAVAILABLE := {"insufficient_history", "zero_variance"},
      SIDE := {"buy", "sell"},
      ORDER_STATUS := {"accepted", "new", "pending_new", "partially_filled", "filled", "rejected", "canceled",
                       "expired", "pending_cancel", "pending_replace", "replaced", "done_for_day", "suspended",
                       "stopped", "unknown"},
      TARGET := {"paper"},
      ORDER_TYPE := {"market"},
      DECISION_STATUS := {"authorized", "rejected"},
      REJECTION := {"policy_disabled", "trading_disabled", "kill_switch_active", "unsupported_instrument",
                    "invalid_quantity", "max_quantity_exceeded", "intent_signal_mismatch", "lineage_mismatch",
                    "future_signal", "stale_signal", "future_feature", "stale_feature",
                    "quote_instrument_mismatch", "future_quote", "stale_quote", "crossed_quote",
                    "nonpositive_quote", "incomplete_inventory", "future_operational_state",
                    "stale_operational_state", "future_controls", "stale_controls",
                    "inconsistent_operational_state", "position_already_open", "outstanding_order_exists",
                    "max_concurrent_positions", "position_not_open", "partial_exit", "oversell",
                    "duplicate_intent", "intent_identity_conflict"},
      SESSION := {"regular", "closed", "unknown"},
      SIGNAL_REASON := {"entry_threshold", "exit_threshold"},
      SIGNAL_TYPE := {"long_entry", "exit"},
      SUBMISSION := {"accepted", "rejected", "uncertain"},
      TIME_IN_FORCE := {"day"},
      UPDATE := {"status", "fill", "cancel_rejected", "replace_rejected", "trade_correction", "trade_bust",
                 "unknown"}]
  }

  // ----- what a constructor sees of its arguments -----

  // A value as comparisons see it: a decimal is the number it stands for.
  datatype Sight =
    | Absent
    | Flag(flag: bool)
    | Words(text: string)
    | Count(count: int)
    | Number(number: real)
    | Moment(time: int)
    | Day(day: int)
    | Span(span: int)
    | Row(items: seq<Sight>)
    | Choice(name: string, member: string)
    | Thing(name: string, parts: seq<Sight>)
    | Unseen

  function See(v: Value): Sight {
    match v
    case VNull => Absent
    case VBool(flag) => Flag(flag)
    case VText(text) => Words(text)
    case VInt(number) => Count(number)
    case VDecimal(d) => Number(d.Value())
    case VTime(time) => Moment(time)
    case VDate(day) => Day(day)
    case VSpan(span) => Span(span)
    case VTuple(items) => Row(seq(|items|, i requires 0 <= i < |items| => See(items[i])))
    case VEnum(name, member) => Choice(name, member)
    case VRecord(name, fields) => Thing(name, seq(|fields|, i requires 0 <= i < |fields| => See(fields[i].value)))
    case Foreign => Unseen
  }

  function SeeEach(given: seq<Field>): (p: seq<Sight>)
    ensures |p| == |given| && forall i :: 0 <= i < |given| ==> p[i] == See(given[i].value)
  {
    seq(|given|, i requires 0 <= i < |given| => See(given[i].value))
  }

  function PartAt(s: Sight, i: nat): Sight {
    if s.Thing? && i < |s.parts| then s.parts[i] else Absent
  }

  predicate Is(kind: Kind, s: Sight) { s.Thing? && s.name == NameOf(kind) }

  predicate OneOf(enumeration: string, s: Sight) { s.Choice? && s.name == enumeration }

  // Members of text enumerations are texts.
  predicate IsText(s: Sight) { s.Words? || s.Choice? }

  function Worded(s: Sight): string {
    if s.Words? then s.text else if s.Choice? then s.member else ""
  }

  predicate NamedText(s: Sight) { IsText(s) && Worded(s) != "" && Trimmed(Worded(s)) }

  predicate SameText(a: Sight, b: Sight) { IsText(a) && IsText(b) && Worded(a) == Worded(b) }

  predicate NamedOrAbsent(s: Sight) { s.Absent? || NamedText(s) }

  predicate Positive(s: Sight) { s.Number? && s.number > 0.0 }

  predicate NotNegative(s: Sight) { s.Number? && s.number >= 0.0 }

  predicate NotNegativeOrAbsent(s: Sight) { s.Absent? || NotNegative(s) }

  predicate PositiveWhole(s: Sight) { Positive(s) && s.number == s.number.Floor as real }

  predicate PositiveCount(s: Sight) { s.Count? && s.count > 0 }

  predicate PositiveSpan(s: Sight) { s.Span? && s.span > 0 }

  predicate SpanNotNegative(s: Sight) { s.Span? && s.span >= 0 }

  predicate InTimeOrder(earlier: Sight, later: Sight) { earlier.Moment? && later.Moment? && earlier.time <= later.time }

  // As many different elements as elements.
  predicate Unrepeated<T(==)>(items: seq<T>) { |ToSet(items)| == |items| }

  // What iterating gives: the items of a tuple; the empty text has none.
  predicate Iterable(s: Sight) { s.Row? || s == Words("") }

  function ItemsOf(s: Sight): seq<Sight> { if s.Row? then s.items else [] }

  predicate AllAre(kind: Kind, items: seq<Sight>) { forall s :: s in items ==> Is(kind, s) }

  function IdentifierOf(instrument: Sight): string { Worded(PartAt(instrument, 0)) }

  predicate SameInstrument(a: Sight, b: Sight) { IdentifierOf(a) == IdentifierOf(b) }

  // ----- parts of broker records -----

  function EvidenceOf(record: Sight): Sight { PartAt(record, 0) }
  function AccountOf(evidence: Sight): Sight { PartAt(evidence, 1) }
  function ScopeOf(evidence: Sight): Sight { PartAt(evidence, 2) }
  function ObservedOf(evidence: Sight): Sight { PartAt(evidence, 3) }
  function AvailableOf(evidence: Sight): Sight { PartAt(evidence, 4) }
  function OrderIdOf(order: Sight): Sight { PartAt(order, 1) }
  function ClientOf(order: Sight): Sight { PartAt(order, 2) }
  function OrderInstrument(order: Sight): Sight { PartAt(order, 3) }
  function OrderSideOf(order: Sight): Sight { PartAt(order, 4) }
  function OrderQuantity(order: Sight): Sight { PartAt(order, 5) }
  function FilledQuantity(order: Sight): Sight { PartAt(order, 6) }
  function StatusOf(order: Sight): Sight { PartAt(order, 7) }

  // The child's evidence is of the parent's account and scope, and was available by then.
  predicate Bound(parent: Sight, child: Sight) {
    && SameText(AccountOf(parent), AccountOf(child)) && SameText(ScopeOf(parent), ScopeOf(child))
    && InTimeOrder(AvailableOf(child), AvailableOf(parent))
  }

  // ----- market data and features -----

  predicate BarChecks(p: seq<Sight>)
    requires |p| == 11
  {
    && Is(Instrument, p[0]) && Is(BarInterval, p[1]) && InTimeOrder(p[2], p[3]) && OneOf(SEMANTICS, p[4])
    && p[5].Number? && p[6].Number? && p[7].Number? && p[8].Number? && NotNegativeOrAbsent(p[9])
    && Is(Provenance, p[10])
    && var open, high, low, close := p[5].number, p[6].number, p[7].number, p[8].number;
    && high >= open && high >= close && low <= open && low <= close && high >= low
  }

  predicate QuoteChecks(p: seq<Sight>)
    requires |p| == 9
  {
    && Is(Instrument, p[0]) && p[1].Number? && p[2].Number?
    && NotNegativeOrAbsent(p[3]) && NotNegativeOrAbsent(p[4])
    && InTimeOrder(p[5], p[6]) && OneOf(SEMANTICS, p[7]) && Is(Provenance, p[8])
  }

  // A ready snapshot has a value and no reason; another has the reason of its state.
  predicate FeatureChecks(p: seq<Sight>)
    requires |p| == 11
  {
    && Is(Instrument, p[0]) && OneOf(FEATURE, p[1]) && OneOf(INPUT, p[2]) && NamedText(p[3])
    && InTimeOrder(p[5], p[6]) && PositiveCount(p[7]) && OneOf(FEATURE_STATE, p[8]) && NamedText(p[10])
    && (if p[8].member == "ready" then p[4].Number? && p[9].Absent?
        else if p[8].member == "warming_up" then p[4].Absent? && p[9] == Choice(UNAVAILABLE, "insufficient_history")
        else p[4].Absent? && p[9] == Choice(UNAVAILABLE, "zero_variance"))
  }

  predicate SignalChecks(p: seq<Sight>)
    requires |p| == 19
  {
    && Is(Instrument, p[0]) && NamedText(p[1]) && NamedText(p[2]) && OneOf(SIGNAL_TYPE, p[3])
    && p[4].Moment? && p[5] == p[4] && OneOf(FEATURE, p[6]) && OneOf(INPUT, p[7]) && NamedText(p[8])
    && PositiveCount(p[9]) && p[10].Moment? && InTimeOrder(p[11], p[4]) && p[12].Number? && NamedText(p[13])
    && p[14].Number? && p[15].Number? && p[14].number < p[15].number && SpanNotNegative(p[16])
    && OneOf(SIGNAL_REASON, p[17]) && NamedText(p[18])
  }

  // ----- risk -----

  predicate IntentChecks(p: seq<Sight>)
    requires |p| == 10
  {
    && NamedText(p[0]) && Is(Signal, p[1]) && Is(Instrument, p[2]) && OneOf(SIDE, p[3]) && p[4].Number?
    && p[5].Moment? && NamedText(p[6])
    && p[7] == Choice(TARGET, "paper") && p[8] == Choice(ORDER_TYPE, "market") && p[9] == Choice(TIME_IN_FORCE, "day")
  }

  predicate PolicyChecks(p: seq<Sight>)
    requires |p| == 10
  {
    && NamedText(p[0]) && p[1].Flag?
    && Iterable(p[2]) && AllAre(Instrument, ItemsOf(p[2])) && Unrepeated(Map(Lens(Identifier), ItemsOf(p[2])))
    && PositiveWhole(p[3]) && PositiveCount(p[4])
    && SpanNotNegative(p[5]) && SpanNotNegative(p[6]) && SpanNotNegative(p[7]) && SpanNotNegative(p[8])
    && SameText(p[9], Words("shadow.risk.paper.v2"))
  }

  predicate StateChecks(p: seq<Sight>)
    requires |p| == 9
  {
    && NamedText(p[0]) && NamedText(p[1]) && p[2].Count? && p[2].count >= 0 && p[3].Flag?
    && Iterable(p[4]) && AllAre(OpenLongPosition, ItemsOf(p[4]))
    && Iterable(p[5]) && AllAre(OutstandingOrder, ItemsOf(p[5]))
    && InTimeOrder(p[6], p[7]) && Is(OperatorControls, p[8])
  }

  // An authorization has no reason for rejection, a rejection has one.
  predicate DecisionChecks(p: seq<Sight>)
    requires |p| == 13
  {
    && Is(OrderIntent, p[0]) && OneOf(DECISION_STATUS, p[1])
    && Iterable(p[2]) && (forall s :: s in ItemsOf(p[2]) ==> OneOf(REJECTION, s))
    && (p[1].member == "authorized" ==> ItemsOf(p[2]) == [])
    && (p[1].member == "rejected" ==> ItemsOf(p[2]) != [])
    && NamedText(p[3]) && NamedText(p[4]) && NamedText(p[5]) && NamedText(p[7]) && NamedText(p[8]) && NamedText(p[9])
    && p[10].Moment? && NamedOrAbsent(p[11]) && NamedText(p[12])
  }

  // ----- broker evidence -----

  predicate AccountChecks(p: seq<Sight>)
    requires |p| == 5
  {
    && Is(Evidence, p[0]) && p[1] == Choice(TARGET, "paper") && OneOf(ELIGIBILITY, p[2]) && NotNegativeOrAbsent(p[3])
    && NamedText(p[4]) && (p[2].member == "eligible" ==> p[3].Number?)
  }

  predicate ClockChecks(p: seq<Sight>)
    requires |p| == 5
  {
    && Is(Evidence, p[0]) && OneOf(SESSION, p[1]) && p[2].Day? && (p[3].Absent? <==> p[4].Absent?)
    && (if p[3].Absent? then p[1].member != "regular"
        else
          && p[3].Moment? && p[4].Moment? && p[3].time < p[4].time && ObservedOf(p[0]).Moment?
          && (p[1].member == "unknown"
              || (p[3].time <= ObservedOf(p[0]).time < p[4].time <==> p[1].member == "regular")))
  }

  // What an order's status says of how much of it is filled.
  predicate FilledAsStatus(status: string, filled: real, quantity: real) {
    && filled <= quantity
    && (status == "filled" ==> filled == quantity)
    && (status == "partially_filled" ==> 0.0 < filled < quantity)
    && (status in {"accepted", "new", "pending_new", "rejected"} ==> filled == 0.0)
  }

  predicate OrderChecks(p: seq<Sight>)
    requires |p| == 13
  {
    && Is(Evidence, p[0]) && NamedText(p[1]) && NamedOrAbsent(p[2]) && NamedOrAbsent(p[11]) && NamedOrAbsent(p[12])
    && !SameText(p[1], p[11]) && !SameText(p[1], p[12]) && !SameText(p[11], p[12])
    && Is(Instrument, p[3]) && OneOf(SIDE, p[4]) && OneOf(ORDER_STATUS, p[7])
    && (p[8].Absent? || OneOf(ORDER_TYPE, p[8])) && (p[9].Absent? || OneOf(TIME_IN_FORCE, p[9]))
    && (p[10].Absent? || p[10].Flag?)
    && Positive(p[5]) && NotNegative(p[6]) && FilledAsStatus(p[7].member, p[6].number, p[5].number)
  }

  predicate FillChecks(p: seq<Sight>)
    requires |p| == 7
  {
    && Is(Evidence, p[0]) && NamedText(p[1]) && NamedText(p[2]) && Is(Instrument, p[3]) && OneOf(SIDE, p[4])
    && Positive(p[5]) && Positive(p[6])
  }

  // A fill must be of the order it is reported with.
  predicate FillOfOrder(evidence: Sight, fill: Sight, order: Sight) {
    && Is(BrokerFill, fill) && Bound(evidence, EvidenceOf(fill))
    && SameText(PartAt(fill, 2), OrderIdOf(order)) && SameInstrument(PartAt(fill, 3), OrderInstrument(order))
    && PartAt(fill, 4) == OrderSideOf(order)
  }

  predicate UpdateChecks(p: seq<Sight>)
    requires |p| == 6
  {
    && Is(Evidence, p[0]) && NamedText(p[1]) && OneOf(UPDATE, p[2]) && Is(BrokerOrder, p[3])
    && Bound(p[0], EvidenceOf(p[3])) && NamedOrAbsent(p[5])
    && (p[2].member in {"trade_bust", "trade_correction"} ==> !p[5].Absent?)
    && (p[2].member == "fill" ==> !p[4].Absent?)
    && (!p[4].Absent? ==> FillOfOrder(p[0], p[4], p[3]))
    && (p[2].member == "fill" ==>
          && PartAt(p[4], 5).Number? && FilledQuantity(p[3]).Number?
          && PartAt(p[4], 5).number <= FilledQuantity(p[3]).number)
  }

  predicate RowsChecks(kind: Kind, parent: Sight, rows: Sight) {
    rows.Row? && AllAre(kind, rows.items) && forall s :: s in rows.items ==> Bound(parent, EvidenceOf(s))
  }

  // No instrument is held twice.
  predicate Holdings(parent: Sight, rows: Sight) {
    RowsChecks(BrokerPosition, parent, rows) && Unrepeated(Map(Lens(Held), rows.items))
  }

  // No order, and no client of those that have one, is listed twice.
  predicate Listings(parent: Sight, rows: Sight) {
    && RowsChecks(BrokerOrder, parent, rows) && Unrepeated(Map(Lens(OrderId), rows.items))
    && Unrepeated(Map(Lens(Client), Filter(HasClient(), rows.items)))
  }

  predicate SnapshotChecks(p: seq<Sight>)
    requires |p| == 7
  {
    && Is(Evidence, p[0]) && p[3].Flag? && p[4].Flag?
    && Holdings(p[0], p[1]) && Listings(p[0], p[2])
    && InTimeOrder(p[5], p[6]) && InTimeOrder(p[6], ObservedOf(p[0]))
  }

  function HasClient(): Sight -> bool { (order: Sight) => !ClientOf(order).Absent? }

  predicate RequestChecks(p: seq<Sight>)
    requires |p| == 10
  {
    && NamedText(p[0]) && NamedText(p[1]) && NamedText(p[2]) && Is(Instrument, p[3]) && OneOf(SIDE, p[4])
    && p[5] == Number(1.0) && p[6] == Choice(TARGET, "paper") && p[7] == Choice(ORDER_TYPE, "market")
    && p[8] == Choice(TIME_IN_FORCE, "day") && p[9] == Flag(false)
  }

  // An accepted order is the one requested.
  predicate OrderAsRequested(order: Sight, request: Sight) {
    && SameText(ClientOf(order), PartAt(request, 2)) && SameInstrument(OrderInstrument(order), PartAt(request, 3))
    && OrderSideOf(order) == PartAt(request, 4) && OrderQuantity(order) == PartAt(request, 5)
    && PartAt(order, 8) == PartAt(request, 7) && PartAt(order, 9) == PartAt(request, 8)
    && PartAt(order, 10) == PartAt(request, 9)
  }

  predicate SubmissionChecks(p: seq<Sight>)
    requires |p| == 5
  {
    && Is(Evidence, p[0]) && Is(SubmitRequest, p[1]) && OneOf(SUBMISSION, p[2])
    && SameText(AccountOf(p[0]), PartAt(p[1], 0)) && SameText(ScopeOf(p[0]), PartAt(p[1], 1))
    && (if p[2].member == "accepted" then
          && Is(BrokerOrder, p[3]) && p[4].Absent? && Bound(p[0], EvidenceOf(p[3])) && OrderAsRequested(p[3], p[1])
          && Worded(StatusOf(p[3])) !in {"unknown", "rejected"}
        else
          && p[3].Absent? && Is(BrokerError, p[4]) && Bound(p[0], EvidenceOf(p[4]))
          && (Worded(PartAt(p[4], 1)) == "definitive_rejection" <==> p[2].member == "rejected"))
  }

  predicate CanaryChecks(p: seq<Sight>)
    requires |p| == 26
  {
    && NamedText(p[0]) && NamedText(p[1]) && NamedText(p[2]) && p[3].Flag? && SameText(p[4], Words("alpaca"))
    && p[5] == Choice(TARGET, "paper") && Is(Instrument, p[6]) && p[7] == Number(1.0)
    && p[8] == Choice(ORDER_TYPE, "market") && p[9] == Choice(TIME_IN_FORCE, "day") && p[10] == Flag(true)
    && p[11] == Count(1) && p[12] == Count(1) && PositiveCount(p[13]) && Positive(p[14]) && Positive(p[15])
    && NamedText(p[16]) && CanaryTimes(p[17], p[18], p[19], p[20], p[21], p[22], p[23], p[24], p[25])
  }

  // The deadline is within every age limit and the run, and the close guard exceeds it by more than the skew.
  predicate CanaryTimes(
    signal: Sight, feature: Sight, quote: Sight, broker: Sight, control: Sight, skew: Sight, deadline: Sight,
    guard: Sight, run: Sight)
  {
    && PositiveSpan(signal) && PositiveSpan(feature) && PositiveSpan(quote) && PositiveSpan(broker)
    && PositiveSpan(control) && SpanNotNegative(skew) && PositiveSpan(deadline) && PositiveSpan(guard)
    && PositiveSpan(run)
    && deadline.span <= signal.span && deadline.span <= feature.span && deadline.span <= quote.span
    && deadline.span <= broker.span && deadline.span <= control.span && deadline.span <= run.span
    && guard.span > deadline.span && guard.span - deadline.span > skew.span
  }

  // Whether a record can be constructed from what is given.
  predicate Checks(kind: Kind, p: seq<Sight>) {
    match kind
    case Bar => |p| == 11 && BarChecks(p)
    case BarInterval => |p| == 1 && PositiveSpan(p[0])
    case BrokerAccount => |p| == 5 && AccountChecks(p)
    case BrokerAsset =>
      |p| == 4 && Is(Evidence, p[0]) && Is(Instrument, p[1]) && OneOf(ELIGIBILITY, p[2]) && OneOf(ELIGIBILITY, p[3])
    case BrokerClock => |p| == 5 && ClockChecks(p)
    case BrokerError => |p| == 3 && Is(Evidence, p[0]) && OneOf(CATEGORY, p[1]) && NamedText(p[2])
    case BrokerFill => |p| == 7 && FillChecks(p)
    case BrokerOrder => |p| == 13 && OrderChecks(p)
    case BrokerPosition => |p| == 3 && Is(Evidence, p[0]) && Is(Instrument, p[1]) && Positive(p[2])
    case BrokerSnapshot => |p| == 7 && SnapshotChecks(p)
    case CanaryConfig => |p| == 26 && CanaryChecks(p)
    case Evidence => |p| == 5 && NamedText(p[0]) && NamedText(p[1]) && NamedText(p[2]) && InTimeOrder(p[3], p[4])
    case FeatureSnapshot => |p| == 11 && FeatureChecks(p)
    case Instrument => |p| == 1 && NamedText(p[0])
    case OpenLongPosition => |p| == 3 && Is(Instrument, p[0]) && PositiveWhole(p[1]) && NamedText(p[2])
    case OperationalQuantityConfig => |p| == 3 && Is(Instrument, p[0]) && NamedText(p[1]) && p[2].Number?
    case OperatorControls => |p| == 4 && p[0].Flag? && p[1].Flag? && InTimeOrder(p[2], p[3])
    case OrderIntent => |p| == 10 && IntentChecks(p)
    case OutstandingOrder =>
      |p| == 5 && Is(Instrument, p[0]) && NamedText(p[1]) && OneOf(SIDE, p[2]) && PositiveWhole(p[3]) && NamedText(p[4])
    case Provenance => |p| == 3 && NamedText(p[0])
    case Quote => |p| == 9 && QuoteChecks(p)
    case RiskDecision => |p| == 13 && DecisionChecks(p)
    case RiskPolicy => |p| == 10 && PolicyChecks(p)
    case RiskState => |p| == 9 && StateChecks(p)
    case Signal => |p| == 19 && SignalChecks(p)
    case SubmissionResult => |p| == 5 && SubmissionChecks(p)
    case SubmitRequest => |p| == 10 && RequestChecks(p)
    case TradeUpdate => |p| == 6 && UpdateChecks(p)
  }

  // ----- what a constructor rearranges -----

  // What the items of a list are told apart by.
  datatype Aspect = Identifier | Held | OrderId | Client

  function Lens(aspect: Aspect): Sight -> string {
    match aspect
    case Identifier => (s: Sight) => IdentifierOf(s)
    case Held => (s: Sight) => IdentifierOf(PartAt(s, 1))
    case OrderId => (s: Sight) => Worded(OrderIdOf(s))
    case Client => (s: Sight) => Worded(ClientOf(s))
  }

  // What the items of a list are sorted by.
  datatype Arrangement = ByIdentifier | ByPosition | ByIntent | ByMember | ByHeld | ByOrderId

  function KeyBy(how: Arrangement, s: Sight): Key {
    match how
    case ByIdentifier => [Text(IdentifierOf(s))]
    case ByPosition => [Text(IdentifierOf(PartAt(s, 0))), Text(Worded(PartAt(s, 2)))]
    case ByIntent => [Text(IdentifierOf(PartAt(s, 0))), Text(Worded(PartAt(s, 1))), Text(Worded(PartAt(s, 4)))]
    case ByMember => [Text(Worded(s))]
    case ByHeld => [Text(IdentifierOf(PartAt(s, 1)))]
    case ByOrderId => [Text(Worded(OrderIdOf(s)))]
  }

  function Sorter(how: Arrangement): Value -> Key {
    (v: Value) => KeyBy(how, See(v))
  }

  // How a constructor arranges a field, if it does.
  function ArrangedBy(kind: Kind, i: nat): Option<Arrangement> {
    match kind
    case RiskPolicy => if i == 2 then Some(ByIdentifier) else None
    case RiskState => if i == 4 then Some(ByPosition) else if i == 5 then Some(ByIntent) else None
    case RiskDecision => if i == 2 then Some(ByMember) else None
    case BrokerSnapshot => if i == 1 then Some(ByHeld) else if i == 2 then Some(ByOrderId) else None
    case _ => None
  }

  // Each value once.
  function Once(items: seq<Value>): (r: seq<Value>)
    ensures forall v :: v in r <==> v in items
  {
    if items == [] then []
    else
      assert items == Front(items) + [Last(items)];
      if Last(items) in Front(items) then Once(Front(items)) else Once(Front(items)) + [Last(items)]
  }

  function Items(v: Value): seq<Value> { if v.VTuple? then v.items else [] }

  function Arranged(how: Arrangement, v: Value): Value {
    VTuple(Sort(Sorter(how), if how == ByMember then Once(Items(v)) else Items(v)))
  }

  function Tidy(kind: Kind, i: nat, v: Value): Value {
    if ArrangedBy(kind, i).Some? then Arranged(ArrangedBy(kind, i).value, v) else v
  }

  function Settled(kind: Kind, given: seq<Field>): (r: seq<Field>)
    ensures |r| == |given|
    ensures forall i :: 0 <= i < |given| ==> r[i] == Field(given[i].name, Tidy(kind, i, given[i].value))
  {
    seq(|given|, i requires 0 <= i < |given| => Field(given[i].name, Tidy(kind, i, given[i].value)))
  }

  function Construct(name: string, given: seq<Field>): Option<seq<Field>> {
    var kind := KindAmong(KINDS, name);
    if kind.None? || !Checks(kind.value, SeeEach(given)) then None
    else Some(Settled(kind.value, given))
  }
}
