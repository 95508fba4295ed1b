// What resolving an attempt means in the quotes' own numbers: execution/models.py.
module Fills {
  import opened Collections
  import opened Order
  import opened Domain
  import opened Events
  import opened Execution
  import opened Lifecycle
  import opened Trace
  import opened Economics
  import opened Runner
  import opened Replay
  import opened Run

  // A purchase is filled at the ask and a sale at the bid, moved against the trader by the slippage.
  ghost predicate Priced(kind: ActionType, q: Quote, bps: real, price: real) {
    if kind == Entry then
      && (bps == 0.0 ==> price == q.ask)
      && (q.ask >= 0.0 && bps >= 0.0 ==> price == q.ask * (1.0 + bps / 10000.0))
      && price >= q.ask
    else
      && (bps == 0.0 ==> price == q.bid)
      && (q.bid >= 0.0 && bps >= 0.0 ==> price == q.bid * (1.0 - bps / 10000.0))
      && price <= q.bid
  }

  lemma ModelPriced(a: Attempt, q: Quote, bps: real)
    requires ModeledPrice(QuoteSide(q, a.Side()), a.Side(), bps).Ok?
    ensures Priced(a.kind, q, bps, ModeledPrice(QuoteSide(q, a.Side()), a.Side(), bps).value)
  {
    var baseline, fraction := QuoteSide(q, a.Side()), bps / 10000.0;
    if baseline >= 0.0 && bps >= 0.0 {
      assert baseline * fraction >= 0.0;
      assert baseline * (1.0 + fraction) == baseline + baseline * fraction;
      assert baseline * (1.0 - fraction) == baseline - baseline * fraction;
    }
  }

  // The attempt names this model, its own instrument and time, and a time after it became eligible.
  predicate Proper(a: Attempt) {
    && a.model == "shadow.execution.quote_bid_ask.v2" && a.opportunityInstrument == a.instrument
    && a.opportunityTime == a.time && a.time > a.eligibleAfter
  }

  // The first condition an improper attempt breaks.
  function Impropriety(a: Attempt): ExecutionReason {
    if a.model != "shadow.execution.quote_bid_ask.v2" then ModelMismatch
    else if a.opportunityInstrument != a.instrument then InstrumentMismatch
    else if a.opportunityTime != a.time then TimeMismatch
    else NotStrictlyAfterEligibility
  }

  predicate Visible(a: Attempt, q: Quote) { q.instrument == a.instrument && q.available <= a.time }

  // The outcome of an attempt: an improper one is rejected for the first condition it breaks; a
  // proper one is decided by the newest quote it could see alone, rejected if that is crossed,
  // unfilled if that is too old or there is none, and otherwise filled at that quote's price.
  lemma ResolvesExactly(a: Attempt, quotes: seq<Quote>, config: ExecutionConfig)
    requires Resolve(a, quotes, config).Ok?
    ensures var o := Resolve(a, quotes, config).value;
            if !Proper(a) then o.status == Rejected && o.reason == Impropriety(a) && o.evidence.None? && o.price.None?
            else if o.evidence.None? then
              && (forall q :: q in quotes ==> !Visible(a, q))
              && o.status == Unfilled && o.reason == NoLegalQuote && o.price.None?
            else
              var q := o.evidence.value;
              && q in quotes && Visible(a, q)
              && (forall x :: x in quotes && Visible(a, x) ==>
                    x.available < q.available || (x.available == q.available && x.observed <= q.observed))
              && (if q.bid > q.ask then o.status == Rejected && o.reason == CrossedQuote && o.price.None?
                  else if a.time - q.observed > config.maximumQuoteAge then
                    o.status == Unfilled && o.reason == StaleQuote && o.price.None?
                  else
                    && o.status == Filled && o.price.Some? && Priced(a.kind, q, config.slippageBps, o.price.value)
                    && o.reason == if config.slippageBps == 0.0 then FilledAtQuote else FilledWithSlippage)
  {
    if Proper(a) {
      NewestQuoteDecides(a, quotes, config);
      forall q ensures Legal(a.instrument, a.time)(q) <==> Visible(a, q) {
      }
      var o := Resolve(a, quotes, config).value;
      if o.status == Filled {
        ModelPriced(a, o.evidence.value, config.slippageBps);
      }
    }
  }

  // Resolving raises only for slippage on a negative price.
  lemma ResolveRaises(a: Attempt, quotes: seq<Quote>, config: ExecutionConfig)
    requires config.slippageBps >= 0.0
    ensures Resolve(a, quotes, config).Err? ==>
              && Proper(a) && config.slippageBps > 0.0
              && exists q :: q in quotes && Visible(a, q) && q.bid <= q.ask && (if a.kind == Entry then q.ask else q.bid) < 0.0
  {
    if Resolve(a, quotes, config).Err? {
      var legal := Filter(Legal(a.instrument, a.time), quotes);
      SelectedNewest(a, quotes);
    }
  }

  // ----- the fills of a run -----

  // A fill at the newest quote its attempt could see, for a signal of its instrument that was
  // available strictly before.
  ghost predicate FilledFrom(input: SimulationInput, o: Outcome, s: Signal) {
    && o.evidence.Some? && o.price.Some?
    && var a, q := o.attempt, o.evidence.value;
    && q in input.quotes && q.instrument == a.instrument && q.available <= a.time
    && (forall x :: x in input.quotes && x.instrument == a.instrument && x.available <= a.time ==>
          x.available < q.available || (x.available == q.available && x.observed <= q.observed))
    && q.bid <= q.ask && a.time - q.observed <= input.execution.maximumQuoteAge
    && Priced(a.kind, q, input.execution.slippageBps, o.price.value)
    && s.instrument == a.instrument && s.decided == s.available == a.eligibleAfter < a.time
    && (a.kind == Entry <==> s.kind == LongEntry)
    && (exists p :: p in input.opportunities && p.instrument == a.instrument && p.time == a.time)
  }

  lemma CanonicalSame(input: SimulationInput)
    ensures forall q :: q in CanonicalQuotes(input) <==> q in input.quotes
  {
    SortElements(QuoteKey(), input.quotes);
  }

  lemma {:induction false} SignalAmong(evaluations: seq<Evaluation>, e: Event)
    ensures e in SignalEvents(evaluations) ==> exists s :: s in Signals(evaluations) && e == SignalEvent(s)
  {
    if evaluations != [] {
      SignalAmong(Front(evaluations), e);
      if e in SignalEvents(evaluations) && e !in SignalEvents(Front(evaluations)) {
        var s := Last(evaluations).signal.value;
        assert s in Signals(evaluations) && e == SignalEvent(s);
      } else if e in SignalEvents(Front(evaluations)) {
        var s :| s in Signals(Front(evaluations)) && e == SignalEvent(s);
        assert s in Signals(evaluations);
      }
    }
  }

  lemma PendingSignal(rules: Rules, es: seq<Event>, i: nat, o: Outcome) returns (e: Event)
    requires ValidEvents(es) && i < |es|
    requires Attempts(rules, SlotAfter(rules, es[..i], es[i].instrument), es[i], o)
    ensures e in es && e.kind == SignalAvailable && e.signal.Some? && e.instrument == es[i].instrument
    ensures o.attempt.instrument == es[i].instrument && o.attempt.time == es[i].time
    ensures o.attempt.eligibleAfter == e.signal.value.available < o.attempt.time
    ensures o.attempt.kind == Entry <==> e.signal.value.kind == LongEntry
    ensures es[i].kind == ExecutionOpportunity
  {
    var s := SlotAfter(rules, es[..i], es[i].instrument);
    SlotGrounded(rules, es[..i], es[i].instrument);
    e :| e in es[..i] && e.kind == SignalAvailable && e.signal.Some? && e.instrument == s.instrument
         && e.time == s.pending.value.created && s.pending.value == ActionFor(e, s.pending.value.origin);
    assert e in es;
  }

  lemma OpportunityOf(input: SimulationInput, e: Event)
    requires e in OpportunityEvents(input)
    ensures exists p :: p in input.opportunities && p.instrument == e.instrument && p.time == e.time
  {
    var k :| 0 <= k < |OpportunityEvents(input)| && OpportunityEvents(input)[k] == e;
    assert input.opportunities[k] in input.opportunities;
  }

  lemma AttemptResolved(rules: Rules, s: InstrumentState, e: Event, o: Outcome)
    requires Attempts(rules, s, e, o) && s.pending.value.instrument == e.instrument
    ensures Resolve(o.attempt, rules.quotes, rules.config.value) == Ok(o) && Proper(o.attempt)
  {
  }

  lemma SameVisible(a: Attempt, listed: seq<Quote>, quotes: seq<Quote>, config: ExecutionConfig, o: Outcome)
    requires (forall q :: q in listed <==> q in quotes) && Proper(a) && Resolve(a, listed, config) == Ok(o)
    requires o.status == Filled
    ensures o.evidence.Some? && o.price.Some?
    ensures var q := o.evidence.value;
            && q in quotes && Visible(a, q) && q.bid <= q.ask && a.time - q.observed <= config.maximumQuoteAge
            && (forall x :: x in quotes && Visible(a, x) ==>
                  x.available < q.available || (x.available == q.available && x.observed <= q.observed))
            && Priced(a.kind, q, config.slippageBps, o.price.value)
  {
    ResolvesExactly(a, listed, config);
  }

  // The event of an outcome, and the signal it acts on.
  lemma OutcomeOrigin(input: SimulationInput, o: Outcome) returns (s: Signal, e: Event)
    requires input.Valid() && Succeeds(input) && o in RunPass(input).outcomes
    ensures s in Signals(RunEvaluations(input)) && e in OpportunityEvents(input)
    ensures s.instrument == o.attempt.instrument == e.instrument && o.attempt.time == e.time
    ensures s.available == o.attempt.eligibleAfter < o.attempt.time
    ensures o.attempt.kind == Entry <==> s.kind == LongEntry
    ensures Resolve(o.attempt, CanonicalQuotes(input), input.execution) == Ok(o) && Proper(o.attempt)
  {
    var rules, es := RunRules(input), RunOrder(input);
    RunOrderFacts(input);
    var i := OutcomeEvent(rules, es, o);
    var x := PendingSignal(rules, es, i, o);
    SlotGrounded(rules, es[..i], es[i].instrument);
    AttemptResolved(rules, SlotAfter(rules, es[..i], es[i].instrument), es[i], o);
    RunEventKinds(input, x);
    RunEventKinds(input, es[i]);
    SignalAmong(RunEvaluations(input), x);
    s :| s in Signals(RunEvaluations(input)) && x == SignalEvent(s);
    e := es[i];
  }

  lemma DecidedThen(config: MeanReversionConfig, f: FeatureSnapshot, state: LifecycleState)
    requires Decide(config, f, state).signal.Some?
    ensures Decide(config, f, state).signal.value.decided == Decide(config, f, state).signal.value.available
  {
  }

  lemma EvaluationDecided(input: SimulationInput, ds: seq<FeatureSnapshot>, k: nat)
    requires AllConfigured(input, ds) && k < |ds| && Evaluations(input, ds)[k].signal.Some?
    ensures Evaluations(input, ds)[k].signal.value.decided == Evaluations(input, ds)[k].signal.value.available
  {
    EvaluationAt(input, ds, k);
    DecidedThen(ConfigFor(input.configs, ds[k].instrument), ds[k],
                StateBefore(input, SignalEvents(Evaluations(input, ds)[..k]), ds[k].available, ds[k].instrument));
  }

  lemma DecidedWhenAvailable(input: SimulationInput, s: Signal)
    requires Accepted(input) && s in Signals(RunEvaluations(input))
    ensures s.decided == s.available
  {
    var k := SignalAt(RunEvaluations(input), s);
    EvaluationDecided(input, RunDecisions(input), k);
  }

  lemma {:induction false} SignalAt(evaluations: seq<Evaluation>, s: Signal) returns (k: nat)
    requires s in Signals(evaluations)
    ensures k < |evaluations| && evaluations[k].signal == Some(s)
  {
    if s in Signals(Front(evaluations)) {
      k := SignalAt(Front(evaluations), s);
    } else {
      k := |evaluations| - 1;
    }
  }

  // Every fill of a successful run.
  lemma RunFills(input: SimulationInput, o: Outcome) returns (s: Signal)
    requires input.Valid() && Succeeds(input) && o in Account(input).outcomes && o.status == Filled
    ensures s in Account(input).signals && FilledFrom(input, o, s)
  {
    var e;
    s, e := OutcomeOrigin(input, o);
    CanonicalSame(input);
    SameVisible(o.attempt, CanonicalQuotes(input), input.quotes, input.execution, o);
    DecidedWhenAvailable(input, s);
    OpportunityOf(input, e);
  }

  // The economics of a fill: fees are the configured share of quantity times price, and a purchase
  // costs cash where a sale brings it.
  lemma FillEconomics(x: EconomicExecution)
    requires x.Valid()
    ensures x.outcome.price.Some?
    ensures var amount := x.outcome.price.value * x.config.quantity;
            var gross := if amount < 0.0 then -amount else amount;
            && x.grossNotional == gross && x.fee == gross * (x.config.feeBps / 10000.0) && x.fee >= 0.0
            && x.CashFlow() == (if x.outcome.attempt.kind == Entry then -amount else amount) - x.fee
  {
    var amount := x.outcome.price.value * x.config.quantity;
    var gross := if amount < 0.0 then -amount else amount;
    assert gross * (x.config.feeBps / 10000.0) >= 0.0;
  }
}
