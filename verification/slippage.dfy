// Slippage changes prices and nothing else; arrangement of events changes nothing.
module Slippage {
  import opened Collections
  import opened Order
  import opened Domain
  import opened Events
  import opened Execution
  import opened Lifecycle
  import opened Runner
  import opened Replay
  import opened Run

  // Two records that differ at most in the price of their outcome.
  ghost predicate SameButPrice(l: Record, h: Record) {
    && l.(outcome := None) == h.(outcome := None)
    && (l.outcome.Some? <==> h.outcome.Some?)
    && (l.outcome.Some? ==> Dearer(l.outcome.value, h.outcome.value))
  }

  // Rules that differ at most by a larger slippage.
  ghost predicate MoreSlippage(l: Rules, h: Rules) {
    && l.conflicts == h.conflicts && l.quotes == h.quotes && NonnegativeQuotes(l.quotes)
    && l.config.Some? && h.config.Some? && l.config.value.Valid()
    && l.config.value.slippageBps <= h.config.value.slippageBps
    && l.config.value.maximumQuoteAge == h.config.value.maximumQuoteAge
  }

  lemma OutcomeSlippage(current: InstrumentState, e: Event, l: Outcome, h: Outcome)
    requires current.pending.Some? && Dearer(l, h)
    ensures OnOutcome(current, e, l).Ok? <==> OnOutcome(current, e, h).Ok?
    ensures OnOutcome(current, e, l).Ok? ==>
              && OnOutcome(current, e, l).value.next == OnOutcome(current, e, h).value.next
              && SameButPrice(OnOutcome(current, e, l).value.record, OnOutcome(current, e, h).value.record)
  {
  }

  lemma OpportunitySlippage(l: Rules, h: Rules, s: InstrumentState, e: Event, eligible: bool)
    requires MoreSlippage(l, h)
    ensures OnOpportunity(l, s, e, eligible).Ok? <==> OnOpportunity(h, s, e, eligible).Ok?
    ensures OnOpportunity(l, s, e, eligible).Ok? ==>
              && OnOpportunity(l, s, e, eligible).value.next == OnOpportunity(h, s, e, eligible).value.next
              && SameButPrice(OnOpportunity(l, s, e, eligible).value.record, OnOpportunity(h, s, e, eligible).value.record)
  {
    if s.pending.Some? {
      var a := AttemptFor(s.pending.value, e);
      ResolveSlippage(a, l.quotes, l.config.value, h.config.value);
      OutcomeSlippage(s, e, Resolve(a, l.quotes, l.config.value).value, Resolve(a, h.quotes, h.config.value).value);
    }
  }

  lemma NextSlippage(l: Rules, h: Rules, s: InstrumentState, e: Event)
    requires MoreSlippage(l, h)
    ensures Next(l, s, e).Ok? <==> Next(h, s, e).Ok?
    ensures Next(l, s, e).Ok? ==>
              && Next(l, s, e).value.next == Next(h, s, e).value.next
              && SameButPrice(Next(l, s, e).value.record, Next(h, s, e).value.record)
  {
    OpportunitySlippage(l, h, s, e, s.pending.Some? && e.time > s.pending.value.eligibleAfter);
  }

  lemma {:induction false} SlotSlippage(l: Rules, h: Rules, es: seq<Event>, instrument: Instrument)
    requires MoreSlippage(l, h)
    ensures SlotAfter(l, es, instrument) == SlotAfter(h, es, instrument)
  {
    if es != [] {
      SlotSlippage(l, h, Front(es), instrument);
      NextSlippage(l, h, SlotAfter(l, Front(es), instrument), Last(es));
    }
  }

  lemma {:induction false} RecordsSlippage(l: Rules, h: Rules, es: seq<Event>)
    requires MoreSlippage(l, h)
    ensures Raises(l, es) <==> Raises(h, es)
    ensures |Records(l, es)| == |Records(h, es)|
    ensures forall i :: 0 <= i < |Records(l, es)| ==> SameButPrice(Records(l, es)[i], Records(h, es)[i])
  {
    if es != [] {
      RecordsSlippage(l, h, Front(es));
      SlotSlippage(l, h, Front(es), Last(es).instrument);
      NextSlippage(l, h, SlotAfter(l, Front(es), Last(es).instrument), Last(es));
    }
  }

  // Inputs that differ at most by a larger slippage.
  ghost predicate MoreSlippageInput(a: SimulationInput, b: SimulationInput) {
    && b == a.(execution := b.execution)
    && NonnegativeQuotes(a.quotes)
    && a.execution.slippageBps <= b.execution.slippageBps
    && a.execution.maximumQuoteAge == b.execution.maximumQuoteAge
  }

  lemma RulesSlippage(a: SimulationInput, b: SimulationInput, conflicts: set<EventId>)
    requires MoreSlippageInput(a, b) && a.execution.Valid()
    ensures MoreSlippage(Rules(conflicts, Some(a.execution), CanonicalQuotes(a)),
                         Rules(conflicts, Some(b.execution), CanonicalQuotes(b)))
  {
    SortElements(QuoteKey(), a.quotes);
  }

  lemma {:induction false} EvaluationsSlippage(a: SimulationInput, b: SimulationInput, ds: seq<FeatureSnapshot>)
    requires MoreSlippageInput(a, b) && a.execution.Valid() && AllConfigured(a, ds)
    ensures Evaluations(a, ds) == Evaluations(b, ds)
  {
    if ds != [] {
      PrefixConfigured(a, ds, |ds| - 1);
      EvaluationsSlippage(a, b, Front(ds));
      var f := Last(ds);
      var ordered := Sort(EventKey(), PriorEvents(a, SignalEvents(Evaluations(a, Front(ds))), f.available));
      RulesSlippage(a, b, Conflicts(ordered));
      SlotSlippage(RulesFor(ordered, Some(a.execution), CanonicalQuotes(a)),
                   RulesFor(ordered, Some(b.execution), CanonicalQuotes(b)), ordered, f.instrument);
    }
  }

  // Raising slippage leaves every signal, state, attempt and fill status of a run as it was.
  lemma SlippageChangesPricesOnly(a: SimulationInput, b: SimulationInput)
    requires a.Valid() && b.Valid() && MoreSlippageInput(a, b)
    ensures Features(a) == Features(b) && RunEvaluations(a) == RunEvaluations(b) && RunOrder(a) == RunOrder(b)
    ensures Succeeds(a) <==> Succeeds(b)
    ensures Succeeds(a) ==>
              && Account(a).lifecycle.finalStates == Account(b).lifecycle.finalStates
              && Account(a).attempts == Account(b).attempts
              && |RunPass(a).records| == |RunPass(b).records|
              && forall i :: 0 <= i < |RunPass(a).records| ==>
                   SameButPrice(RunPass(a).records[i], RunPass(b).records[i])
  {
    EvaluationsSlippage(a, b, RunDecisions(a));
    RulesSlippage(a, b, {});
    RecordsSlippage(RunRules(a), RunRules(b), RunOrder(a));
    FinalStatesSlippage(RunRules(a), RunRules(b), RunOrder(a));
    AttemptsSlippage(RunPass(a).records, RunPass(b).records);
  }

  lemma FinalStatesSlippage(l: Rules, h: Rules, es: seq<Event>)
    requires MoreSlippage(l, h)
    ensures FinalStates(l, es) == FinalStates(h, es)
  {
    forall i {
      SlotSlippage(l, h, es, i);
    }
  }

  lemma {:induction false} AttemptsSlippage(l: seq<Record>, h: seq<Record>)
    requires |l| == |h| && forall i :: 0 <= i < |l| ==> SameButPrice(l[i], h[i])
    ensures Map(AttemptOf(), Outcomes(l)) == Map(AttemptOf(), Outcomes(h))
  {
    if l != [] {
      assert SameButPrice(l[|l| - 1], h[|l| - 1]);
      AttemptsSlippage(Front(l), Front(h));
    }
  }

  // The lifecycle of a set of events does not depend on their arrangement.
  lemma ArrangementIrrelevant(
    a: seq<Event>, b: seq<Event>, config: Option<ExecutionConfig>, quotes: seq<Quote>)
    requires multiset(a) == multiset(b)
    ensures LifecycleOf(a, config, quotes) == LifecycleOf(b, config, quotes)
  {
    if UniqueIds(a) {
      UniqueIdsPermute(a, b);
      UniqueIdsIdentify(a);
      SortPermutation(EventKey(), a, b);
    } else if UniqueIds(b) {
      UniqueIdsPermute(b, a);
    }
  }
}
