// The evidence of a simulated run covers itself exactly, and documents its pass.
module Coverage {
  import opened Collections
  import opened Order
  import opened Domain
  import opened Events
  import opened Execution
  import opened Lifecycle
  import opened Economics
  import opened Runner
  import opened Replay
  import opened Trace
  import opened Causality
  import opened Run
  import opened Trades
  import opened Soundness
  import opened Documents

  lemma {:induction false} RecordEvents(rules: Rules, es: seq<Event>)
    requires !Raises(rules, es)
    ensures Map(RecordEvent(), Records(rules, es)) == Map(IdOf(), es)
  {
    if es != [] {
      RecordEvents(rules, Front(es));
      TurnTime(rules, SlotAfter(rules, Front(es), Last(es).instrument), Last(es));
      assert es == Front(es) + [Last(es)];
      assert Map(IdOf(), es) == Map(IdOf(), Front(es)) + [Last(es).id];
    }
  }

  // ----- the evidence of one pass -----

  // A result accounts for one lifecycle pass that did not raise.
  ghost predicate PassEvidence(result: SimulationResult, rules: Rules, es: seq<Event>) {
    && ValidEvents(es) && UniqueIds(es) && Sorted(EventKey(), es) && !Raises(rules, es)
    && rules.config == Some(result.execution) && rules.quotes == result.quotes
    && result.timeline.ordered == es && result.lifecycle == Pass(rules, es)
    && result.attempts == result.lifecycle.attempts && result.outcomes == result.lifecycle.outcomes
    && (forall e :: e in es && e.kind == SignalAvailable ==> Configured(result.configs, e.instrument))
  }

  // Its economics are those its configurations attach to its outcomes.
  ghost predicate EconomicEvidence(result: SimulationResult) {
    && result.economics.Some? && ValidEconomics(result.economics.value, result.configs)
    && DistinctKeys(StrategyInstrument(), result.configs)
    && Attachable(result.outcomes, result.economics.value)
    && result.economicExecutions == AttachAll(result.outcomes, result.economics.value)
  }

  // The tables of such a result.
  ghost function TablesOf(result: SimulationResult): Tables
    requires result.economics.Some?
  {
    var outcomes := Table(OutcomeAttempt(), result.outcomes);
    Tables(
      Table(EconomicsInstrument(), result.economics.value), Table(StrategyInstrument(), result.configs),
      Table(IdOf(), result.timeline.ordered), Table(RecordEvent(), result.lifecycle.records),
      AttemptsOf(outcomes), outcomes, Table(EconomicAttempt(), result.economicExecutions))
  }

  // ----- covering -----

  lemma EventsCovered(result: SimulationResult, rules: Rules, es: seq<Event>)
    requires PassEvidence(result, rules, es)
    ensures CoverEvents(result) == Ok((Table(IdOf(), es), Table(RecordEvent(), Records(rules, es))))
    ensures DistinctKeys(RecordEvent(), Records(rules, es))
    ensures forall e :: e in es ==> e.id in Table(RecordEvent(), Records(rules, es))
  {
    var rs := Records(rules, es);
    RecordEvents(rules, es);
    RecordsDistinct(es, rs);
    UniqueOk(IdOf(), es, "duplicate events");
    UniqueOk(IdOf(), es, "duplicate lifecycle events");
    UniqueOk(RecordEvent(), rs, "duplicate lifecycle records");
    SameKeys(es, rs, Table(IdOf(), es), Table(RecordEvent(), rs));
  }

  lemma RecordsDistinct(es: seq<Event>, rs: seq<Record>)
    requires UniqueIds(es) && Map(RecordEvent(), rs) == Map(IdOf(), es)
    ensures DistinctKeys(IdOf(), es) && DistinctKeys(RecordEvent(), rs)
  {
    forall i, j | 0 <= i < j < |rs| ensures rs[i].event != rs[j].event {
      assert Map(RecordEvent(), rs)[i] == es[i].id && Map(RecordEvent(), rs)[j] == es[j].id;
    }
  }

  lemma SameKeys(es: seq<Event>, rs: seq<Record>, events: map<EventId, Event>, records: map<EventId, Record>)
    requires Map(RecordEvent(), rs) == Map(IdOf(), es)
    requires forall e :: e in es ==> e.id in events
    requires forall k :: k in events ==> events[k] in es && events[k].id == k
    requires forall r :: r in rs ==> r.event in records
    requires forall k :: k in records ==> records[k] in rs && records[k].event == k
    ensures records.Keys == events.Keys
    ensures forall e :: e in es ==> e.id in records
  {
    forall e | e in es ensures e.id in records {
      var i :| 0 <= i < |es| && es[i] == e;
      assert Map(IdOf(), es)[i] == Map(RecordEvent(), rs)[i];
      assert rs[i] in rs;
    }
    forall k | k in records ensures k in events {
      var i :| 0 <= i < |rs| && rs[i] == records[k];
      assert Map(IdOf(), es)[i] == Map(RecordEvent(), rs)[i];
      assert es[i] in es;
    }
  }

  lemma AttemptKeysDistinct(outcomes: seq<Outcome>)
    requires DistinctKeys(OutcomeAttempt(), outcomes)
    ensures DistinctKeys(AttemptIdOf(), Map(AttemptOf(), outcomes))
  {
    forall i, j | 0 <= i < j < |outcomes| ensures outcomes[i].attempt.id != outcomes[j].attempt.id {
      assert OutcomeAttempt()(outcomes[i]) != OutcomeAttempt()(outcomes[j]);
    }
  }

  lemma {:induction false} AttemptTable(outcomes: seq<Outcome>)
    ensures Table(AttemptIdOf(), Map(AttemptOf(), outcomes)) == AttemptsOf(Table(OutcomeAttempt(), outcomes))
  {
    if outcomes != [] {
      AttemptTable(Front(outcomes));
      assert Front(Map(AttemptOf(), outcomes)) == Map(AttemptOf(), Front(outcomes));
    }
  }

  lemma OutcomesCovered(result: SimulationResult, rules: Rules, es: seq<Event>)
    requires PassEvidence(result, rules, es)
    ensures DistinctKeys(OutcomeAttempt(), result.outcomes)
    ensures var outcomes := Table(OutcomeAttempt(), result.outcomes);
            CoverOutcomes(result) == Ok((AttemptsOf(outcomes), outcomes))
  {
    OutcomeIdsDistinct(rules, es);
    var outcomes := result.outcomes;
    AttemptKeysDistinct(outcomes);
    AttemptTable(outcomes);
    UniqueOk(OutcomeAttempt(), outcomes, "duplicate outcomes");
    UniqueOk(OutcomeAttempt(), outcomes, "duplicate lifecycle outcomes");
    UniqueOk(AttemptIdOf(), Map(AttemptOf(), outcomes), "duplicate attempts");
    UniqueOk(AttemptIdOf(), Map(AttemptOf(), outcomes), "duplicate lifecycle attempts");
  }

  // ----- economics -----

  // Economics are attached to exactly the filled outcomes, at their own configuration.
  ghost predicate AttachedTo(outcomes: seq<Outcome>, configs: seq<EconomicsConfig>, economics: seq<EconomicExecution>) {
    && (forall e :: e in economics ==>
          && e.Valid() && e.outcome in outcomes
          && EconomicsCovers(configs, e.outcome.attempt.instrument)
          && e.config == EconomicsFor(configs, e.outcome.attempt.instrument))
    && (forall o :: o in outcomes && o.status == Filled ==> exists e :: e in economics && e.outcome == o)
  }

  lemma {:induction false} AttachAllFacts(outcomes: seq<Outcome>, configs: seq<EconomicsConfig>)
    requires Attachable(outcomes, configs) && forall c :: c in configs ==> c.Valid()
    requires DistinctKeys(OutcomeAttempt(), outcomes)
    ensures AttachedTo(outcomes, configs, AttachAll(outcomes, configs))
    ensures DistinctKeys(EconomicAttempt(), AttachAll(outcomes, configs))
  {
    if outcomes != [] {
      var front, o := Front(outcomes), Last(outcomes);
      assert outcomes == front + [o];
      assert DistinctKeys(OutcomeAttempt(), front) by {
        forall i, j | 0 <= i < j < |front| ensures front[i].attempt.id != front[j].attempt.id {
          assert OutcomeAttempt()(outcomes[i]) != OutcomeAttempt()(outcomes[j]);
        }
      }
      AttachAllFacts(front, configs);
      var earlier := AttachAll(front, configs);
      forall i | 0 <= i < |earlier| ensures earlier[i].outcome.attempt.id != o.attempt.id {
        assert earlier[i] in earlier;
        var k :| 0 <= k < |front| && front[k] == earlier[i].outcome;
        assert OutcomeAttempt()(outcomes[k]) != OutcomeAttempt()(outcomes[|front|]);
      }
      AttachOne(front, o, configs, earlier);
    }
  }

  lemma AttachOne(front: seq<Outcome>, o: Outcome, configs: seq<EconomicsConfig>, earlier: seq<EconomicExecution>)
    requires Attachable(front + [o], configs) && forall c :: c in configs ==> c.Valid()
    requires AttachedTo(front, configs, earlier) && o.Valid() && EconomicsCovers(configs, o.attempt.instrument)
    ensures var attached := Attach(o, EconomicsFor(configs, o.attempt.instrument));
            AttachedTo(front + [o], configs,
                       earlier + if attached.Ok? && attached.value.Some? then [attached.value.value] else [])
  {
    var attached := Attach(o, EconomicsFor(configs, o.attempt.instrument));
    var all := earlier + if attached.Ok? && attached.value.Some? then [attached.value.value] else [];
    forall e | e in earlier ensures e in all && e.outcome in front + [o] {
    }
    if attached.value.Some? {
      assert attached.value.value in all;
    }
    forall x | x in front + [o] && x.status == Filled ensures exists e :: e in all && e.outcome == x {
      if x in front {
        var e :| e in earlier && e.outcome == x;
        assert e in all;
      }
    }
  }

  lemma EconomicsCovered(result: SimulationResult)
    requires EconomicEvidence(result) && DistinctKeys(OutcomeAttempt(), result.outcomes)
    ensures CoverEconomics(result, TablesOf(result).configs, TablesOf(result).outcomes) == Ok(TablesOf(result).economics)
    ensures EconomicsListed(TablesOf(result))
  {
    var all, given, t := result.outcomes, result.economics.value, TablesOf(result);
    AttachAllFacts(all, given);
    UniqueOk(OutcomeAttempt(), all, "");
    UniqueOk(EconomicAttempt(), result.economicExecutions, "duplicate economic executions");
    EconomicsKeyed(given);
    UniqueOk(EconomicsInstrument(), given, "");
    FilledMatch(all, given, result.economicExecutions);
    forall k | k in t.economics
      ensures ConfiguredAs(t.configs, t.economics[k])
      ensures t.economics[k].Valid() && t.economics[k].outcome.attempt.id == k
    {
      assert t.economics[k].config in given;
    }
  }

  lemma EconomicsKeyed(configs: seq<EconomicsConfig>)
    requires forall i, j :: 0 <= i < j < |configs| ==> configs[i].instrument != configs[j].instrument
    ensures DistinctKeys(EconomicsInstrument(), configs)
  {
  }

  lemma FilledMatch(outcomes: seq<Outcome>, configs: seq<EconomicsConfig>, economics: seq<EconomicExecution>)
    requires DistinctKeys(OutcomeAttempt(), outcomes) && DistinctKeys(EconomicAttempt(), economics)
    requires AttachedTo(outcomes, configs, economics)
    ensures FilledOnly(Table(OutcomeAttempt(), outcomes)) == OutcomesOf(Table(EconomicAttempt(), economics))
  {
    UniqueOk(OutcomeAttempt(), outcomes, "");
    UniqueOk(EconomicAttempt(), economics, "");
    var x, y := Table(OutcomeAttempt(), outcomes), Table(EconomicAttempt(), economics);
    forall k | k in x && x[k].status == Filled ensures k in y && y[k].outcome == x[k] {
      var e :| e in economics && e.outcome == x[k];
      assert EconomicAttempt()(e) == k;
    }
    forall k | k in y ensures k in x && x[k].status == Filled && x[k] == y[k].outcome {
      assert y[k].outcome in outcomes && OutcomeAttempt()(y[k].outcome) == k;
    }
    assert FilledOnly(x).Keys == OutcomesOf(y).Keys;
  }

  // Strategies and economics name the same instruments.
  lemma SameInstruments(strategies: seq<MeanReversionConfig>, economics: seq<EconomicsConfig>)
    requires ValidEconomics(economics, strategies) && DistinctKeys(StrategyInstrument(), strategies)
    ensures DistinctKeys(EconomicsInstrument(), economics)
    ensures Table(EconomicsInstrument(), economics).Keys == Table(StrategyInstrument(), strategies).Keys
    ensures forall i :: Configured(strategies, i) ==> i in Table(StrategyInstrument(), strategies)
  {
    EconomicsKeyed(economics);
    UniqueOk(EconomicsInstrument(), economics, "");
    UniqueOk(StrategyInstrument(), strategies, "");
    var x, y := Table(EconomicsInstrument(), economics), Table(StrategyInstrument(), strategies);
    forall i | Configured(strategies, i) ensures i in y {
      var c :| c in strategies && c.instrument == i;
      assert StrategyInstrument()(c) == i;
    }
    forall k | k in x ensures k in y {
      assert Configured(strategies, x[k].instrument);
    }
    forall k | k in y ensures k in x {
      assert EconomicsCovers(economics, y[k].instrument);
      var c :| c in economics && c.instrument == k;
      assert EconomicsInstrument()(c) == k;
    }
  }

  lemma CoverOk(result: SimulationResult, rules: Rules, es: seq<Event>)
    requires PassEvidence(result, rules, es) && EconomicEvidence(result)
    ensures Cover(result) == Ok(TablesOf(result))
  {
    SameInstruments(result.configs, result.economics.value);
    UniqueOk(EconomicsInstrument(), result.economics.value, "duplicate economics configs");
    UniqueOk(StrategyInstrument(), result.configs, "duplicate strategy configs");
    EventsCovered(result, rules, es);
    OutcomesCovered(result, rules, es);
    EconomicsCovered(result);
  }

  // ----- the tables document the pass -----

  // The record table finds each event's own record.
  lemma RecordLookup(rules: Rules, es: seq<Event>, records: map<EventId, Record>, n: nat)
    requires !Raises(rules, es) && n < |es| && DistinctKeys(RecordEvent(), Records(rules, es))
    requires records == Table(RecordEvent(), Records(rules, es))
    ensures LastTurn(rules, es[..n + 1]).Ok?
    ensures es[n].id in records && records[es[n].id] == LastTurn(rules, es[..n + 1]).value.record
  {
    var rs := Records(rules, es);
    UniqueOk(RecordEvent(), rs, "");
    RecordAt(rules, es, n);
    RecordEvents(rules, es);
    assert Map(RecordEvent(), rs)[n] == Map(IdOf(), es)[n];
    assert rs[n] in rs;
  }

  lemma StepOutcome(rules: Rules, es: seq<Event>, n: nat)
    requires !Raises(rules, es) && n < |es|
    ensures LastTurn(rules, es[..n + 1]).Ok?
    ensures LastTurn(rules, es[..n + 1]).value.record.outcome.Some? ==>
              LastTurn(rules, es[..n + 1]).value.record.outcome.value in Outcomes(Records(rules, es))
  {
    RecordAt(rules, es, n);
    OutcomeListed(Records(rules, es), n);
  }

  lemma OutcomeListed(records: seq<Record>, n: nat)
    requires n < |records|
    ensures records[n].outcome.Some? ==> records[n].outcome.value in Outcomes(records)
  {
    if records[n].outcome.Some? {
      OutcomeIn(records, records[n].outcome.value);
    }
  }

  lemma PassDocumentedAt(result: SimulationResult, rules: Rules, es: seq<Event>, n: nat)
    requires PassEvidence(result, rules, es) && EconomicEvidence(result) && n < |es|
    ensures DocumentedAt(TablesOf(result), rules, es, n)
  {
    EventsCovered(result, rules, es);
    OutcomesCovered(result, rules, es);
    RecordLookup(rules, es, TablesOf(result).records, n);
    StepOutcome(rules, es, n);
    UniqueOk(OutcomeAttempt(), result.outcomes, "");
    var r := LastTurn(rules, es[..n + 1]).value.record;
    assert r.outcome.Some? ==> OutcomeAttempt()(r.outcome.value) == r.outcome.value.attempt.id;
    SameInstruments(result.configs, result.economics.value);
    assert es[n] in es;
  }

  // The tables of a pass's evidence document it.
  lemma PassDocumented(result: SimulationResult, rules: Rules, es: seq<Event>)
    requires PassEvidence(result, rules, es) && EconomicEvidence(result)
    ensures Documented(result, TablesOf(result), rules, es)
  {
    CoverOk(result, rules, es);
    CoverSound(result, TablesOf(result));
    OutcomesCovered(result, rules, es);
    EconomicsCovered(result);
    forall n: nat | n < |es| ensures DocumentedAt(TablesOf(result), rules, es, n) {
      PassDocumentedAt(result, rules, es, n);
    }
  }

  // ----- simulated runs -----

  lemma StrategiesKeyed(input: SimulationInput)
    requires input.Valid()
    ensures DistinctKeys(StrategyInstrument(), Sort(ConfigKey(), input.configs))
    ensures forall c :: c in Sort(ConfigKey(), input.configs) <==> c in input.configs
  {
    var sorted := Sort(ConfigKey(), input.configs);
    SortElements(ConfigKey(), input.configs);
    assert Distinct(input.configs);
    DistinctPermute(input.configs, sorted);
    forall i, j | 0 <= i < j < |sorted| ensures sorted[i].instrument != sorted[j].instrument {
      assert sorted[i] in input.configs && sorted[j] in input.configs && sorted[i] != sorted[j];
    }
  }

  lemma SortedConfigured(input: SimulationInput, instrument: Instrument)
    requires input.Valid() && Configured(input.configs, instrument)
    ensures Configured(Sort(ConfigKey(), input.configs), instrument)
  {
    StrategiesKeyed(input);
    var c :| c in input.configs && c.instrument == instrument;
    assert c in Sort(ConfigKey(), input.configs);
  }

  // Every successful run accounts for its one pass.
  lemma RunPassEvidence(input: SimulationInput)
    requires input.Valid() && Succeeds(input)
    ensures PassEvidence(Account(input), RunRules(input), RunOrder(input))
  {
    RunOrderFacts(input);
    forall e | e in RunOrder(input) && e.kind == SignalAvailable
      ensures Configured(Account(input).configs, e.instrument)
    {
      SignalConfigured(input, e);
      SortedConfigured(input, e.instrument);
    }
  }

  lemma RunEconomicEvidence(input: SimulationInput)
    requires input.Valid() && Succeeds(input) && input.economics.Some?
    ensures EconomicEvidence(Account(input))
  {
    StrategiesKeyed(input);
    OutcomesAttachable(input);
    SortedEconomics(input);
  }

  lemma SortedEconomics(input: SimulationInput)
    requires input.Valid() && input.economics.Some?
    ensures ValidEconomics(input.economics.value, Sort(ConfigKey(), input.configs))
  {
    StrategiesKeyed(input);
    forall c | c in input.economics.value ensures Configured(Sort(ConfigKey(), input.configs), c.instrument) {
      SortedConfigured(input, c.instrument);
    }
  }
}
