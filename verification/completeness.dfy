// The reconciler accepts every simulated run.
module Completeness {
  import opened Collections
  import opened Order
  import opened Domain
  import opened Events
  import opened Execution
  import opened Lifecycle
  import opened Process
  import opened Economics
  import opened Runner
  import opened Replay
  import opened Run
  import opened Trades
  import opened Soundness
  import opened Documents
  import opened Coverage
  import opened Following
  import opened Endings

  lemma OutcomeKeys(outcomes: seq<Outcome>)
    requires DistinctKeys(OutcomeAttempt(), outcomes)
    ensures AttemptsOf(Table(OutcomeAttempt(), outcomes)).Keys == OutcomeIds(outcomes)
  {
    UniqueOk(OutcomeAttempt(), outcomes, "");
    var table := Table(OutcomeAttempt(), outcomes);
    forall k ensures k in table <==> k in OutcomeIds(outcomes) {
      if k in table {
        assert table[k] in outcomes;
      }
      if k in OutcomeIds(outcomes) {
        var o :| o in outcomes && o.attempt.id == k;
        assert OutcomeAttempt()(o) in table;
      }
    }
  }

  lemma NotFlatStates(rules: Rules, es: seq<Event>, w: Walked)
    requires FollowsStates(rules, es, w)
    ensures Map(i => StateOf(w.states, i), Sort(InstrumentKey(), Seen(es))) == FinalStates(rules, es)
  {
  }

  lemma DocumentedWalks(result: SimulationResult, t: Tables, rules: Rules, es: seq<Event>) returns (w: Walked)
    requires Documented(result, t, rules, es)
    requires result.lifecycle == Pass(rules, es) && result.timeline.ordered == es
    requires t.attempts.Keys == OutcomeIds(Outcomes(Records(rules, es)))
    ensures Walk(result, t, es) == Ok(w) && Follows(t, rules, es, w)
    ensures WalkOrder(result) == es && Trades.Conclude(result, t, w, es) == Ok(Summary(result, w, es))
  {
    SortOfSorted(EventKey(), es);
    WalkFollows(result, t, rules, es, |es|);
    assert es[..|es|] == es;
    w := Walk(result, t, es).value;
    Concludes(result, t, rules, es, w);
  }

  lemma Reconstructs(result: SimulationResult, t: Tables, w: Walked, es: seq<Event>, r: Reconstruction)
    requires Cover(result) == Ok(t) && WalkOrder(result) == es
    requires Walk(result, t, es) == Ok(w) && Trades.Conclude(result, t, w, es) == Ok(r)
    ensures Reconstruct(result) == Ok(r)
  {
  }

  // A pass documented by tables that cover its evidence is accepted.
  lemma DocumentedReconciles(result: SimulationResult, t: Tables, rules: Rules, es: seq<Event>) returns (w: Walked)
    requires Documented(result, t, rules, es) && Cover(result) == Ok(t)
    requires result.lifecycle == Pass(rules, es) && result.timeline.ordered == es
    requires t.attempts.Keys == OutcomeIds(Outcomes(Records(rules, es)))
    ensures Walk(result, t, es) == Ok(w) && Follows(t, rules, es, w)
    ensures WalkOrder(result) == es
    ensures Reconstruct(result) == Ok(Summary(result, w, es))
  {
    w := DocumentedWalks(result, t, rules, es);
    Reconstructs(result, t, w, es, Summary(result, w, es));
  }

  // The reconciler accepts the evidence of any pass with economics, walking exactly that pass,
  // and reports as incomplete exactly the final states that are not flat.
  lemma PassReconciles(result: SimulationResult, rules: Rules, es: seq<Event>) returns (w: Walked)
    requires PassEvidence(result, rules, es) && EconomicEvidence(result)
    ensures Walk(result, TablesOf(result), es) == Ok(w) && Follows(TablesOf(result), rules, es, w)
    ensures Reconstruct(result) == Ok(Summary(result, w, es))
    ensures Reconstruct(result).value.incomplete == Filter(NotFlat(), result.lifecycle.finalStates)
  {
    CoverOk(result, rules, es);
    PassDocumented(result, rules, es);
    OutcomesCovered(result, rules, es);
    OutcomeKeys(result.outcomes);
    w := DocumentedReconciles(result, TablesOf(result), rules, es);
    NotFlatStates(rules, es, w);
  }

  // The reconciler accepts every successful run with economics.
  lemma ReconcilerAcceptsEveryRun(input: SimulationInput)
    requires input.Valid() && Succeeds(input) && input.economics.Some?
    ensures Reconstruct(Account(input)).Ok?
    ensures Reconstruct(Account(input)).value.incomplete
         == Filter(NotFlat(), Account(input).lifecycle.finalStates)
  {
    RunPassEvidence(input);
    RunEconomicEvidence(input);
    var _ := PassReconciles(Account(input), RunRules(input), RunOrder(input));
  }
}
