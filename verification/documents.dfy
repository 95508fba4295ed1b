// What a reconciler needs to be told about a lifecycle pass to accept it.
module Documents {
  import opened Collections
  import opened Order
  import opened Domain
  import opened Events
  import opened Execution
  import opened Lifecycle
  import opened Economics
  import opened Runner
  import opened Trace
  import opened Trades
  import opened Soundness

  lemma UniqueOk<K(!new), V(!new)>(key: V -> K, items: seq<V>, duplicate: string)
    requires DistinctKeys(key, items)
    ensures Unique(key, items, duplicate) == Ok(Table(key, items))
    ensures |Table(key, items)| == |items|
    ensures forall x :: x in items ==> key(x) in Table(key, items) && Table(key, items)[key(x)] == x
    ensures forall k :: k in Table(key, items) ==> Table(key, items)[k] in items && key(Table(key, items)[k]) == k
  {
    TableDistinct(key, items);
    TableElements(key, items);
  }

  // Outcomes of a pass are attempts at distinct opportunities.
  lemma {:induction false} OutcomeIdsDistinct(rules: Rules, es: seq<Event>)
    requires UniqueIds(es)
    ensures DistinctKeys(OutcomeAttempt(), Outcomes(Records(rules, es)))
    ensures forall o :: o in Outcomes(Records(rules, es)) ==>
              exists e :: e in es && o.attempt.id.opportunity == e.id
  {
    if es != [] {
      var front, e := Front(es), Last(es);
      assert es == front + [e];
      OutcomeIdsDistinct(rules, front);
      if LastTurn(rules, es).Ok? {
        var s := SlotAfter(rules, front, e.instrument);
        OutcomeTurn(rules, s, e);
        OutcomesSnoc(Records(rules, front), LastTurn(rules, es).value.record);
        NewOutcomeDistinct(front, e, Outcomes(Records(rules, front)), Outcomes(Records(rules, es)));
      } else {
        assert Records(rules, es) == Records(rules, front);
      }
    }
  }

  lemma NewOutcomeDistinct(front: seq<Event>, e: Event, earlier: seq<Outcome>, all: seq<Outcome>)
    requires UniqueIds(front + [e]) && DistinctKeys(OutcomeAttempt(), earlier)
    requires forall o :: o in earlier ==> exists x :: x in front && o.attempt.id.opportunity == x.id
    requires all == earlier || (exists o: Outcome :: o.attempt.id.opportunity == e.id && all == earlier + [o])
    ensures DistinctKeys(OutcomeAttempt(), all)
    ensures forall o :: o in all ==> exists x :: x in front + [e] && o.attempt.id.opportunity == x.id
  {
    forall o | o in earlier
      ensures o.attempt.id.opportunity != e.id
      ensures exists x :: x in front + [e] && o.attempt.id.opportunity == x.id
    {
      var x :| x in front && o.attempt.id.opportunity == x.id;
      var i :| 0 <= i < |front| && front[i] == x;
      assert (front + [e])[i] == x && (front + [e])[|front|] == e;
      assert x in front + [e];
    }
    assert e in front + [e];
    forall i | 0 <= i < |earlier| ensures earlier[i].attempt.id.opportunity != e.id {
      assert earlier[i] in earlier;
    }
  }

  function OutcomeIds(outcomes: seq<Outcome>): set<AttemptId> {
    set o | o in outcomes :: o.attempt.id
  }

  // Economics of the tables are well formed, at their instrument's configuration.
  ghost predicate EconomicsListed(t: Tables) {
    forall id :: id in t.economics ==>
      t.economics[id].Valid() && t.economics[id].outcome.attempt.id == id && ConfiguredAs(t.configs, t.economics[id])
  }

  // The tables document one event of a pass.
  ghost predicate DocumentedAt(t: Tables, rules: Rules, es: seq<Event>, n: nat)
    requires n < |es|
  {
    && LastTurn(rules, es[..n + 1]).Ok?
    && var r := LastTurn(rules, es[..n + 1]).value.record;
    && es[n].id in t.records && t.records[es[n].id] == r
    && (es[n].kind == SignalAvailable ==> es[n].instrument in t.strategies)
    && (r.outcome.Some? ==>
          r.outcome.value.attempt.id in t.outcomes && t.outcomes[r.outcome.value.attempt.id] == r.outcome.value)
  }

  // The result and its tables document a whole pass that did not raise.
  ghost predicate Documented(result: SimulationResult, t: Tables, rules: Rules, es: seq<Event>) {
    && ValidEvents(es) && UniqueIds(es) && Sorted(EventKey(), es) && !Raises(rules, es)
    && rules.config == Some(result.execution) && rules.quotes == result.quotes
    && TablesSound(t) && EconomicsListed(t)
    && (forall n :: 0 <= n < |es| ==> DocumentedAt(t, rules, es, n))
  }
}
