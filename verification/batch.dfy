// Batches of attempts and slippage scenarios: execution/models.py.
module Batch {
  import opened Collections
  import opened Order
  import opened Domain
  import opened Events
  import opened Execution

  function IdOfAttempt(): Attempt -> AttemptId { (a: Attempt) => a.id }

  // The identifiers listed more than once.
  ghost function Duplicated(attempts: seq<Attempt>): set<AttemptId> {
    set i, j | 0 <= i < j < |attempts| && attempts[i].id == attempts[j].id :: attempts[i].id
  }

  function Occurrences(ids: seq<AttemptId>, id: AttemptId): nat {
    if ids == [] then 0 else Occurrences(Front(ids), id) + if Last(ids) == id then 1 else 0
  }

  lemma {:induction false} OccursOnce(ids: seq<AttemptId>, id: AttemptId)
    ensures Occurrences(ids, id) > 0 <==> id in ids
    ensures Occurrences(ids, id) > 1 <==> exists i, j :: 0 <= i < j < |ids| && ids[i] == id && ids[j] == id
  {
    if ids != [] {
      var front := Front(ids);
      OccursOnce(front, id);
      assert ids == front + [Last(ids)];
      if Last(ids) == id && id in front {
        var i :| 0 <= i < |front| && front[i] == id;
        assert ids[i] == id && ids[|front|] == id;
      }
      if i, j :| 0 <= i < j < |front| && front[i] == id && front[j] == id {
        assert ids[i] == id && ids[j] == id;
      }
      if i, j :| 0 <= i < j < |ids| && ids[i] == id && ids[j] == id {
        assert ids[i] == front[i];
        assert j < |front| ==> front[j] == id;
      }
    }
  }

  function DuplicateOutcome(a: Attempt, config: ExecutionConfig): Outcome {
    Outcome(a, Rejected, DuplicateAttemptId, None, None, config)
  }

  function ResolveOne(a: Attempt, duplicated: set<AttemptId>, quotes: seq<Quote>, config: ExecutionConfig)
    : (r: Result<Outcome>)
    ensures r.Ok? ==> r.value.Valid() && r.value.attempt == a
  {
    if a.id in duplicated then Ok(DuplicateOutcome(a, config)) else Resolve(a, quotes, config)
  }

  function ResolveEach(attempts: seq<Attempt>, duplicated: set<AttemptId>, quotes: seq<Quote>, config: ExecutionConfig)
    : Result<seq<Outcome>>
  {
    if attempts == [] then Ok([])
    else
      var earlier :- ResolveEach(Front(attempts), duplicated, quotes, config);
      var last :- ResolveOne(Last(attempts), duplicated, quotes, config);
      Ok(earlier + [last])
  }

  ghost function BatchOf(attempts: seq<Attempt>, quotes: seq<Quote>, config: ExecutionConfig): Result<seq<Outcome>> {
    ResolveEach(Sort(AttemptKey(), attempts), Duplicated(attempts), quotes, config)
  }

  lemma {:induction false} EachFails(
    attempts: seq<Attempt>, n: nat, duplicated: set<AttemptId>, quotes: seq<Quote>, config: ExecutionConfig)
    requires n <= |attempts| && ResolveEach(attempts[..n], duplicated, quotes, config).Err?
    ensures ResolveEach(attempts, duplicated, quotes, config).Err?
  {
    if n == |attempts| {
      assert attempts[..n] == attempts;
    } else {
      assert Front(attempts)[..n] == attempts[..n];
      EachFails(Front(attempts), n, duplicated, quotes, config);
    }
  }

  method FindDuplicates(attempts: seq<Attempt>) returns (duplicated: set<AttemptId>)
    ensures duplicated == Duplicated(attempts)
  {
    var ids := Map(IdOfAttempt(), attempts);
    duplicated := set id | id in ids && Occurrences(ids, id) > 1;
    forall id ensures id in duplicated <==> id in Duplicated(attempts) {
      OccursOnce(ids, id);
      if id in Duplicated(attempts) {
        var i, j :| 0 <= i < j < |attempts| && attempts[i].id == attempts[j].id && attempts[i].id == id;
        assert ids[i] == id && ids[j] == id;
      }
      if id in duplicated {
        var i, j :| 0 <= i < j < |ids| && ids[i] == id && ids[j] == id;
        assert attempts[i].id == attempts[j].id && attempts[i].id == id;
      }
    }
  }

  lemma EachNext(
    attempts: seq<Attempt>, i: nat, duplicated: set<AttemptId>, quotes: seq<Quote>, config: ExecutionConfig,
    outcomes: seq<Outcome>)
    requires i < |attempts| && ResolveEach(attempts[..i], duplicated, quotes, config) == Ok(outcomes)
    ensures var last := ResolveOne(attempts[i], duplicated, quotes, config);
            var each := ResolveEach(attempts[..i + 1], duplicated, quotes, config);
            if last.Ok? then each == Ok(outcomes + [last.value]) else each.Err?
  {
    assert Front(attempts[..i + 1]) == attempts[..i];
  }

  method ResolveAttempts(attempts: seq<Attempt>, quotes: seq<Quote>, config: ExecutionConfig)
    returns (r: Result<seq<Outcome>>)
    ensures r.Ok? <==> BatchOf(attempts, quotes, config).Ok?
    ensures r.Ok? ==> r == BatchOf(attempts, quotes, config)
  {
    var duplicated := FindDuplicates(attempts);
    var ordered := Sort(AttemptKey(), attempts);
    var outcomes: seq<Outcome> := [];
    for i := 0 to |ordered|
      invariant ResolveEach(ordered[..i], duplicated, quotes, config) == Ok(outcomes)
    {
      EachNext(ordered, i, duplicated, quotes, config, outcomes);
      if ordered[i].id in duplicated {
        outcomes := outcomes + [DuplicateOutcome(ordered[i], config)];
      } else {
        var outcome := Resolve(ordered[i], quotes, config);
        if outcome.Err? {
          EachFails(ordered, i + 1, duplicated, quotes, config);
          return Err(outcome.error);
        }
        outcomes := outcomes + [outcome.value];
      }
    }
    assert ordered[..|ordered|] == ordered;
    r := Ok(outcomes);
  }

  // ----- what a batch keeps -----

  lemma {:induction false} EachOutcome(
    attempts: seq<Attempt>, duplicated: set<AttemptId>, quotes: seq<Quote>, config: ExecutionConfig)
    requires ResolveEach(attempts, duplicated, quotes, config).Ok?
    ensures var outcomes := ResolveEach(attempts, duplicated, quotes, config).value;
            && |outcomes| == |attempts|
            && forall i :: 0 <= i < |attempts| ==> ResolveOne(attempts[i], duplicated, quotes, config) == Ok(outcomes[i])
  {
    if attempts != [] {
      EachOutcome(Front(attempts), duplicated, quotes, config);
    }
  }

  // One outcome for every attempt, in canonical order; an attempt is rejected as a duplicate
  // exactly when another one shares its identifier, and otherwise stands as if resolved alone.
  lemma BatchOutcomes(attempts: seq<Attempt>, quotes: seq<Quote>, config: ExecutionConfig)
    requires BatchOf(attempts, quotes, config).Ok?
    ensures var outcomes, ordered := BatchOf(attempts, quotes, config).value, Sort(AttemptKey(), attempts);
            && |outcomes| == |attempts| == |ordered| && multiset(ordered) == multiset(attempts)
            && (forall i :: 0 <= i < |outcomes| ==>
                  && outcomes[i].attempt == ordered[i]
                  && (if ordered[i].id in Duplicated(attempts)
                      then outcomes[i].status == Rejected && outcomes[i].reason == DuplicateAttemptId
                      else Resolve(ordered[i], quotes, config) == Ok(outcomes[i])))
  {
    var ordered := Sort(AttemptKey(), attempts);
    EachOutcome(ordered, Duplicated(attempts), quotes, config);
    var outcomes := BatchOf(attempts, quotes, config).value;
    forall i | 0 <= i < |outcomes|
      ensures outcomes[i].attempt == ordered[i]
      ensures if ordered[i].id in Duplicated(attempts)
              then outcomes[i].status == Rejected && outcomes[i].reason == DuplicateAttemptId
              else Resolve(ordered[i], quotes, config) == Ok(outcomes[i])
    {
      assert ResolveOne(ordered[i], Duplicated(attempts), quotes, config) == Ok(outcomes[i]);
    }
  }

  ghost predicate IdsApart(attempts: seq<Attempt>) {
    forall i, j :: 0 <= i < j < |attempts| ==> attempts[i].id != attempts[j].id
  }

  // An identifier's key tells where it ends.
  lemma IdKeyPrefix(a: EventId, b: EventId, r: Key, s: Key)
    requires IdKey(a) + r == IdKey(b) + s
    ensures a == b && r == s
  {
    var x, y := IdKey(a) + r, IdKey(b) + s;
    assert x[0] == IdKey(a)[0] && y[0] == IdKey(b)[0];
    assert IdKey(a) == x[..|IdKey(a)|] && IdKey(b) == y[..|IdKey(b)|];
    assert r == x[|IdKey(a)|..] && s == y[|IdKey(b)|..];
    IdKeyInjective(a, b);
  }

  lemma AttemptKeyParts(a: Attempt)
    ensures AttemptKey()(a)[3..] == IdKey(a.id.action.signal) + (IdKey(a.id.opportunity) + AttemptTail(a))
  {
  }

  lemma AttemptKeyFixesId(a: Attempt, b: Attempt)
    requires AttemptKey()(a) == AttemptKey()(b)
    ensures a.id == b.id
  {
    AttemptKeyParts(a);
    AttemptKeyParts(b);
    IdKeyPrefix(a.id.action.signal, b.id.action.signal,
                IdKey(a.id.opportunity) + AttemptTail(a), IdKey(b.id.opportunity) + AttemptTail(b));
    IdKeyPrefix(a.id.opportunity, b.id.opportunity, AttemptTail(a), AttemptTail(b));
  }

  lemma ApartKeys(attempts: seq<Attempt>)
    requires IdsApart(attempts)
    ensures KeysIdentify(AttemptKey(), attempts)
  {
    forall a, b | a in attempts && b in attempts && AttemptKey()(a) == AttemptKey()(b) ensures a == b {
      AttemptKeyFixesId(a, b);
      var i :| 0 <= i < |attempts| && attempts[i] == a;
      var j :| 0 <= j < |attempts| && attempts[j] == b;
      assert i == j;
    }
  }

  lemma DuplicatedPermute(a: seq<Attempt>, b: seq<Attempt>)
    requires multiset(a) == multiset(b) && IdsApart(a)
    ensures Duplicated(a) == {} && Duplicated(b) == {}
  {
    forall i, j | 0 <= i < j < |a| ensures a[i] != a[j] {
    }
    DistinctPermute(a, b);
    forall i, j | 0 <= i < j < |b| ensures b[i].id != b[j].id {
      assert b[i] in multiset(a) && b[j] in multiset(a);
      var k :| 0 <= k < |a| && a[k] == b[i];
      var l :| 0 <= l < |a| && a[l] == b[j];
      assert k != l;
    }
  }

  // A batch without shared identifiers does not depend on the caller's order.
  lemma BatchArrangement(a: seq<Attempt>, b: seq<Attempt>, quotes: seq<Quote>, config: ExecutionConfig)
    requires multiset(a) == multiset(b) && IdsApart(a)
    ensures BatchOf(a, quotes, config) == BatchOf(b, quotes, config)
  {
    ApartKeys(a);
    SortPermutation(AttemptKey(), a, b);
    DuplicatedPermute(a, b);
  }

  // ----- scenarios -----

  function BpsKey(): real -> Key { (bps: real) => [Amount(bps)] }

  function ResolveScenarios(a: Attempt, quotes: seq<Quote>, config: ExecutionConfig, scenarios: seq<real>)
    : Result<seq<Outcome>>
  {
    if scenarios == [] then Ok([])
    else
      var earlier :- ResolveScenarios(a, quotes, config, Front(scenarios));
      var last :- Resolve(a, quotes, config.(slippageBps := Last(scenarios)));
      Ok(earlier + [last])
  }

  // The outcomes of the callers' scenarios, in ascending order of slippage.
  function Sensitivity(a: Attempt, quotes: seq<Quote>, config: ExecutionConfig, scenarios: seq<real>)
    : Result<seq<Outcome>>
  {
    if exists bps :: bps in scenarios && bps < 0.0 then Err("slippage_bps must be nonnegative")
    else ResolveScenarios(a, quotes, config, Sort(BpsKey(), scenarios))
  }

  lemma {:induction false} ScenarioOutcomes(a: Attempt, quotes: seq<Quote>, config: ExecutionConfig, scenarios: seq<real>)
    requires NonnegativeQuotes(quotes) && config.maximumQuoteAge >= 0
    requires forall bps :: bps in scenarios ==> bps >= 0.0
    ensures var r := ResolveScenarios(a, quotes, config, scenarios);
            && r.Ok? && |r.value| == |scenarios|
            && forall i :: 0 <= i < |scenarios| ==>
                 Resolve(a, quotes, config.(slippageBps := scenarios[i])) == Ok(r.value[i])
  {
    if scenarios != [] {
      assert scenarios == Front(scenarios) + [Last(scenarios)];
      assert Last(scenarios) in scenarios;
      forall bps | bps in Front(scenarios) ensures bps >= 0.0 {
        assert bps in scenarios;
      }
      ScenarioOutcomes(a, quotes, config, Front(scenarios));
      var last := config.(slippageBps := Last(scenarios));
      ResolveSlippage(a, quotes, last, last);
    }
  }

  // Over nonnegative quotes every scenario resolves, all alike but in price, and along the
  // scenarios prices never become better for the trader.
  lemma SensitivityAdverse(
    a: Attempt, quotes: seq<Quote>, config: ExecutionConfig, scenarios: seq<real>, i: nat, j: nat)
    requires NonnegativeQuotes(quotes) && config.maximumQuoteAge >= 0
    requires forall bps :: bps in scenarios ==> bps >= 0.0
    requires i < j < |scenarios|
    ensures var r := Sensitivity(a, quotes, config, scenarios);
            && r.Ok? && |r.value| == |scenarios|
            && r.value[i].attempt == a && Dearer(r.value[i], r.value[j])
  {
    var sorted := Sort(BpsKey(), scenarios);
    SortSorted(BpsKey(), scenarios);
    SortElements(BpsKey(), scenarios);
    ScenarioOutcomes(a, quotes, config, sorted);
    assert KeyLe(BpsKey()(sorted[i]), BpsKey()(sorted[j]));
    assert sorted[i] in sorted && sorted[j] in sorted;
    ResolveSlippage(a, quotes, config.(slippageBps := sorted[i]), config.(slippageBps := sorted[j]));
  }

  // Smaller scenarios come first.
  ghost predicate Ascending(scenarios: seq<real>) {
    forall i, j :: 0 <= i < j < |scenarios| ==> scenarios[i] <= scenarios[j]
  }

  lemma {:induction false} ScenariosResolved(a: Attempt, quotes: seq<Quote>, config: ExecutionConfig, scenarios: seq<real>)
    requires ResolveScenarios(a, quotes, config, scenarios).Ok?
    ensures var outcomes := ResolveScenarios(a, quotes, config, scenarios).value;
            && |outcomes| == |scenarios|
            && forall i :: 0 <= i < |scenarios| ==>
                 Resolve(a, quotes, config.(slippageBps := scenarios[i])) == Ok(outcomes[i])
  {
    if scenarios != [] {
      ScenariosResolved(a, quotes, config, Front(scenarios));
    }
  }

  // A sensitivity has one outcome for every scenario given, in ascending order: what resolving the
  // attempt under that slippage gives.
  lemma SensitivityExactly(a: Attempt, quotes: seq<Quote>, config: ExecutionConfig, scenarios: seq<real>)
    returns (sorted: seq<real>)
    requires Sensitivity(a, quotes, config, scenarios).Ok?
    ensures multiset(sorted) == multiset(scenarios) && Ascending(sorted)
    ensures forall bps :: bps in scenarios ==> bps >= 0.0
    ensures var outcomes := Sensitivity(a, quotes, config, scenarios).value;
            && |outcomes| == |sorted|
            && forall i :: 0 <= i < |sorted| ==> Resolve(a, quotes, config.(slippageBps := sorted[i])) == Ok(outcomes[i])
  {
    sorted := Sort(BpsKey(), scenarios);
    SortSorted(BpsKey(), scenarios);
    forall i, j | 0 <= i < j < |sorted| ensures sorted[i] <= sorted[j] {
      assert KeyLe(BpsKey()(sorted[i]), BpsKey()(sorted[j]));
    }
    ScenariosResolved(a, quotes, config, sorted);
  }
}
