// What one lifecycle pass leaves as evidence.
module Trace {
  import opened Collections
  import opened Order
  import opened Domain
  import opened Events
  import opened Execution
  import opened Lifecycle

  // The attempt an event made on a pending action, if it made one.
  ghost predicate Attempts(rules: Rules, s: InstrumentState, e: Event, o: Outcome) {
    && s.pending.Some? && rules.config.Some?
    && e.kind == ExecutionOpportunity && e.time > s.pending.value.eligibleAfter
    && Resolve(AttemptFor(s.pending.value, e), rules.quotes, rules.config.value) == Ok(o)
  }

  // A record carries an outcome exactly when its event attempted the pending action.
  lemma OutcomeTurn(rules: Rules, s: InstrumentState, e: Event)
    requires Next(rules, s, e).Ok?
    ensures var r := Next(rules, s, e).value.record;
            && (r.attempt.Some? <==> r.outcome.Some?)
            && (r.outcome.Some? ==>
                  && Attempts(rules, s, e, r.outcome.value)
                  && r.attempt == Some(r.outcome.value.attempt)
                  && r.attempt == Some(AttemptFor(s.pending.value, e))
                  && r.action == s.pending
                  && r.outcome.value.Valid() && r.outcome.value.config == rules.config.value)
            && (r.outcome.None? ==> r.decision !in {ActionFilled, AttemptUnfilled, AttemptRejected})
  {
  }

  lemma {:induction false} OutcomeIn(records: seq<Record>, o: Outcome)
    ensures o in Outcomes(records) <==> exists i :: 0 <= i < |records| && records[i].outcome == Some(o)
  {
    if records != [] {
      OutcomeIn(Front(records), o);
      assert records == Front(records) + [Last(records)];
      if o in Outcomes(records) && o !in Outcomes(Front(records)) {
        assert records[|records| - 1].outcome == Some(o);
      }
    }
  }

  lemma OutcomesSnoc(records: seq<Record>, r: Record)
    ensures Outcomes(records + [r]) == Outcomes(records) + if r.outcome.Some? then [r.outcome.value] else []
  {
    assert Front(records + [r]) == records;
  }

  // Each outcome of a pass is the outcome of one attempt at one event.
  lemma OutcomeEvent(rules: Rules, es: seq<Event>, o: Outcome) returns (i: nat)
    requires !Raises(rules, es) && o in Outcomes(Records(rules, es))
    ensures i < |es| && Attempts(rules, SlotAfter(rules, es[..i], es[i].instrument), es[i], o)
    ensures o.Valid()
  {
    OutcomeIn(Records(rules, es), o);
    RecordsLength(rules, es);
    i :| 0 <= i < |es| && Records(rules, es)[i].outcome == Some(o);
    RecordAt(rules, es, i);
    assert Front(es[..i + 1]) == es[..i];
    OutcomeTurn(rules, SlotAfter(rules, es[..i], es[i].instrument), es[i]);
  }

  // Each outcome goes back to a signal of its instrument.
  lemma OutcomeSignal(rules: Rules, es: seq<Event>, o: Outcome) returns (e: Event)
    requires ValidEvents(es) && !Raises(rules, es) && o in Outcomes(Records(rules, es))
    ensures e in es && e.kind == SignalAvailable && e.instrument == o.attempt.instrument
  {
    var i := OutcomeEvent(rules, es, o);
    assert forall x :: x in es[..i] ==> x in es;
    SlotGrounded(rules, es[..i], es[i].instrument);
    e :| e in es[..i] && e.kind == SignalAvailable && e.instrument == es[i].instrument;
  }

  // Leaving out events that move nothing cannot make a pass raise.
  lemma {:induction false} RaisesFilter(rules: Rules, p: Event -> bool, es: seq<Event>)
    requires forall e :: e in es ==> (p(e) <==> Moves(e))
    ensures Raises(rules, Filter(p, es)) ==> Raises(rules, es)
  {
    if es != [] {
      assert es == Front(es) + [Last(es)];
      RaisesFilter(rules, p, Front(es));
      SlotFilter(rules, p, Front(es), Last(es).instrument);
      if p(Last(es)) {
        assert Front(Filter(p, Front(es)) + [Last(es)]) == Filter(p, Front(es));
      }
    }
  }

  // Events before a time are a prefix of the causal order.
  lemma BeforePrefix(es: seq<Event>, time: int)
    requires Sorted(EventKey(), es)
    ensures |Filter(Before(time), es)| <= |es| && es[..|Filter(Before(time), es)|] == Filter(Before(time), es)
  {
    forall x, y | x in es && y in es && Before(time)(y) && KeyLe(EventKey()(x), EventKey()(y))
      ensures Before(time)(x)
    {
      EarlierInOrder(x, y);
    }
    SortedSplit(EventKey(), Before(time), es);
  }

  lemma UpToPrefix(es: seq<Event>, time: int)
    requires Sorted(EventKey(), es)
    ensures |Filter(UpTo(time), es)| <= |es| && es[..|Filter(UpTo(time), es)|] == Filter(UpTo(time), es)
    ensures forall i :: |Filter(UpTo(time), es)| <= i < |es| ==> es[i].time > time
  {
    forall x, y | x in es && y in es && UpTo(time)(y) && KeyLe(EventKey()(x), EventKey()(y))
      ensures UpTo(time)(x)
    {
      EarlierInOrder(x, y);
    }
    SortedSplit(EventKey(), UpTo(time), es);
    var later := Filter(Not(UpTo(time)), es);
    forall i | |Filter(UpTo(time), es)| <= i < |es| ensures es[i].time > time {
      assert es[i] == later[i - |Filter(UpTo(time), es)|];
      assert es[i] in later;
    }
  }

  lemma {:induction false} RecordsPrefix(rules: Rules, es: seq<Event>, n: nat)
    requires !Raises(rules, es) && n <= |es|
    ensures !Raises(rules, es[..n]) && |Records(rules, es)| == |es|
    ensures Records(rules, es)[..n] == Records(rules, es[..n])
  {
    if n == |es| {
      assert es[..n] == es;
      RecordsLength(rules, es);
    } else {
      RecordsPrefix(rules, Front(es), n);
      assert Front(es)[..n] == es[..n];
      RecordsLength(rules, es);
      RecordsLength(rules, Front(es));
      assert Records(rules, es)[..|es| - 1] == Records(rules, Front(es));
    }
  }

  // Passes that treat every event alike leave the same records.
  lemma {:induction false} RecordsAgree(a: Rules, b: Rules, es: seq<Event>)
    requires ValidEvents(es) && forall e :: e in es ==> Agree(a, b, e)
    ensures Records(a, es) == Records(b, es)
    ensures Raises(a, es) <==> Raises(b, es)
  {
    if es != [] {
      assert es == Front(es) + [Last(es)];
      RecordsAgree(a, b, Front(es));
      SlotAgree(a, b, Front(es), Last(es).instrument);
      SlotGrounded(a, Front(es), Last(es).instrument);
      NextAgree(a, b, SlotAfter(a, Front(es), Last(es).instrument), Last(es));
    }
  }
}
