// Merging reservations into supplied states: echoes change nothing, and authorizing keeps
// the merged state consistent.
module GateMerge {
  import opened Collections
  import opened Domain
  import opened Execution
  import opened Risk
  import opened Gate
  import opened GateSafety

  // ----- decisions do not depend on the arrangement of the state -----

  lemma DistinctMapPermute<T, U>(f: T -> U, a: seq<T>, b: seq<T>)
    requires multiset(a) == multiset(b)
    ensures Distinct(Map(f, a)) <==> Distinct(Map(f, b))
  {
    DistinctMap(f, a);
    DistinctMap(f, b);
    SameMembers(a, b);
    if Distinct(a) {
      DistinctPermute(a, b);
    }
    if Distinct(b) {
      DistinctPermute(b, a);
    }
  }

  lemma LengthPermute<T>(a: seq<T>, b: seq<T>)
    requires multiset(a) == multiset(b)
    ensures |a| == |b| && (|a| == 1 ==> a == b)
  {
    assert |multiset(a)| == |a|;
    if |a| == 1 {
      assert a[0] in multiset(b);
    }
  }

  // Questions that differ at most in how the state is named and its positions and orders arranged.
  ghost predicate SameButArranged(a: Question, b: Question) {
    && a.intent == b.intent && a.policy == b.policy && a.feature == b.feature && a.quote == b.quote && a.now == b.now
    && b.state == a.state.(id := b.state.id, revision := b.state.revision, positions := b.state.positions,
                           orders := b.state.orders)
    && multiset(a.state.positions) == multiset(b.state.positions)
    && multiset(a.state.orders) == multiset(b.state.orders)
  }

  lemma {:induction false} PositionForLast(positions: seq<OpenPosition>, instrument: Instrument)
    ensures var held := Filter(PositionOn(instrument), positions);
            PositionFor(positions, instrument) == if held == [] then None else Some(Last(held))
  {
    if positions != [] {
      PositionForLast(Front(positions), instrument);
    }
  }

  lemma {:induction false} OneHeld(positions: seq<OpenPosition>, instrument: Instrument)
    requires Distinct(Map(PositionInstrument(), positions))
    ensures |Filter(PositionOn(instrument), positions)| <= 1
  {
    if positions != [] {
      assert positions == Front(positions) + [Last(positions)];
      DistinctMap(PositionInstrument(), positions);
      DistinctMap(PositionInstrument(), Front(positions));
      OneHeld(Front(positions), instrument);
      if Last(positions).instrument == instrument {
        forall p | p in Front(positions) ensures !PositionOn(instrument)(p) {
          assert p != Last(positions);
        }
        FilterNone(PositionOn(instrument), Front(positions));
      }
    }
  }

  // With one position an instrument, the position found does not depend on their arrangement.
  lemma PositionPermute(a: seq<OpenPosition>, b: seq<OpenPosition>, instrument: Instrument)
    requires multiset(a) == multiset(b) && Distinct(Map(PositionInstrument(), a))
    ensures PositionFor(a, instrument) == PositionFor(b, instrument)
  {
    PositionForLast(a, instrument);
    PositionForLast(b, instrument);
    OneHeld(a, instrument);
    FilterPermute(PositionOn(instrument), a, b);
    LengthPermute(Filter(PositionOn(instrument), a), Filter(PositionOn(instrument), b));
  }

  lemma OrdersPermute(positions: seq<OpenPosition>, a: seq<OutstandingOrder>, b: seq<OutstandingOrder>)
    requires multiset(a) == multiset(b)
    ensures ConsistentOrders(positions, a) <==> ConsistentOrders(positions, b)
  {
    DistinctMapPermute(OrderInstrument(), a, b);
    DistinctMapPermute(OrderIdentity(), a, b);
    DistinctMapPermute(OrderReference(), a, b);
    SameMembers(a, b);
  }

  lemma FitsPermute(a: seq<OpenPosition>, b: seq<OpenPosition>, orders: seq<OutstandingOrder>)
    requires multiset(a) == multiset(b) && Distinct(Map(PositionInstrument(), a))
    ensures ConsistentOrders(a, orders) <==> ConsistentOrders(b, orders)
  {
    forall o | o in orders ensures OrderFits(a, o) <==> OrderFits(b, o) {
      PositionPermute(a, b, o.instrument);
    }
  }

  lemma ConsistentPermute(a: RiskState, b: RiskState)
    requires multiset(a.positions) == multiset(b.positions) && multiset(a.orders) == multiset(b.orders)
    ensures Consistent(a.positions, a.orders) <==> Consistent(b.positions, b.orders)
  {
    DistinctMapPermute(PositionInstrument(), a.positions, b.positions);
    DistinctMapPermute(PositionId(), a.positions, b.positions);
    if ConsistentPositions(a.positions) {
      OrdersPermute(a.positions, a.orders, b.orders);
      FitsPermute(a.positions, b.positions, b.orders);
    }
  }

  // However positions and orders are arranged, the reasons are the same.
  lemma ArrangementKeepsReasons(a: Question, b: Question)
    requires SameButArranged(a, b)
    ensures Reasons(a) == Reasons(b)
  {
    forall r: RejectionReason ensures Warrants(a, r) <==> Warrants(b, r) {
      SameWarrants(a, b, r);
    }
  }

  lemma SameWarrants(a: Question, b: Question, r: RejectionReason)
    requires SameButArranged(a, b)
    ensures Warrants(a, r) <==> Warrants(b, r)
  {
    assert PolicyWarrants(a, r) <==> PolicyWarrants(b, r);
    assert SignalWarrants(a, r) <==> SignalWarrants(b, r);
    assert QuoteWarrants(a, r) <==> QuoteWarrants(b, r);
    ConsistentPermute(a.state, b.state);
    assert StateWarrants(a, r) <==> StateWarrants(b, r);
    SameEntry(a, b, r);
    SameExit(a, b, r);
  }

  lemma SameEntry(a: Question, b: Question, r: RejectionReason)
    requires SameButArranged(a, b)
    ensures EntryWarrants(a, r) <==> EntryWarrants(b, r)
  {
    FilterPermute(IsBuy(), a.state.orders, b.state.orders);
    SameMembers(a.state.orders, b.state.orders);
    SameMembers(a.state.positions, b.state.positions);
    LengthPermute(a.state.positions, b.state.positions);
  }

  lemma SameExit(a: Question, b: Question, r: RejectionReason)
    requires SameButArranged(a, b)
    ensures ExitWarrants(a, r) <==> ExitWarrants(b, r)
  {
    var held, same := Filter(PositionOn(a.intent.instrument), a.state.positions),
                      Filter(PositionOn(b.intent.instrument), b.state.positions);
    FilterPermute(PositionOn(a.intent.instrument), a.state.positions, b.state.positions);
    LengthPermute(held, same);
  }

  // ----- echoes -----

  // The state also lists some reservations that it did not list.
  ghost predicate Echoes(reservations: seq<OutstandingOrder>, state: RiskState, echoed: RiskState,
                         echo: seq<OutstandingOrder>) {
    && Distinct(echo) && (forall o :: o in echo ==> o in reservations && o !in state.orders)
    && echoed == state.(id := echoed.id, revision := echoed.revision, orders := echoed.orders)
    && multiset(echoed.orders) == multiset(state.orders + echo)
  }

  lemma DistinctConcat<T>(a: seq<T>, b: seq<T>)
    requires Distinct(a) && Distinct(b) && forall x :: x in a ==> x !in b
    ensures Distinct(a + b)
  {
    forall i, j | 0 <= i < j < |a + b| ensures (a + b)[i] != (a + b)[j] {
      if i < |a| <= j {
        assert a[i] in a && b[j - |a|] in b;
      }
    }
  }

  lemma EchoMerges(
    reservations: seq<OutstandingOrder>, state: RiskState, echoed: RiskState, echo: seq<OutstandingOrder>)
    requires Distinct(reservations) && Echoes(reservations, state, echoed, echo)
    ensures multiset(Merged(reservations, state).orders) == multiset(Merged(reservations, echoed).orders)
  {
    var more, less := Filter(Absent(state.orders), reservations), Filter(Absent(echoed.orders), reservations);
    FilterDistinct(Absent(state.orders), reservations);
    FilterDistinct(Absent(echoed.orders), reservations);
    SameMembers(echoed.orders, state.orders + echo);
    DistinctConcat(echo, less);
    SameElementsSameMultiset(more, echo + less);
    assert multiset(state.orders + more) == multiset(state.orders) + multiset(echo) + multiset(less);
    assert multiset(echoed.orders + less) == multiset(state.orders) + multiset(echo) + multiset(less);
  }

  lemma EchoArranges(
    policy: RiskPolicy, reservations: seq<OutstandingOrder>, r: Request, echoed: RiskState, echo: seq<OutstandingOrder>)
    requires Distinct(reservations) && Echoes(reservations, r.state, echoed, echo)
    ensures SameButArranged(QuestionFor(policy, reservations, r), QuestionFor(policy, reservations, r.(state := echoed)))
  {
    EchoMerges(reservations, r.state, echoed, echo);
    MergedSame(reservations, r.state, echoed, echo);
  }

  // A caller may echo any of the gate's reservations: the decision and its reasons stay.
  lemma EchoChangesNothing(
    scope: string, policy: RiskPolicy, g: GateState, r: Request, echoed: RiskState, echo: seq<OutstandingOrder>)
    requires Safe(scope, policy, g) && Echoes(g.reservations, r.state, echoed, echo)
    ensures var plain, repeated := Evaluated(QuestionFor(policy, g.reservations, r)),
                                   Evaluated(QuestionFor(policy, g.reservations, r.(state := echoed)));
            plain.status == repeated.status && plain.reasons == repeated.reasons
  {
    var plain, repeated := QuestionFor(policy, g.reservations, r), QuestionFor(policy, g.reservations, r.(state := echoed));
    DistinctMapDistinct(OrderIdentity(), g.reservations);
    EchoArranges(policy, g.reservations, r, echoed, echo);
    ArrangementKeepsReasons(plain, repeated);
    SameReasons(plain, repeated);
  }

  lemma SameReasons(a: Question, b: Question)
    requires Reasons(a) == Reasons(b)
    ensures Evaluated(a).status == Evaluated(b).status && Evaluated(a).reasons == Evaluated(b).reasons
  {
  }

  lemma MergedSame(reservations: seq<OutstandingOrder>, state: RiskState, echoed: RiskState, echo: seq<OutstandingOrder>)
    requires Echoes(reservations, state, echoed, echo)
    ensures var a, b := Merged(reservations, state), Merged(reservations, echoed);
            b == a.(id := b.id, revision := b.revision, orders := b.orders)
  {
  }

  // Merging once is merging for good.
  lemma MergeIdempotent(reservations: seq<OutstandingOrder>, state: RiskState)
    ensures Merged(reservations, Merged(reservations, state)) == Merged(reservations, state)
  {
    var merged := Merged(reservations, state);
    forall o | o in reservations ensures !Absent(merged.orders)(o) {
      MergedContains(reservations, state, o);
    }
    FilterNone(Absent(merged.orders), reservations);
  }

  // ----- after an authorization -----

  // An authorized order fits the positions it was judged against.
  lemma AuthorizedFits(q: Question, o: OutstandingOrder)
    requires Evaluated(q).status == Authorized
    requires o.instrument == q.intent.instrument && o.side == q.intent.side && o.quantity == q.intent.quantity
    ensures Consistent(q.state.positions, q.state.orders) && OrderFits(q.state.positions, o)
  {
    NothingWarranted(q, InconsistentState);
    PositionForLast(q.state.positions, o.instrument);
    OneHeld(q.state.positions, o.instrument);
    FilterNonempty(PositionOn(o.instrument), q.state.positions);
    if o.side == Buy {
      NothingWarranted(q, PositionAlreadyOpen);
    } else {
      SoldWhole(q);
    }
  }

  // An authorized sale sells exactly what is held.
  lemma SoldWhole(q: Question)
    requires Evaluated(q).status == Authorized && q.intent.side == Sell
    requires |Filter(PositionOn(q.intent.instrument), q.state.positions)| <= 1
    ensures var held := Filter(PositionOn(q.intent.instrument), q.state.positions);
            held != [] && Last(held).quantity == q.intent.quantity
  {
    NothingWarranted(q, PositionNotOpen);
    NothingWarranted(q, PartialExit);
    NothingWarranted(q, Oversell);
    FilterNonempty(PositionOn(q.intent.instrument), q.state.positions);
  }

  lemma MergedAfter(reservations: seq<OutstandingOrder>, state: RiskState, o: OutstandingOrder)
    requires o !in state.orders
    ensures Merged(reservations + [o], state).orders == Merged(reservations, state).orders + [o]
    ensures Merged(reservations + [o], state).positions == state.positions
  {
    FilterSnoc(Absent(state.orders), reservations, o);
  }

  lemma SnocDistinct<T, U>(f: T -> U, s: seq<T>, x: T)
    requires Distinct(Map(f, s))
    ensures Distinct(Map(f, s + [x])) <==> forall y :: y in s ==> f(y) != f(x)
  {
    DistinctMap(f, s);
    DistinctMap(f, s + [x]);
    if forall y :: y in s ==> f(y) != f(x) {
      DistinctSnoc(f, s, x);
    }
    if Distinct(Map(f, s + [x])) {
      forall y | y in s ensures f(y) != f(x) {
        var i :| 0 <= i < |s| && s[i] == y;
        assert Map(f, s + [x])[i] != Map(f, s + [x])[|s|];
      }
    }
  }

  // No order carries the identity or the reference of another.
  ghost predicate Fresh(orders: seq<OutstandingOrder>, o: OutstandingOrder) {
    forall x :: x in orders ==> x.identity != o.identity && x.reference != o.reference
  }

  lemma ConsistentAfter(positions: seq<OpenPosition>, orders: seq<OutstandingOrder>, o: OutstandingOrder)
    requires Consistent(positions, orders) && OrderFits(positions, o)
    requires forall x :: x in orders ==> x.instrument != o.instrument
    ensures Consistent(positions, orders + [o]) <==> Fresh(orders, o)
  {
    SnocDistinct(OrderInstrument(), orders, o);
    SnocDistinct(OrderIdentity(), orders, o);
    SnocDistinct(OrderReference(), orders, o);
  }

  // A grant is a digest of the decision, and so of the state decided on and its orders: none of
  // them can carry it.
  lemma GrantIsNew(q: Question, x: OutstandingOrder)
    requires x in q.state.orders
    ensures x.reference != GrantRef(Evaluated(q).Id())
  {
    var d := Evaluated(q);
    var i :| 0 <= i < |q.state.orders| && q.state.orders[i] == x;
    assert q.state.orders[i] < q.state < d.stateFingerprint < d.Id() < GrantRef(d.Id());
    assert x.reference < x;
  }

  ghost predicate Carries(orders: seq<OutstandingOrder>, identity: Ref) {
    exists x :: x in orders && x.identity == identity
  }

  // Among supplied orders and reservations, only supplied ones can carry the identity of an
  // intent the gate has not seen.
  lemma FreshExactly(scope: string, policy: RiskPolicy, g: GateState, r: Request)
    requires Safe(scope, policy, g) && r.intent.Identity() !in g.history
    ensures var q := QuestionFor(policy, g.reservations, r);
            Fresh(q.state.orders, ReservationFor(r.intent, Evaluated(q)))
            <==> !Carries(r.state.orders, r.intent.Identity())
  {
    var q := QuestionFor(policy, g.reservations, r);
    var o := ReservationFor(r.intent, Evaluated(q));
    forall x ensures x in q.state.orders <==> x in r.state.orders || x in g.reservations {
      MergedContains(g.reservations, r.state, x);
    }
    forall x | x in q.state.orders ensures x.reference != o.reference {
      GrantIsNew(q, x);
    }
    forall x | x in g.reservations ensures x.identity != o.identity {
      assert StandsFor(g.history, x);
    }
    FreshAmong(q.state.orders, r.state.orders, g.reservations, o);
  }

  lemma FreshAmong(
    orders: seq<OutstandingOrder>, supplied: seq<OutstandingOrder>, reserved: seq<OutstandingOrder>, o: OutstandingOrder)
    requires forall x :: x in orders <==> x in supplied || x in reserved
    requires (forall x :: x in orders ==> x.reference != o.reference)
    requires (forall x :: x in reserved ==> x.identity != o.identity)
    ensures Fresh(orders, o) <==> !Carries(supplied, o.identity)
  {
    if x :| x in supplied && x.identity == o.identity {
      assert x in orders;
    }
  }

  // After an authorization the merged state passes every consistency check exactly when no order
  // the caller supplied already carries the intent's identity; a purchase stays within the limit.
  lemma AuthorizedStaysConsistent(scope: string, policy: RiskPolicy, g: GateState, r: Request, token: Token)
    requires Safe(scope, policy, g) && AdmitStep(scope, policy, g, r, token).Ok?
    requires AdmitStep(scope, policy, g, r, token).value.1.authorization.Some?
    ensures var after := Merged(AdmitStep(scope, policy, g, r, token).value.0.reservations, r.state);
            && (Consistent(after.positions, after.orders) <==> !Carries(r.state.orders, r.intent.Identity()))
            && (r.intent.side == Buy ==>
                  |after.positions| + |Filter(IsBuy(), after.orders)| <= policy.maximumPositions)
  {
    var q := QuestionFor(policy, g.reservations, r);
    AuthorizedMerge(policy, g, r);
    FreshExactly(scope, policy, g, r);
  }

  lemma AuthorizedMerge(policy: RiskPolicy, g: GateState, r: Request)
    requires Evaluated(QuestionFor(policy, g.reservations, r)).status == Authorized
    ensures var d := Evaluated(QuestionFor(policy, g.reservations, r));
            var o := ReservationFor(r.intent, d);
            var after := Merged(g.reservations + [o], r.state);
            && (Consistent(after.positions, after.orders) <==> Fresh(Merged(g.reservations, r.state).orders, o))
            && (r.intent.side == Buy ==>
                  |after.positions| + |Filter(IsBuy(), after.orders)| <= policy.maximumPositions)
  {
    var q := QuestionFor(policy, g.reservations, r);
    var o := ReservationFor(r.intent, Evaluated(q));
    AuthorizedRoom(q);
    AuthorizedFits(q, o);
    forall x | x in r.state.orders ensures x != o {
      MergedContains(g.reservations, r.state, x);
    }
    MergedAfter(g.reservations, r.state, o);
    ConsistentAfter(q.state.positions, q.state.orders, o);
    FilterSnoc(IsBuy(), q.state.orders, o);
  }

  // ----- an authorization that leaves the state inconsistent -----

  const LISTED := Instrument("A")
  const OTHER := Instrument("B")
  const SCOPE := "paper"

  function TwoAllowed(): RiskPolicy { RiskPolicy("policy", true, [LISTED, OTHER], 1.0, 2, 0, 0, 0, 0) }

  function Oversold(): FeatureSnapshot {
    FeatureSnapshot(LISTED, ZScore, FEATURE_VERSION, Some(SignedRoot(true, 4.0)), 0, 0, 5, Ready, None, "data")
  }

  function BuyListed(): OrderIntent {
    OrderIntent(
      SCOPE,
      Signal(LISTED, STRATEGY_ID, STRATEGY_VERSION, LongEntry, 0, 0, ZScore, FEATURE_VERSION, 5, 0, 0,
             SignedRoot(true, 4.0), "configuration", -2.0, 0.0, 0, EntryThreshold, "data"),
      LISTED, Buy, 1.0, 0, "quantity")
  }

  // The supplied state lists an order for another instrument under the intent's own identity.
  function Impostor(): OutstandingOrder {
    OutstandingOrder(OTHER, BuyListed().Identity(), Buy, 1.0, Given("reference"))
  }

  function MisleadingRequest(): Request {
    Request(
      BuyListed(),
      RiskState(SCOPE, SuppliedState("state"), 0, true, [], [Impostor()], 0, 0, Controls(true, false, 0, 0)),
      Oversold(),
      Quote(LISTED, 1.0, 2.0, None, None, 0, 0, SystemReceived, Provenance("source", None, None)),
      0)
  }

  lemma MisleadingWarrants(r: RejectionReason)
    ensures !Warrants(QuestionFor(TwoAllowed(), [], MisleadingRequest()), r)
  {
    var q := QuestionFor(TwoAllowed(), [], MisleadingRequest());
    assert q.state == MisleadingRequest().state;
    assert LISTED != OTHER by {
      assert LISTED.identifier[0] != OTHER.identifier[0];
    }
    MisleadingConsistent();
  }

  lemma MisleadingConsistent()
    ensures Consistent(MisleadingRequest().state.positions, MisleadingRequest().state.orders)
  {
    assert Map(OrderInstrument(), MisleadingRequest().state.orders) == [OTHER];
  }

  // A new gate authorizes it, and the merged state is then inconsistent.
  lemma AuthorizedYetInconsistent(token: Token)
    ensures TwoAllowed().Valid()
    ensures AdmitStep(SCOPE, TwoAllowed(), Unused, MisleadingRequest(), token).Ok?
    ensures AdmitStep(SCOPE, TwoAllowed(), Unused, MisleadingRequest(), token).value.1.authorization.Some?
    ensures var after := Merged(AdmitStep(SCOPE, TwoAllowed(), Unused, MisleadingRequest(), token).value.0.reservations,
                                MisleadingRequest().state);
            !Consistent(after.positions, after.orders)
  {
    var r := MisleadingRequest();
    var q := QuestionFor(TwoAllowed(), [], r);
    assert LISTED.identifier[0] != OTHER.identifier[0];
    forall x: RejectionReason {
      MisleadingWarrants(x);
    }
    assert Reasons(q) == {};
    UnusedSafe(SCOPE, TwoAllowed());
    assert Impostor() in r.state.orders && Carries(r.state.orders, r.intent.Identity());
    AuthorizedStaysConsistent(SCOPE, TwoAllowed(), Unused, r, token);
  }
}
