// What holds of the gate over every interleaving of admissions and claims.
module GateSafety {
  import opened Collections
  import opened Domain
  import opened Execution
  import opened Risk
  import opened Gate

  // ----- what an authorization rests on -----

  lemma NothingWarranted(q: Question, r: RejectionReason)
    requires Evaluated(q).status == Authorized
    ensures !Warrants(q, r)
  {
    assert r !in Reasons(q);
  }

  lemma AuthorizedRoom(q: Question)
    requires Evaluated(q).status == Authorized
    ensures q.intent.instrument in q.policy.allowed && Whole(q.intent.quantity)
    ensures forall o :: o in q.state.orders ==> o.instrument != q.intent.instrument
    ensures q.intent.side == Buy ==>
              |q.state.positions| + |Filter(IsBuy(), q.state.orders)| < q.policy.maximumPositions
  {
    NothingWarranted(q, UnsupportedInstrument);
    NothingWarranted(q, InvalidQuantity);
    NothingWarranted(q, OutstandingOrderExists);
    NothingWarranted(q, MaxConcurrentPositions);
  }

  // ----- the invariant -----

  ghost predicate RemembersWell(scope: string, id: Ref, m: Remembered) {
    && m.intent.Identity() == id && m.intent.scope == scope && m.decision.intent == m.intent
    && (m.decision.status == Authorized <==> m.authorization.Some?)
    && (m.authorization.Some? ==>
          m.authorization.value == AuthorizationFor(m.intent, m.decision, m.authorization.value.token))
    && (m.dispatched ==> m.authorization.Some?)
  }

  // The reservation stands for a remembered authorization.
  ghost predicate StandsFor(history: map<Ref, Remembered>, o: OutstandingOrder) {
    && o.identity in history && history[o.identity].authorization.Some?
    && o == ReservationFor(history[o.identity].intent, history[o.identity].decision)
  }

  // The grant belongs to a remembered authorization.
  ghost predicate GrantHeld(history: map<Ref, Remembered>, grants: map<Ref, Ref>, k: Ref) {
    && k in grants && grants[k] in history && history[grants[k]].authorization.Some?
    && history[grants[k]].authorization.value.grant == k
  }

  ghost predicate Remembering(scope: string, history: map<Ref, Remembered>) {
    forall id :: id in history ==> RemembersWell(scope, id, history[id])
  }

  ghost predicate Standing(history: map<Ref, Remembered>, reservations: seq<OutstandingOrder>) {
    forall o :: o in reservations ==> StandsFor(history, o)
  }

  ghost predicate Granting(history: map<Ref, Remembered>, grants: map<Ref, Ref>) {
    && (forall k :: k in grants ==> GrantHeld(history, grants, k))
    && (forall id :: id in history && history[id].authorization.Some? ==>
          history[id].authorization.value.grant in grants)
  }

  ghost predicate Sound(scope: string, g: GateState) {
    && Remembering(scope, g.history) && Standing(g.history, g.reservations) && Granting(g.history, g.grants)
  }

  ghost predicate Bounded(policy: RiskPolicy, g: GateState) {
    && Distinct(Map(OrderIdentity(), g.reservations))
    && Distinct(Map(OrderInstrument(), g.reservations))
    && (forall o :: o in g.reservations ==> o.instrument in policy.allowed && Whole(o.quantity))
    && |Filter(IsBuy(), g.reservations)| <= policy.maximumPositions
    && |g.grants| == |g.reservations|
  }

  ghost predicate Safe(scope: string, policy: RiskPolicy, g: GateState) {
    Sound(scope, g) && Bounded(policy, g)
  }

  // ----- counting reservations -----

  lemma MergedContains(reservations: seq<OutstandingOrder>, state: RiskState, o: OutstandingOrder)
    ensures o in Merged(reservations, state).orders <==> o in state.orders || o in reservations
  {
    var more := Filter(Absent(state.orders), reservations);
    assert o in more <==> o in reservations && o !in state.orders;
    assert forall x :: x in state.orders + more <==> x in state.orders || x in more;
  }

  lemma SubsetSize<T>(a: set<T>, b: set<T>)
    requires a <= b
    ensures |a| <= |b|
  {
    assert b == a + (b - a);
  }

  // Distinct elements of another sequence are no more than its elements.
  lemma DistinctNoMore<T>(a: seq<T>, b: seq<T>)
    requires Distinct(a) && forall x :: x in a ==> x in b
    ensures |a| <= |b|
  {
    DistinctLength(a);
    SetNoLonger(b);
    assert ToSet(a) <= ToSet(b);
    SubsetSize(ToSet(a), ToSet(b));
  }

  // The merged state counts every reservation.
  lemma ReservedBuys(reservations: seq<OutstandingOrder>, state: RiskState)
    requires Distinct(Map(OrderIdentity(), reservations))
    ensures |Filter(IsBuy(), reservations)| <= |Filter(IsBuy(), Merged(reservations, state).orders)|
  {
    DistinctMapDistinct(OrderIdentity(), reservations);
    FilterDistinct(IsBuy(), reservations);
    forall o | o in Filter(IsBuy(), reservations) ensures o in Filter(IsBuy(), Merged(reservations, state).orders) {
      MergedContains(reservations, state, o);
    }
    DistinctNoMore(Filter(IsBuy(), reservations), Filter(IsBuy(), Merged(reservations, state).orders));
  }

  lemma DistinctSnoc<T, U>(f: T -> U, s: seq<T>, x: T)
    requires Distinct(Map(f, s)) && forall y :: y in s ==> f(y) != f(x)
    ensures Distinct(Map(f, s + [x]))
  {
    var all := Map(f, s + [x]);
    forall i, j | 0 <= i < j < |all| ensures all[i] != all[j] {
      if j == |s| {
        assert s[i] in s;
      } else {
        assert Map(f, s)[i] != Map(f, s)[j];
      }
    }
  }

  // ----- one admission -----

  lemma FreshGrant(scope: string, g: GateState, intent: OrderIntent, d: RiskDecision)
    requires Sound(scope, g) && intent.Identity() !in g.history && d.intent == intent
    ensures GrantRef(d.Id()) !in g.grants
  {
    forall k | k in g.grants ensures k != GrantRef(d.Id()) {
      assert GrantHeld(g.history, g.grants, k);
      var m := g.history[g.grants[k]];
      assert RemembersWell(scope, g.grants[k], m);
    }
  }

  // A new entry, or one changed at most in being dispatched, leaves the others standing.
  ghost predicate Keeps(history: map<Ref, Remembered>, id: Ref, m: Remembered) {
    id in history ==> m == history[id].(dispatched := m.dispatched)
  }

  lemma RemembersMore(scope: string, history: map<Ref, Remembered>, id: Ref, m: Remembered)
    requires Remembering(scope, history) && RemembersWell(scope, id, m)
    ensures Remembering(scope, history[id := m])
  {
  }

  lemma StandsStill(history: map<Ref, Remembered>, reservations: seq<OutstandingOrder>, id: Ref, m: Remembered)
    requires Standing(history, reservations) && Keeps(history, id, m)
    ensures Standing(history[id := m], reservations)
  {
    forall o | o in reservations ensures StandsFor(history[id := m], o) {
      assert StandsFor(history, o);
    }
  }

  lemma GrantsStill(history: map<Ref, Remembered>, grants: map<Ref, Ref>, id: Ref, m: Remembered)
    requires Granting(history, grants) && Keeps(history, id, m)
    requires id !in history ==> m.authorization.None?
    ensures Granting(history[id := m], grants)
  {
    forall k | k in grants ensures GrantHeld(history[id := m], grants, k) {
      assert GrantHeld(history, grants, k);
    }
  }

  lemma GrantsMore(history: map<Ref, Remembered>, grants: map<Ref, Ref>, id: Ref, m: Remembered)
    requires Granting(history, grants) && id !in history && m.authorization.Some?
    ensures Granting(history[id := m], grants[m.authorization.value.grant := id])
  {
    var more := grants[m.authorization.value.grant := id];
    forall k | k in more ensures GrantHeld(history[id := m], more, k) {
      if k != m.authorization.value.grant {
        assert GrantHeld(history, grants, k);
      }
    }
  }

  lemma IssueKeepsSound(scope: string, g: GateState, intent: OrderIntent, d: RiskDecision, a: AuthorizedOrder)
    requires Sound(scope, g) && intent.Identity() !in g.history && intent.scope == scope
    requires d.intent == intent && d.status == Authorized && a == AuthorizationFor(intent, d, a.token)
    ensures Sound(scope, AfterIssue(g, intent, d, a))
  {
    var id, m := intent.Identity(), Remembered(intent, d, Some(a), false);
    RemembersMore(scope, g.history, id, m);
    StandsStill(g.history, g.reservations, id, m);
    GrantsMore(g.history, g.grants, id, m);
    StandsNew(g.history, intent, d, m);
  }

  lemma StandsNew(history: map<Ref, Remembered>, intent: OrderIntent, d: RiskDecision, m: Remembered)
    requires m.intent == intent && m.decision == d && m.authorization.Some?
    ensures StandsFor(history[intent.Identity() := m], ReservationFor(intent, d))
  {
  }

  lemma NewReservation(
    policy: RiskPolicy, history: map<Ref, Remembered>, reservations: seq<OutstandingOrder>, r: Request, o: OutstandingOrder)
    requires Standing(history, reservations) && o.identity !in history && o.instrument == r.intent.instrument
    requires forall x :: x in Merged(reservations, r.state).orders ==> x.instrument != r.intent.instrument
    requires Distinct(Map(OrderIdentity(), reservations)) && Distinct(Map(OrderInstrument(), reservations))
    ensures Distinct(Map(OrderIdentity(), reservations + [o])) && Distinct(Map(OrderInstrument(), reservations + [o]))
  {
    forall x | x in reservations ensures x.instrument != o.instrument && x.identity != o.identity {
      MergedContains(reservations, r.state, x);
      assert StandsFor(history, x);
    }
    DistinctSnoc(OrderIdentity(), reservations, o);
    DistinctSnoc(OrderInstrument(), reservations, o);
  }

  lemma BuysBounded(reservations: seq<OutstandingOrder>, state: RiskState, o: OutstandingOrder, limit: int)
    requires Distinct(Map(OrderIdentity(), reservations)) && |Filter(IsBuy(), reservations)| <= limit
    requires o.side == Buy ==> |state.positions| + |Filter(IsBuy(), Merged(reservations, state).orders)| < limit
    ensures |Filter(IsBuy(), reservations + [o])| <= limit
  {
    ReservedBuys(reservations, state);
    FilterSnoc(IsBuy(), reservations, o);
  }

  lemma IssueKeepsBounds(
    scope: string, policy: RiskPolicy, g: GateState, r: Request, d: RiskDecision, a: AuthorizedOrder)
    requires Safe(scope, policy, g) && r.intent.Identity() !in g.history
    requires d == Evaluated(QuestionFor(policy, g.reservations, r)) && d.status == Authorized
    requires a.grant == GrantRef(d.Id())
    ensures Bounded(policy, AfterIssue(g, r.intent, d, a))
  {
    var o := ReservationFor(r.intent, d);
    AuthorizedRoom(QuestionFor(policy, g.reservations, r));
    NewReservation(policy, g.history, g.reservations, r, o);
    BuysBounded(g.reservations, r.state, o, policy.maximumPositions);
    FreshGrant(scope, g, r.intent, d);
  }

  lemma RefusalKeepsSound(scope: string, g: GateState, intent: OrderIntent, d: RiskDecision)
    requires Sound(scope, g) && intent.Identity() !in g.history && intent.scope == scope
    requires d.intent == intent && d.status == Refused
    ensures Sound(scope, g.(history := g.history[intent.Identity() := Remembered(intent, d, None, false)]))
  {
    var id, m := intent.Identity(), Remembered(intent, d, None, false);
    RemembersMore(scope, g.history, id, m);
    StandsStill(g.history, g.reservations, id, m);
    GrantsStill(g.history, g.grants, id, m);
  }

  lemma AdmitSafe(scope: string, policy: RiskPolicy, g: GateState, r: Request, token: Token)
    requires Safe(scope, policy, g) && AdmitStep(scope, policy, g, r, token).Ok?
    ensures Safe(scope, policy, AdmitStep(scope, policy, g, r, token).value.0)
  {
    if r.intent.Identity() !in g.history {
      var d := Evaluated(QuestionFor(policy, g.reservations, r));
      FirstStep(scope, policy, g, r, token, d);
      if d.status == Refused {
        RefusalKeepsSound(scope, g, r.intent, d);
      } else {
        var a := AuthorizationFor(r.intent, d, token);
        IssueKeepsSound(scope, g, r.intent, d, a);
        IssueKeepsBounds(scope, policy, g, r, d, a);
      }
    }
  }

  // ----- one claim -----

  lemma ClaimSafe(scope: string, policy: RiskPolicy, g: GateState, a: AuthorizedOrder)
    requires Safe(scope, policy, g) && ClaimStep(scope, g, a).Ok?
    ensures Safe(scope, policy, ClaimStep(scope, g, a).value.0)
    ensures a.grant in g.grants && g.history[g.grants[a.grant]].authorization == Some(a)
    ensures !g.history[g.grants[a.grant]].dispatched
  {
    var id := g.grants[a.grant];
    assert RemembersWell(scope, id, g.history[id]);
    var m := g.history[id].(dispatched := true);
    RemembersMore(scope, g.history, id, m);
    StandsStill(g.history, g.reservations, id, m);
    GrantsStill(g.history, g.grants, id, m);
  }

  // ----- every interleaving -----

  // Threads call in some order; each admission brings the token it would issue.
  datatype Call = AdmitCall(request: Request, token: Token) | ClaimCall(authorization: AuthorizedOrder)

  datatype Response =
    | Admitted(admission: Admission)
    | Claimed(authorization: AuthorizedOrder, intent: OrderIntent)
    | Raised(error: string)

  ghost function Perform(scope: string, policy: RiskPolicy, g: GateState, c: Call): (GateState, Response) {
    match c
    case AdmitCall(r, token) =>
      (match AdmitStep(scope, policy, g, r, token)
       case Ok((next, admission)) => (next, Admitted(admission))
       case Err(e) => (g, Raised(e)))
    case ClaimCall(a) =>
      (match ClaimStep(scope, g, a)
       case Ok((next, intent)) => (next, Claimed(a, intent))
       case Err(e) => (g, Raised(e)))
  }

  ghost function StateAfter(scope: string, policy: RiskPolicy, calls: seq<Call>): GateState {
    if calls == [] then Unused
    else Perform(scope, policy, StateAfter(scope, policy, Front(calls)), Last(calls)).0
  }

  ghost function Responses(scope: string, policy: RiskPolicy, calls: seq<Call>): seq<Response> {
    if calls == [] then []
    else
      Responses(scope, policy, Front(calls))
      + [Perform(scope, policy, StateAfter(scope, policy, Front(calls)), Last(calls)).1]
  }

  // The admissions that issued an authorization, in order.
  function Issued(rs: seq<Response>): seq<Admission> {
    if rs == [] then []
    else
      Issued(Front(rs)) +
      if Last(rs).Admitted? && Last(rs).admission.authorization.Some? then [Last(rs).admission] else []
  }

  // The authorizations consumed, in order.
  function Consumed(rs: seq<Response>): seq<AuthorizedOrder> {
    if rs == [] then [] else Consumed(Front(rs)) + if Last(rs).Claimed? then [Last(rs).authorization] else []
  }

  // An issued authorization is remembered, in the order of the reservations.
  ghost predicate IssuedFor(g: GateState, o: OutstandingOrder, x: Admission) {
    && x.authorization.Some? && o.identity in g.history
    && g.history[o.identity].authorization == x.authorization
    && g.history[o.identity].intent == x.decision.intent
    && o.instrument == x.decision.intent.instrument && o.identity == x.authorization.value.identity
  }

  ghost predicate Recorded(g: GateState, rs: seq<Response>) {
    var issued := Issued(rs);
    && |issued| == |g.reservations|
    && (forall i :: 0 <= i < |issued| ==> IssuedFor(g, g.reservations[i], issued[i]))
    && (forall id :: id in g.history && g.history[id].authorization.Some? ==>
          exists x :: x in issued && x.authorization == g.history[id].authorization)
  }

  function GrantOf(): AuthorizedOrder -> Ref { (a: AuthorizedOrder) => a.grant }

  ghost predicate ConsumedOnce(g: GateState, rs: seq<Response>) {
    && Distinct(Map(GrantOf(), Consumed(rs)))
    && (forall a :: a in Consumed(rs) ==> ConsumedHeld(g, a))
    && (forall a :: a in Consumed(rs) ==> exists x :: x in Issued(rs) && x.authorization == Some(a))
  }

  ghost predicate ConsumedHeld(g: GateState, a: AuthorizedOrder) {
    a.grant in g.grants && g.grants[a.grant] in g.history && g.history[g.grants[a.grant]].dispatched
  }

  lemma ResponsesSnoc(rs: seq<Response>, r: Response)
    ensures Issued(rs + [r]) == Issued(rs)
            + if r.Admitted? && r.admission.authorization.Some? then [r.admission] else []
    ensures Consumed(rs + [r]) == Consumed(rs) + if r.Claimed? then [r.authorization] else []
  {
    assert Front(rs + [r]) == rs;
  }

  // Nothing remembered is changed but by being dispatched; nothing reserved or granted is taken back.
  ghost predicate Grows(g: GateState, next: GateState) {
    && (forall id :: id in g.history ==>
          && id in next.history
          && next.history[id].intent == g.history[id].intent && next.history[id].decision == g.history[id].decision
          && next.history[id].authorization == g.history[id].authorization
          && (g.history[id].dispatched ==> next.history[id].dispatched))
    && g.reservations <= next.reservations
    && (forall k :: k in g.grants ==> k in next.grants && next.grants[k] == g.grants[k])
  }

  lemma GrowsTrans(a: GateState, b: GateState, c: GateState)
    requires Grows(a, b) && Grows(b, c)
    ensures Grows(a, c)
  {
  }

  lemma EntryGrows(g: GateState, id: Ref, m: Remembered)
    requires Keeps(g.history, id, m) && (id in g.history && g.history[id].dispatched ==> m.dispatched)
    ensures Grows(g, g.(history := g.history[id := m]))
  {
  }

  lemma IssueGrows(g: GateState, intent: OrderIntent, d: RiskDecision, a: AuthorizedOrder)
    requires intent.Identity() !in g.history && a.grant !in g.grants
    ensures Grows(g, AfterIssue(g, intent, d, a))
  {
  }

  // What one call does to the state, and what it answers.
  datatype Effect = Nothing | Refusal(intent: OrderIntent, decision: RiskDecision)
                  | Issuance(intent: OrderIntent, decision: RiskDecision, authorization: AuthorizedOrder)
                  | Consumption(authorization: AuthorizedOrder)

  ghost predicate Effects(scope: string, g: GateState, next: GateState, r: Response, f: Effect) {
    match f
    case Nothing => next == g && (r.Raised? || (r.Admitted? && r.admission.authorization.None?))
    case Refusal(intent, d) =>
      && intent.Identity() !in g.history
      && next == g.(history := g.history[intent.Identity() := Remembered(intent, d, None, false)])
      && r.Admitted? && r.admission.authorization.None?
    case Issuance(intent, d, a) =>
      && intent.Identity() !in g.history && a == AuthorizationFor(intent, d, a.token) && d.intent == intent
      && next == AfterIssue(g, intent, d, a)
      && r == Admitted(Admission(d, Some(a)))
    case Consumption(a) =>
      && ClaimStep(scope, g, a).Ok? && next == ClaimStep(scope, g, a).value.0
      && r == Claimed(a, ClaimStep(scope, g, a).value.1)
  }

  lemma PerformEffect(scope: string, policy: RiskPolicy, g: GateState, c: Call) returns (f: Effect)
    ensures Effects(scope, g, Perform(scope, policy, g, c).0, Perform(scope, policy, g, c).1, f)
  {
    if c.AdmitCall? {
      var intent := c.request.intent;
      if intent.scope == scope && intent.Identity() !in g.history {
        var d := Evaluated(QuestionFor(policy, g.reservations, c.request));
        FirstStep(scope, policy, g, c.request, c.token, d);
        f := if d.status == Refused then Refusal(intent, d)
             else Issuance(intent, d, AuthorizationFor(intent, d, c.token));
      } else {
        f := Nothing;
      }
    } else {
      f := if ClaimStep(scope, g, c.authorization).Ok? then Consumption(c.authorization) else Nothing;
    }
  }

  lemma ConsumptionGrows(scope: string, g: GateState, a: AuthorizedOrder)
    requires ClaimStep(scope, g, a).Ok?
    ensures Grows(g, ClaimStep(scope, g, a).value.0)
  {
    var id := g.grants[a.grant];
    EntryGrows(g, id, g.history[id].(dispatched := true));
  }

  lemma EffectGrows(scope: string, policy: RiskPolicy, g: GateState, next: GateState, r: Response, f: Effect)
    requires Safe(scope, policy, g) && Effects(scope, g, next, r, f)
    ensures Grows(g, next)
  {
    match f
    case Nothing =>
    case Refusal(intent, d) => EntryGrows(g, intent.Identity(), Remembered(intent, d, None, false));
    case Issuance(intent, d, a) =>
      FreshGrant(scope, g, intent, d);
      IssueGrows(g, intent, d, a);
    case Consumption(a) => ConsumptionGrows(scope, g, a);
  }

  lemma PerformGrows(scope: string, policy: RiskPolicy, g: GateState, c: Call)
    requires Safe(scope, policy, g)
    ensures Grows(g, Perform(scope, policy, g, c).0)
  {
    var f := PerformEffect(scope, policy, g, c);
    EffectGrows(scope, policy, g, Perform(scope, policy, g, c).0, Perform(scope, policy, g, c).1, f);
  }

  lemma PerformSafe(scope: string, policy: RiskPolicy, g: GateState, c: Call)
    requires Safe(scope, policy, g)
    ensures Safe(scope, policy, Perform(scope, policy, g, c).0)
  {
    if c.AdmitCall? {
      if AdmitStep(scope, policy, g, c.request, c.token).Ok? {
        AdmitSafe(scope, policy, g, c.request, c.token);
      }
    } else if ClaimStep(scope, g, c.authorization).Ok? {
      ClaimSafe(scope, policy, g, c.authorization);
    }
  }

  lemma UnusedSafe(scope: string, policy: RiskPolicy)
    requires policy.Valid()
    ensures Safe(scope, policy, Unused)
  {
  }

  lemma {:induction false} RunSafe(scope: string, policy: RiskPolicy, calls: seq<Call>)
    requires policy.Valid()
    ensures Safe(scope, policy, StateAfter(scope, policy, calls))
  {
    if calls == [] {
      UnusedSafe(scope, policy);
    } else {
      RunSafe(scope, policy, Front(calls));
      PerformSafe(scope, policy, StateAfter(scope, policy, Front(calls)), Last(calls));
    }
  }

  // First decisions never change, reservations never shrink, grants never move.
  lemma {:induction false} GateNeverForgets(scope: string, policy: RiskPolicy, calls: seq<Call>, n: nat)
    requires policy.Valid() && n <= |calls|
    ensures Grows(StateAfter(scope, policy, calls[..n]), StateAfter(scope, policy, calls))
  {
    if n == |calls| {
      assert calls[..n] == calls;
    } else {
      assert Front(calls)[..n] == calls[..n];
      GateNeverForgets(scope, policy, Front(calls), n);
      RunSafe(scope, policy, Front(calls));
      PerformGrows(scope, policy, StateAfter(scope, policy, Front(calls)), Last(calls));
      GrowsTrans(StateAfter(scope, policy, calls[..n]), StateAfter(scope, policy, Front(calls)),
                 StateAfter(scope, policy, calls));
    }
  }

  lemma RecordedStill(g: GateState, next: GateState, rs: seq<Response>, r: Response)
    requires Recorded(g, rs) && Grows(g, next) && next.reservations == g.reservations
    requires Issued(rs + [r]) == Issued(rs)
    requires forall id :: id in next.history && next.history[id].authorization.Some? ==>
               id in g.history && g.history[id].authorization == next.history[id].authorization
    ensures Recorded(next, rs + [r])
  {
    var issued := Issued(rs);
    forall i | 0 <= i < |issued| ensures IssuedFor(next, next.reservations[i], issued[i]) {
      assert IssuedFor(g, g.reservations[i], issued[i]);
    }
  }

  lemma RecordedMore(g: GateState, intent: OrderIntent, d: RiskDecision, a: AuthorizedOrder, rs: seq<Response>, r: Response)
    requires Recorded(g, rs) && intent.Identity() !in g.history
    requires a == AuthorizationFor(intent, d, a.token) && d.intent == intent
    requires Issued(rs + [r]) == Issued(rs) + [Admission(d, Some(a))]
    ensures Recorded(AfterIssue(g, intent, d, a), rs + [r])
  {
    var next, issued, all := AfterIssue(g, intent, d, a), Issued(rs), Issued(rs + [r]);
    forall i | 0 <= i < |all| ensures IssuedFor(next, next.reservations[i], all[i]) {
      if i < |issued| {
        assert IssuedFor(g, g.reservations[i], issued[i]);
      }
    }
    forall id | id in next.history && next.history[id].authorization.Some?
      ensures exists x :: x in all && x.authorization == next.history[id].authorization
    {
      if id == intent.Identity() {
        assert all[|issued|] in all;
      } else {
        var x :| x in issued && x.authorization == g.history[id].authorization;
        assert x in all;
      }
    }
  }

  lemma EffectRecorded(
    scope: string, policy: RiskPolicy, g: GateState, next: GateState, rs: seq<Response>, r: Response, f: Effect)
    requires Safe(scope, policy, g) && Recorded(g, rs) && Effects(scope, g, next, r, f)
    ensures Recorded(next, rs + [r])
  {
    ResponsesSnoc(rs, r);
    if f.Issuance? {
      RecordedMore(g, f.intent, f.decision, f.authorization, rs, r);
    } else {
      EffectGrows(scope, policy, g, next, r, f);
      QuietEffect(scope, g, next, r, f);
      RecordedStill(g, next, rs, r);
    }
  }

  // Whatever does not issue reserves nothing and authorizes nothing.
  lemma QuietEffect(scope: string, g: GateState, next: GateState, r: Response, f: Effect)
    requires Effects(scope, g, next, r, f) && !f.Issuance?
    ensures next.reservations == g.reservations && (r.Admitted? ==> r.admission.authorization.None?)
    ensures forall id :: id in next.history && next.history[id].authorization.Some? ==>
              id in g.history && g.history[id].authorization == next.history[id].authorization
  {
  }

  lemma ConsumedStill(g: GateState, next: GateState, rs: seq<Response>, r: Response)
    requires ConsumedOnce(g, rs) && Grows(g, next) && Consumed(rs + [r]) == Consumed(rs) && Issued(rs) <= Issued(rs + [r])
    ensures ConsumedOnce(next, rs + [r])
  {
    forall a | a in Consumed(rs)
      ensures ConsumedHeld(next, a)
      ensures exists x :: x in Issued(rs + [r]) && x.authorization == Some(a)
    {
      assert ConsumedHeld(g, a);
      var x :| x in Issued(rs) && x.authorization == Some(a);
      assert x in Issued(rs + [r]);
    }
  }

  // An authorization that is claimed was issued, and its grant not consumed before.
  lemma ClaimedFresh(scope: string, policy: RiskPolicy, g: GateState, a: AuthorizedOrder, rs: seq<Response>)
    requires Safe(scope, policy, g) && Recorded(g, rs) && ConsumedOnce(g, rs) && ClaimStep(scope, g, a).Ok?
    ensures exists x :: x in Issued(rs) && x.authorization == Some(a)
    ensures forall c :: c in Consumed(rs) ==> c.grant != a.grant
  {
    ClaimSafe(scope, policy, g, a);
    var id := g.grants[a.grant];
    forall c | c in Consumed(rs) ensures c.grant != a.grant {
      assert ConsumedHeld(g, c);
    }
    var x :| x in Issued(rs) && x.authorization == g.history[id].authorization;
  }

  lemma ConsumedMore(g: GateState, next: GateState, a: AuthorizedOrder, rs: seq<Response>, r: Response)
    requires ConsumedOnce(g, rs) && ConsumedHeld(next, a)
    requires forall c :: c in Consumed(rs) ==> ConsumedHeld(next, c) && c.grant != a.grant
    requires exists x :: x in Issued(rs) && x.authorization == Some(a)
    requires Consumed(rs + [r]) == Consumed(rs) + [a] && Issued(rs + [r]) == Issued(rs)
    ensures ConsumedOnce(next, rs + [r])
  {
    DistinctSnoc(GrantOf(), Consumed(rs), a);
  }

  lemma ClaimConsumes(scope: string, policy: RiskPolicy, g: GateState, a: AuthorizedOrder, rs: seq<Response>, r: Response)
    requires Safe(scope, policy, g) && Recorded(g, rs) && ConsumedOnce(g, rs) && ClaimStep(scope, g, a).Ok?
    requires Consumed(rs + [r]) == Consumed(rs) + [a] && Issued(rs + [r]) == Issued(rs)
    ensures ConsumedOnce(ClaimStep(scope, g, a).value.0, rs + [r])
  {
    var next := ClaimStep(scope, g, a).value.0;
    ClaimedFresh(scope, policy, g, a, rs);
    ClaimHolds(scope, g, a, a);
    forall c | c in Consumed(rs) ensures ConsumedHeld(next, c) {
      ClaimHolds(scope, g, a, c);
    }
    ConsumedMore(g, next, a, rs, r);
  }

  lemma ClaimHolds(scope: string, g: GateState, a: AuthorizedOrder, c: AuthorizedOrder)
    requires ClaimStep(scope, g, a).Ok? && (c == a || ConsumedHeld(g, c))
    ensures ConsumedHeld(ClaimStep(scope, g, a).value.0, c)
  {
  }

  lemma EffectConsumed(
    scope: string, policy: RiskPolicy, g: GateState, next: GateState, rs: seq<Response>, r: Response, f: Effect)
    requires Safe(scope, policy, g) && Recorded(g, rs) && ConsumedOnce(g, rs) && Effects(scope, g, next, r, f)
    ensures ConsumedOnce(next, rs + [r])
  {
    ResponsesSnoc(rs, r);
    EffectGrows(scope, policy, g, next, r, f);
    match f
    case Consumption(a) => ClaimConsumes(scope, policy, g, a, rs, r);
    case _ => ConsumedStill(g, next, rs, r);
  }

  lemma {:induction false} RunRecorded(scope: string, policy: RiskPolicy, calls: seq<Call>)
    requires policy.Valid()
    ensures Recorded(StateAfter(scope, policy, calls), Responses(scope, policy, calls))
    ensures ConsumedOnce(StateAfter(scope, policy, calls), Responses(scope, policy, calls))
  {
    if calls != [] {
      var g, rs := StateAfter(scope, policy, Front(calls)), Responses(scope, policy, Front(calls));
      RunSafe(scope, policy, Front(calls));
      RunRecorded(scope, policy, Front(calls));
      var f := PerformEffect(scope, policy, g, Last(calls));
      var (next, r) := Perform(scope, policy, g, Last(calls));
      EffectRecorded(scope, policy, g, next, rs, r, f);
      EffectConsumed(scope, policy, g, next, rs, r, f);
    }
  }

  function IssuedIdentity(): Admission -> Ref { (x: Admission) => x.decision.intent.Identity() }
  function IssuedInstrument(): Admission -> Instrument { (x: Admission) => x.decision.intent.instrument }

  lemma IssuedAt(scope: string, policy: RiskPolicy, g: GateState, rs: seq<Response>, i: nat)
    requires Recorded(g, rs) && Safe(scope, policy, g) && i < |g.reservations|
    ensures Issued(rs)[i].decision.intent.instrument == g.reservations[i].instrument
    ensures Issued(rs)[i].decision.intent.Identity() == g.reservations[i].identity
    ensures g.reservations[i].instrument in policy.allowed
  {
    assert IssuedFor(g, g.reservations[i], Issued(rs)[i]) && g.reservations[i] in g.reservations;
    assert RemembersWell(scope, g.reservations[i].identity, g.history[g.reservations[i].identity]);
  }

  lemma MapsEqual<T, U, V>(f: T -> V, s: seq<T>, h: U -> V, t: seq<U>)
    requires |s| == |t| && forall i :: 0 <= i < |s| ==> f(s[i]) == h(t[i])
    ensures Map(f, s) == Map(h, t)
  {
  }

  // The issued authorization was issued for the reservation, as its intent asked.
  ghost predicate IssuedAs(o: OutstandingOrder, x: Admission, allowed: seq<Instrument>) {
    && x.decision.intent.instrument == o.instrument && x.decision.intent.Identity() == o.identity
    && o.instrument in allowed
  }

  lemma ApartAs(reservations: seq<OutstandingOrder>, issued: seq<Admission>, allowed: seq<Instrument>)
    requires |issued| == |reservations|
    requires forall i :: 0 <= i < |issued| ==> IssuedAs(reservations[i], issued[i], allowed)
    ensures Map(IssuedIdentity(), issued) == Map(OrderIdentity(), reservations)
    ensures Map(IssuedInstrument(), issued) == Map(OrderInstrument(), reservations)
    ensures forall x :: x in Map(IssuedInstrument(), issued) ==> x in allowed
  {
    MapsEqual(IssuedIdentity(), issued, OrderIdentity(), reservations);
    MapsEqual(IssuedInstrument(), issued, OrderInstrument(), reservations);
  }

  lemma IssuedApart(scope: string, policy: RiskPolicy, g: GateState, rs: seq<Response>)
    requires Recorded(g, rs) && Safe(scope, policy, g)
    ensures Map(IssuedIdentity(), Issued(rs)) == Map(OrderIdentity(), g.reservations)
    ensures Map(IssuedInstrument(), Issued(rs)) == Map(OrderInstrument(), g.reservations)
    ensures forall x :: x in Map(IssuedInstrument(), Issued(rs)) ==> x in policy.allowed
  {
    forall i | 0 <= i < |g.reservations| ensures IssuedAs(g.reservations[i], Issued(rs)[i], policy.allowed) {
      IssuedAt(scope, policy, g, rs, i);
    }
    ApartAs(g.reservations, Issued(rs), policy.allowed);
  }

  // Over every interleaving of admissions and claims, with whatever states callers supply:
  // authorizations have distinct identities and distinct allowed instruments, so grants never
  // outnumber the allowlist; purchases reserved never exceed the position limit; and only
  // issued authorizations are consumed, each grant at most once.
  lemma GateSafety(scope: string, policy: RiskPolicy, calls: seq<Call>)
    requires policy.Valid()
    ensures var g, rs := StateAfter(scope, policy, calls), Responses(scope, policy, calls);
            && Distinct(Map(IssuedIdentity(), Issued(rs)))
            && Distinct(Map(IssuedInstrument(), Issued(rs)))
            && |Issued(rs)| == |g.grants| == |g.reservations| <= |policy.allowed|
            && |Filter(IsBuy(), g.reservations)| <= policy.maximumPositions
            && Distinct(Map(GrantOf(), Consumed(rs)))
            && forall a :: a in Consumed(rs) ==> exists x :: x in Issued(rs) && x.authorization == Some(a)
  {
    var g, rs := StateAfter(scope, policy, calls), Responses(scope, policy, calls);
    RunSafe(scope, policy, calls);
    RunRecorded(scope, policy, calls);
    IssuedApart(scope, policy, g, rs);
    DistinctNoMore(Map(IssuedInstrument(), Issued(rs)), policy.allowed);
  }
}
