// What a gate answers, told from its calls and earlier answers alone: risk/gate.py.
module GateAnswers {
  import opened Collections
  import opened Domain
  import opened Execution
  import opened Risk
  import opened Gate
  import opened GateSafety

  // The call admits that identity into this gate's scope.
  predicate Admits(scope: string, c: Call, id: Ref) {
    c.AdmitCall? && c.request.intent.scope == scope && c.request.intent.Identity() == id
  }

  // The first call that does.
  ghost predicate FirstAt(scope: string, calls: seq<Call>, m: nat, id: Ref) {
    m < |calls| && Admits(scope, calls[m], id) && forall k :: 0 <= k < m ==> !Admits(scope, calls[k], id)
  }

  // What the gate remembers of an identity is what it answered to the first call admitting it.
  ghost predicate Remembers(scope: string, calls: seq<Call>, rs: seq<Response>, g: GateState) {
    && |rs| == |calls|
    && (forall id :: id in g.history ==> exists m: nat :: FirstAt(scope, calls, m, id))
    && (forall m: nat, id :: FirstAt(scope, calls, m, id) ==> Answered(calls[m], rs[m], g, id))
  }

  ghost predicate Answered(c: Call, r: Response, g: GateState, id: Ref) {
    && c.AdmitCall? && id in g.history && g.history[id].intent == c.request.intent
    && r == Admitted(Admission(g.history[id].decision, g.history[id].authorization))
  }

  lemma FirstKept(scope: string, calls: seq<Call>, c: Call, m: nat, id: Ref)
    requires m < |calls|
    ensures FirstAt(scope, calls + [c], m, id) <==> FirstAt(scope, calls, m, id)
  {
    if FirstAt(scope, calls + [c], m, id) {
      forall k | 0 <= k < m ensures !Admits(scope, calls[k], id) {
        assert (calls + [c])[k] == calls[k];
      }
      assert (calls + [c])[m] == calls[m];
    }
    if FirstAt(scope, calls, m, id) {
      forall k | 0 <= k < m ensures !Admits(scope, (calls + [c])[k], id) {
        assert (calls + [c])[k] == calls[k];
      }
    }
  }

  lemma FirstNew(scope: string, calls: seq<Call>, c: Call, id: Ref)
    ensures FirstAt(scope, calls + [c], |calls|, id) <==>
              Admits(scope, c, id) && forall m: nat :: !FirstAt(scope, calls, m, id)
  {
    if exists k :: 0 <= k < |calls| && Admits(scope, calls[k], id) {
      var k :| 0 <= k < |calls| && Admits(scope, calls[k], id);
      var m := Earliest(scope, calls, k, id);
      assert (calls + [c])[k] == calls[k];
    } else {
      forall k | 0 <= k < |calls| ensures !Admits(scope, (calls + [c])[k], id) {
        assert (calls + [c])[k] == calls[k];
      }
    }
  }

  lemma {:induction false} Earliest(scope: string, calls: seq<Call>, k: nat, id: Ref) returns (m: nat)
    requires k < |calls| && Admits(scope, calls[k], id)
    ensures m <= k && FirstAt(scope, calls, m, id)
    decreases k
  {
    if j: nat :| j < k && Admits(scope, calls[j], id) {
      m := Earliest(scope, calls, j, id);
    } else {
      m := k;
    }
  }

  // What one call adds to what is remembered.
  ghost predicate RemembersAlso(scope: string, c: Call, r: Response, g: GateState, next: GateState) {
    && (forall id :: id in next.history <==> id in g.history || Admits(scope, c, id))
    && (forall id :: id in g.history ==>
          && next.history[id].intent == g.history[id].intent && next.history[id].decision == g.history[id].decision
          && next.history[id].authorization == g.history[id].authorization)
    && (forall id :: id !in g.history && Admits(scope, c, id) ==>
          && next.history[id].intent == c.request.intent
          && r == Admitted(Admission(next.history[id].decision, next.history[id].authorization)))
  }

  lemma AdmitRemembers(scope: string, policy: RiskPolicy, g: GateState, r: Request, token: Token)
    ensures var c := AdmitCall(r, token);
            var (next, response) := Perform(scope, policy, g, c);
            RemembersAlso(scope, c, response, g, next)
  {
    if r.intent.scope == scope && r.intent.Identity() !in g.history {
      FirstStep(scope, policy, g, r, token, Evaluated(QuestionFor(policy, g.reservations, r)));
    }
  }

  lemma ClaimRemembers(scope: string, policy: RiskPolicy, g: GateState, a: AuthorizedOrder)
    ensures var c := ClaimCall(a);
            var (next, response) := Perform(scope, policy, g, c);
            RemembersAlso(scope, c, response, g, next)
  {
  }

  lemma StillFirst(scope: string, calls: seq<Call>, rs: seq<Response>, g: GateState, c: Call, r: Response, next: GateState, id: Ref)
    requires Remembers(scope, calls, rs, g) && RemembersAlso(scope, c, r, g, next) && id in next.history
    ensures exists m: nat :: FirstAt(scope, calls + [c], m, id)
  {
    if id in g.history {
      var m: nat :| FirstAt(scope, calls, m, id);
      FirstKept(scope, calls, c, m, id);
    } else {
      FirstNew(scope, calls, c, id);
    }
  }

  lemma StillAnswered(
    scope: string, calls: seq<Call>, rs: seq<Response>, g: GateState, c: Call, r: Response, next: GateState, m: nat,
    id: Ref)
    requires Remembers(scope, calls, rs, g) && RemembersAlso(scope, c, r, g, next) && FirstAt(scope, calls + [c], m, id)
    ensures m <= |calls| && Answered((calls + [c])[m], (rs + [r])[m], next, id)
  {
    if m < |calls| {
      FirstKept(scope, calls, c, m, id);
      assert Answered(calls[m], rs[m], g, id);
    } else {
      FirstNew(scope, calls, c, id);
    }
  }

  lemma RemembersNext(scope: string, calls: seq<Call>, rs: seq<Response>, g: GateState, c: Call, r: Response, next: GateState)
    requires Remembers(scope, calls, rs, g) && RemembersAlso(scope, c, r, g, next)
    ensures Remembers(scope, calls + [c], rs + [r], next)
  {
    forall id | id in next.history ensures exists m: nat :: FirstAt(scope, calls + [c], m, id) {
      StillFirst(scope, calls, rs, g, c, r, next, id);
    }
    forall m: nat, id | FirstAt(scope, calls + [c], m, id) ensures Answered((calls + [c])[m], (rs + [r])[m], next, id) {
      StillAnswered(scope, calls, rs, g, c, r, next, m, id);
    }
  }

  lemma {:induction false} RunRemembers(scope: string, policy: RiskPolicy, calls: seq<Call>)
    ensures Remembers(scope, calls, Responses(scope, policy, calls), StateAfter(scope, policy, calls))
  {
    if calls != [] {
      var front, c := Front(calls), Last(calls);
      var g := StateAfter(scope, policy, front);
      var (next, r) := Perform(scope, policy, g, c);
      FrontAndLast(calls);
      RunRemembers(scope, policy, front);
      if c.AdmitCall? {
        AdmitRemembers(scope, policy, g, c.request, c.token);
      } else {
        ClaimRemembers(scope, policy, g, c.authorization);
      }
      RemembersNext(scope, front, Responses(scope, policy, front), g, c, r, next);
    }
  }

  // The answer to a call, from the state before it.
  lemma AnswerAt(scope: string, policy: RiskPolicy, calls: seq<Call>, n: nat)
    requires n < |calls|
    ensures |Responses(scope, policy, calls)| == |calls|
    ensures Responses(scope, policy, calls)[n] == Perform(scope, policy, StateAfter(scope, policy, calls[..n]), calls[n]).1
    ensures Responses(scope, policy, calls)[..n] == Responses(scope, policy, calls[..n])
  {
    ResponsesLength(scope, policy, calls);
    ResponsesLength(scope, policy, Front(calls));
    if n == |calls| - 1 {
      assert calls[..n] == Front(calls);
      LastAnswer(scope, policy, calls);
    } else {
      AnswerAt(scope, policy, Front(calls), n);
      assert Front(calls)[..n] == calls[..n];
      LastAnswer(scope, policy, calls);
      SameStart(Responses(scope, policy, Front(calls)), Last(Responses(scope, policy, calls)), n);
    }
  }

  lemma LastAnswer(scope: string, policy: RiskPolicy, calls: seq<Call>)
    requires calls != []
    ensures Responses(scope, policy, calls)
         == Responses(scope, policy, Front(calls))
            + [Perform(scope, policy, StateAfter(scope, policy, Front(calls)), Last(calls)).1]
  {
  }

  lemma SameStart<T>(s: seq<T>, x: T, n: nat)
    requires n < |s|
    ensures (s + [x])[..n] == s[..n] && (s + [x])[n] == s[n]
  {
  }

  lemma {:induction false} ResponsesLength(scope: string, policy: RiskPolicy, calls: seq<Call>)
    ensures |Responses(scope, policy, calls)| == |calls|
  {
    if calls != [] {
      ResponsesLength(scope, policy, Front(calls));
    }
  }

  // An intent of another scope is refused with an error, and only such an admission is.
  lemma ForeignScopeRaises(scope: string, policy: RiskPolicy, calls: seq<Call>, n: nat)
    requires n < |calls| && calls[n].AdmitCall?
    ensures |Responses(scope, policy, calls)| == |calls|
    ensures Responses(scope, policy, calls)[n].Raised? <==> calls[n].request.intent.scope != scope
    ensures !Responses(scope, policy, calls)[n].Raised? ==> Responses(scope, policy, calls)[n].Admitted?
  {
    AnswerAt(scope, policy, calls, n);
  }

  // What a retry is answered: never an authorization, but a refusal that names the first decision
  // of its identity, as a duplicate if that had the same payload and as a conflict otherwise.
  ghost predicate RetryAnswer(r: Response, retry: Request, first: Request, answered: Response) {
    && r.Admitted? && answered.Admitted? && r.admission.authorization.None?
    && var d := r.admission.decision;
    && d.intent == retry.intent && d.status == Refused && d.decided == retry.now
    && var f := answered.admission.decision;
    && d.prior == Some(f.Id()) && d.policyId == f.policyId && d.policyFingerprint == f.policyFingerprint
    && d.stateId == f.stateId && d.revision == f.revision && d.stateFingerprint == f.stateFingerprint
    && d.featureReference == f.featureReference && d.quoteReference == f.quoteReference
    && d.reasons == (if retry.intent.Payload() == first.intent.Payload() then {DuplicateIntent} else {IntentIdentityConflict})
  }

  // Over every run, an admission whose identity was admitted before.
  lemma RetryAnswered(scope: string, policy: RiskPolicy, calls: seq<Call>, m: nat, n: nat)
    requires m < n < |calls| && calls[m].AdmitCall? && FirstAt(scope, calls, m, calls[m].request.intent.Identity())
    requires Admits(scope, calls[n], calls[m].request.intent.Identity())
    ensures |Responses(scope, policy, calls)| == |calls|
    ensures RetryAnswer(Responses(scope, policy, calls)[n], calls[n].request, calls[m].request,
                        Responses(scope, policy, calls)[m])
  {
    var id := calls[m].request.intent.Identity();
    AnswerAt(scope, policy, calls, n);
    RunRemembers(scope, policy, calls[..n]);
    FirstAmong(scope, calls, n, m, id);
    assert Responses(scope, policy, calls)[..n][m] == Responses(scope, policy, calls)[m];
  }

  lemma FirstAmong(scope: string, calls: seq<Call>, n: nat, m: nat, id: Ref)
    requires m < n <= |calls|
    ensures FirstAt(scope, calls[..n], m, id) <==> FirstAt(scope, calls, m, id)
  {
    if FirstAt(scope, calls[..n], m, id) {
      forall k | 0 <= k < m ensures !Admits(scope, calls[k], id) {
        assert calls[..n][k] == calls[k];
      }
    }
  }

  // ----- first decisions -----

  // The order an authorization answered reserves.
  function OrderOf(x: Admission): OutstandingOrder
    requires x.authorization.Some?
  {
    var intent := x.decision.intent;
    OutstandingOrder(intent.instrument, intent.Identity(), intent.side, intent.quantity, x.authorization.value.grant)
  }

  ghost predicate Reserves(reservations: seq<OutstandingOrder>, issued: seq<Admission>) {
    && |reservations| == |issued|
    && forall i :: 0 <= i < |issued| ==> issued[i].authorization.Some? && reservations[i] == OrderOf(issued[i])
  }

  lemma ReservedAsIssued(scope: string, policy: RiskPolicy, g: GateState, rs: seq<Response>)
    requires Safe(scope, policy, g) && Recorded(g, rs)
    ensures Reserves(g.reservations, Issued(rs))
  {
    var issued := Issued(rs);
    forall i | 0 <= i < |issued| ensures issued[i].authorization.Some? && g.reservations[i] == OrderOf(issued[i]) {
      var o := g.reservations[i];
      assert IssuedFor(g, o, issued[i]) && o in g.reservations;
      assert StandsFor(g.history, o) && RemembersWell(scope, o.identity, g.history[o.identity]);
    }
  }

  // The supplied state with the orders reserved by earlier authorizations that it does not list.
  ghost predicate Effective(given: RiskState, issued: seq<Admission>, state: RiskState) {
    && state == given.(id := state.id, revision := state.revision, orders := state.orders)
    && given.orders <= state.orders
    && (forall o :: o in state.orders <==>
          o in given.orders || exists x :: x in issued && x.authorization.Some? && o == OrderOf(x))
    && state.revision == given.revision + |state.orders| - |given.orders|
    && (state.orders == given.orders ==> state == given)
    && (state.orders != given.orders ==> state.id == MergedState(given.id))
  }

  lemma MergedEffective(given: RiskState, reservations: seq<OutstandingOrder>, issued: seq<Admission>)
    requires Reserves(reservations, issued)
    ensures Effective(given, issued, Merged(reservations, given))
  {
    MergedOrders(reservations, given);
    forall o ensures o in reservations <==> exists x :: x in issued && x.authorization.Some? && o == OrderOf(x) {
      if o in reservations {
        var i :| 0 <= i < |reservations| && reservations[i] == o;
        assert issued[i] in issued && o == OrderOf(issued[i]);
      }
      if x :| x in issued && x.authorization.Some? && o == OrderOf(x) {
        var i :| 0 <= i < |issued| && issued[i] == x;
        assert reservations[i] == o;
      }
    }
  }

  // What a first admission is answered over a state: the reasons that apply, and an authorization
  // naming intent, decision and scope exactly when none does.
  ghost predicate FirstAnswer(scope: string, policy: RiskPolicy, c: Call, r: Response, state: RiskState) {
    && c.AdmitCall? && r.Admitted?
    && var req, d := c.request, r.admission.decision;
    && d.intent == req.intent && d.decided == req.now && d.prior == None && d.policyId == policy.policyId
    && d.policyFingerprint == PolicyRef(policy) && d.stateId == state.id && d.revision == state.revision
    && d.stateFingerprint == StateRef(state) && d.featureReference == FeatureRef(req.feature)
    && d.quoteReference == QuoteRef(req.quote)
    && (forall x :: x in d.reasons <==> Warrants(Question(req.intent, policy, state, req.feature, req.quote, req.now), x))
    && (d.status == Authorized <==> d.reasons == {})
    && r.admission.authorization
       == (if d.reasons == {} then
             Some(AuthorizedOrder(GrantRef(d.Id()), req.intent.Identity(), req.intent.Payload(), d.Id(), scope, c.token))
           else None)
  }

  lemma FirstStepAnswers(scope: string, policy: RiskPolicy, g: GateState, r: Request, token: Token)
    requires r.intent.scope == scope && r.intent.Identity() !in g.history
    ensures FirstAnswer(scope, policy, AdmitCall(r, token), Perform(scope, policy, g, AdmitCall(r, token)).1,
                        Merged(g.reservations, r.state))
  {
    FirstStep(scope, policy, g, r, token, Evaluated(QuestionFor(policy, g.reservations, r)));
  }

  // Over every run, the first admission of an identity is judged over the supplied state and what
  // earlier authorizations reserved.
  lemma FirstAnswered(scope: string, policy: RiskPolicy, calls: seq<Call>, n: nat) returns (state: RiskState)
    requires policy.Valid() && n < |calls| && calls[n].AdmitCall?
    requires FirstAt(scope, calls, n, calls[n].request.intent.Identity())
    ensures |Responses(scope, policy, calls)| == |calls|
    ensures Effective(calls[n].request.state, Issued(Responses(scope, policy, calls)[..n]), state)
    ensures FirstAnswer(scope, policy, calls[n], Responses(scope, policy, calls)[n], state)
  {
    var id, front := calls[n].request.intent.Identity(), calls[..n];
    var g, rs := StateAfter(scope, policy, front), Responses(scope, policy, front);
    AnswerAt(scope, policy, calls, n);
    RunRemembers(scope, policy, front);
    NotYet(scope, calls, n, id);
    RunSafe(scope, policy, front);
    RunRecorded(scope, policy, front);
    ReservedAsIssued(scope, policy, g, rs);
    state := Merged(g.reservations, calls[n].request.state);
    MergedEffective(calls[n].request.state, g.reservations, Issued(rs));
    FirstStepAnswers(scope, policy, g, calls[n].request, calls[n].token);
  }

  lemma NotYet(scope: string, calls: seq<Call>, n: nat, id: Ref)
    requires FirstAt(scope, calls, n, id)
    ensures forall m: nat :: !FirstAt(scope, calls[..n], m, id)
  {
    forall m: nat ensures !FirstAt(scope, calls[..n], m, id) {
      if m < n {
        assert calls[..n][m] == calls[m];
      }
    }
  }

  // ----- claims -----

  // Whatever was dispatched was claimed.
  ghost predicate DispatchClaimed(history: map<Ref, Remembered>, claimed: seq<AuthorizedOrder>) {
    forall id :: id in history && history[id].dispatched ==>
      history[id].authorization.Some? && history[id].authorization.value in claimed
  }

  lemma EntryDispatches(
    history: map<Ref, Remembered>, claimed: seq<AuthorizedOrder>, id: Ref, m: Remembered, more: seq<AuthorizedOrder>)
    requires DispatchClaimed(history, claimed) && forall a :: a in claimed ==> a in more
    requires m.dispatched ==> m.authorization.Some? && m.authorization.value in more
    ensures DispatchClaimed(history[id := m], more)
  {
  }

  lemma EffectDispatches(
    scope: string, policy: RiskPolicy, g: GateState, next: GateState, rs: seq<Response>, r: Response, f: Effect)
    requires Safe(scope, policy, g) && DispatchClaimed(g.history, Consumed(rs)) && Effects(scope, g, next, r, f)
    ensures DispatchClaimed(next.history, Consumed(rs + [r]))
  {
    ResponsesSnoc(rs, r);
    var claimed, more := Consumed(rs), Consumed(rs + [r]);
    match f
    case Nothing =>
    case Refusal(intent, d) =>
      EntryDispatches(g.history, claimed, intent.Identity(), Remembered(intent, d, None, false), more);
    case Issuance(intent, d, a) =>
      EntryDispatches(g.history, claimed, intent.Identity(), Remembered(intent, d, Some(a), false), more);
    case Consumption(a) => ClaimDispatches(scope, policy, g, a, claimed);
  }

  lemma ClaimDispatches(
    scope: string, policy: RiskPolicy, g: GateState, a: AuthorizedOrder, claimed: seq<AuthorizedOrder>)
    requires Safe(scope, policy, g) && DispatchClaimed(g.history, claimed) && ClaimStep(scope, g, a).Ok?
    ensures DispatchClaimed(ClaimStep(scope, g, a).value.0.history, claimed + [a])
  {
    ClaimSafe(scope, policy, g, a);
    var id := g.grants[a.grant];
    EntryDispatches(g.history, claimed, id, g.history[id].(dispatched := true), claimed + [a]);
  }

  lemma {:induction false} RunDispatches(scope: string, policy: RiskPolicy, calls: seq<Call>)
    requires policy.Valid()
    ensures DispatchClaimed(StateAfter(scope, policy, calls).history, Consumed(Responses(scope, policy, calls)))
  {
    if calls != [] {
      var g, rs := StateAfter(scope, policy, Front(calls)), Responses(scope, policy, Front(calls));
      RunSafe(scope, policy, Front(calls));
      RunDispatches(scope, policy, Front(calls));
      var f := PerformEffect(scope, policy, g, Last(calls));
      var (next, r) := Perform(scope, policy, g, Last(calls));
      EffectDispatches(scope, policy, g, next, rs, r, f);
    }
  }

  // Where an issued authorization is recorded.
  lemma IssuedRecord(scope: string, g: GateState, rs: seq<Response>, x: Admission) returns (id: Ref)
    requires Sound(scope, g) && Recorded(g, rs) && x in Issued(rs)
    ensures x.authorization.Some? && id in g.history && g.history[id].authorization == x.authorization
    ensures g.history[id].intent == x.decision.intent && RemembersWell(scope, id, g.history[id])
  {
    var i :| 0 <= i < |Issued(rs)| && Issued(rs)[i] == x;
    assert IssuedFor(g, g.reservations[i], x);
    id := g.reservations[i].identity;
  }

  // The grant of a recorded authorization is the record's own.
  lemma GrantOfRecord(scope: string, g: GateState, id: Ref)
    requires Sound(scope, g) && id in g.history && g.history[id].authorization.Some?
    ensures var k := g.history[id].authorization.value.grant; k in g.grants && g.grants[k] == id
  {
    var k := g.history[id].authorization.value.grant;
    assert k in g.grants && GrantHeld(g.history, g.grants, k);
    assert RemembersWell(scope, id, g.history[id]) && RemembersWell(scope, g.grants[k], g.history[g.grants[k]]);
  }

  lemma OwnsRecorded(scope: string, g: GateState, id: Ref, a: AuthorizedOrder)
    requires id in g.history && RemembersWell(scope, id, g.history[id]) && g.history[id].authorization == Some(a)
    requires a.grant in g.grants && g.grants[a.grant] == id
    ensures Own(scope, g, a)
  {
  }

  // A recorded authorization that was not claimed can be.
  lemma UnclaimedClaims(scope: string, g: GateState, rs: seq<Response>, a: AuthorizedOrder, x: Admission)
    requires Sound(scope, g) && Recorded(g, rs) && DispatchClaimed(g.history, Consumed(rs))
    requires x in Issued(rs) && x.authorization == Some(a) && forall c :: c in Consumed(rs) ==> c.grant != a.grant
    ensures ClaimStep(scope, g, a).Ok?
  {
    var id := IssuedRecord(scope, g, rs, x);
    GrantOfRecord(scope, g, id);
    OwnsRecorded(scope, g, id, a);
  }

  lemma ClaimedIntent(scope: string, policy: RiskPolicy, g: GateState, rs: seq<Response>, a: AuthorizedOrder)
    returns (x: Admission)
    requires Safe(scope, policy, g) && Recorded(g, rs) && ConsumedOnce(g, rs) && ClaimStep(scope, g, a).Ok?
    ensures x in Issued(rs) && x.authorization == Some(a) && x.decision.intent == ClaimStep(scope, g, a).value.1
    ensures forall c :: c in Consumed(rs) ==> c.grant != a.grant
  {
    ClaimedFresh(scope, policy, g, a, rs);
    x :| x in Issued(rs) && x.authorization == Some(a);
    var id := IssuedRecord(scope, g, rs, x);
    GrantOfRecord(scope, g, id);
  }

  // Issued earlier, token included, and not claimed before.
  ghost predicate Claimable(earlier: seq<Response>, a: AuthorizedOrder) {
    && (exists x :: x in Issued(earlier) && x.authorization == Some(a))
    && forall c :: c in Consumed(earlier) ==> c.grant != a.grant
  }

  // The intent of the authorization, exactly when that can be claimed.
  ghost predicate ClaimAnswer(r: Response, earlier: seq<Response>, a: AuthorizedOrder) {
    && (r.Claimed? <==> Claimable(earlier, a)) && (r.Raised? <==> !Claimable(earlier, a))
    && (r.Claimed? ==>
          r.authorization == a
          && exists x :: x in Issued(earlier) && x.authorization == Some(a) && x.decision.intent == r.intent)
  }

  lemma ClaimsClaimable(scope: string, policy: RiskPolicy, g: GateState, rs: seq<Response>, a: AuthorizedOrder)
    requires Safe(scope, policy, g) && Recorded(g, rs) && ConsumedOnce(g, rs) && ClaimStep(scope, g, a).Ok?
    ensures Claimable(rs, a)
  {
    var x := ClaimedIntent(scope, policy, g, rs, a);
  }

  lemma ClaimableClaims(scope: string, g: GateState, rs: seq<Response>, a: AuthorizedOrder)
    requires Sound(scope, g) && Recorded(g, rs) && DispatchClaimed(g.history, Consumed(rs)) && Claimable(rs, a)
    ensures ClaimStep(scope, g, a).Ok?
  {
    var x :| x in Issued(rs) && x.authorization == Some(a);
    UnclaimedClaims(scope, g, rs, a, x);
  }

  lemma ClaimResponse(scope: string, policy: RiskPolicy, g: GateState, a: AuthorizedOrder)
    ensures var step, r := ClaimStep(scope, g, a), Perform(scope, policy, g, ClaimCall(a)).1;
            if step.Ok? then r == Claimed(a, step.value.1) else r.Raised?
  {
  }

  lemma ClaimStepAnswers(scope: string, policy: RiskPolicy, g: GateState, rs: seq<Response>, a: AuthorizedOrder, r: Response)
    requires Safe(scope, policy, g) && Recorded(g, rs) && ConsumedOnce(g, rs)
    requires ClaimStep(scope, g, a).Ok? <==> Claimable(rs, a)
    requires var step := ClaimStep(scope, g, a); if step.Ok? then r == Claimed(a, step.value.1) else r.Raised?
    ensures ClaimAnswer(r, rs, a)
  {
    if ClaimStep(scope, g, a).Ok? {
      var x := ClaimedIntent(scope, policy, g, rs, a);
    }
  }

  // Over every run, a claim is answered with the intent of the authorization it names, exactly when
  // the gate issued that authorization earlier, token included, and it was not claimed before.
  lemma ClaimAnswered(scope: string, policy: RiskPolicy, calls: seq<Call>, n: nat)
    requires policy.Valid() && n < |calls| && calls[n].ClaimCall?
    ensures |Responses(scope, policy, calls)| == |calls|
    ensures ClaimAnswer(Responses(scope, policy, calls)[n], Responses(scope, policy, calls)[..n], calls[n].authorization)
  {
    var front := calls[..n];
    AnswerAt(scope, policy, calls, n);
    RunSafe(scope, policy, front);
    RunRecorded(scope, policy, front);
    RunDispatches(scope, policy, front);
    var g, rs, a := StateAfter(scope, policy, front), Responses(scope, policy, front), calls[n].authorization;
    if ClaimStep(scope, g, a).Ok? {
      ClaimsClaimable(scope, policy, g, rs, a);
    } else if Claimable(rs, a) {
      ClaimableClaims(scope, g, rs, a);
    }
    ClaimResponse(scope, policy, g, a);
    ClaimStepAnswers(scope, policy, g, rs, a, Responses(scope, policy, calls)[n]);
  }
}
