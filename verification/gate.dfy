// The admission gate: risk/gate.py. One lock makes each admission and each claim one step.
module Gate {
  import opened Collections
  import opened Domain
  import opened Execution
  import opened Risk

  // The identity of a private object; a new one is supplied with every admission.
  datatype Token = Token(id: nat)

  // Issued only by a gate; the token is the private object of the grant.
  datatype AuthorizedOrder = AuthorizedOrder(
    grant: Ref, identity: Ref, payload: Ref, decision: Ref, scope: string, token: Token)
  {
    // Equality of authorizations does not look at the token.
    predicate Same(other: AuthorizedOrder) {
      && grant == other.grant && identity == other.identity && payload == other.payload
      && decision == other.decision && scope == other.scope
    }
  }

  datatype Admission = Admission(decision: RiskDecision, authorization: Option<AuthorizedOrder>)

  // What the gate remembers of one first decision.
  datatype Remembered = Remembered(
    intent: OrderIntent, decision: RiskDecision, authorization: Option<AuthorizedOrder>, dispatched: bool)

  // The gate's whole state: decisions by identity, reservations in order, and the
  // identity each grant belongs to.
  datatype GateState = GateState(
    history: map<Ref, Remembered>, reservations: seq<OutstandingOrder>, grants: map<Ref, Ref>)

  const Unused := GateState(map[], [], map[])

  datatype Request = Request(
    intent: OrderIntent, state: RiskState, feature: FeatureSnapshot, quote: Quote, now: int)

  function Absent(orders: seq<OutstandingOrder>): OutstandingOrder -> bool {
    (o: OutstandingOrder) => o !in orders
  }

  // The supplied state with every reservation it does not already echo.
  function Merged(reservations: seq<OutstandingOrder>, state: RiskState): RiskState {
    var more := Filter(Absent(state.orders), reservations);
    if more == [] then state
    else state.(id := MergedState(state.id), revision := state.revision + |more|, orders := state.orders + more)
  }

  lemma MergedOrders(reservations: seq<OutstandingOrder>, state: RiskState)
    ensures forall o :: o in Merged(reservations, state).orders <==> o in state.orders || o in reservations
    ensures Merged(reservations, state) == state <==> forall o :: o in reservations ==> o in state.orders
  {
    var more := Filter(Absent(state.orders), reservations);
    forall o ensures o in more <==> o in reservations && o !in state.orders {
    }
    if more != [] {
      assert more[0] in more;
      assert |state.orders + more| > |state.orders|;
    }
  }

  function RetryDecision(prior: RiskDecision, intent: OrderIntent, reason: RejectionReason, now: int): RiskDecision {
    RiskDecision(intent, Refused, {reason}, prior.policyId, prior.policyFingerprint, prior.stateId, prior.revision,
                 prior.stateFingerprint, prior.featureReference, prior.quoteReference, now, Some(prior.Id()))
  }

  function ReservationFor(intent: OrderIntent, d: RiskDecision): OutstandingOrder {
    OutstandingOrder(intent.instrument, intent.Identity(), intent.side, intent.quantity, GrantRef(d.Id()))
  }

  function AuthorizationFor(intent: OrderIntent, d: RiskDecision, token: Token): AuthorizedOrder {
    AuthorizedOrder(GrantRef(d.Id()), intent.Identity(), intent.Payload(), d.Id(), intent.scope, token)
  }

  function QuestionFor(policy: RiskPolicy, reservations: seq<OutstandingOrder>, r: Request): Question {
    Question(r.intent, policy, Merged(reservations, r.state), r.feature, r.quote, r.now)
  }

  // One admission. The token is the one a new authorization would carry.
  ghost function AdmitStep(scope: string, policy: RiskPolicy, g: GateState, r: Request, token: Token)
    : Result<(GateState, Admission)>
  {
    var id := r.intent.Identity();
    if r.intent.scope != scope then Err("intent operational_scope does not belong to this gate")
    else if id in g.history then
      var prior := g.history[id];
      var reason := if prior.intent.Payload() == r.intent.Payload() then DuplicateIntent else IntentIdentityConflict;
      Ok((g, Admission(RetryDecision(prior.decision, r.intent, reason, r.now), None)))
    else
      var d := Evaluated(QuestionFor(policy, g.reservations, r));
      if d.status == Refused then
        Ok((g.(history := g.history[id := Remembered(r.intent, d, None, false)]), Admission(d, None)))
      else
        var authorization := AuthorizationFor(r.intent, d, token);
        Ok((AfterIssue(g, r.intent, d, authorization), Admission(d, Some(authorization))))
  }

  // The state after a first authorization.
  function AfterIssue(g: GateState, intent: OrderIntent, d: RiskDecision, a: AuthorizedOrder): GateState {
    GateState(g.history[intent.Identity() := Remembered(intent, d, Some(a), false)],
              g.reservations + [ReservationFor(intent, d)], g.grants[a.grant := intent.Identity()])
  }

  lemma SameGate(g: GateState, after: GateState, intent: OrderIntent, d: RiskDecision, a: AuthorizedOrder)
    requires a.grant == GrantRef(d.Id()) && intent.Identity() !in g.history
    requires after.history == g.history[intent.Identity() := Remembered(intent, d, None, false)][
                                intent.Identity() := Remembered(intent, d, Some(a), false)]
    requires after.reservations == g.reservations + [ReservationFor(intent, d)]
    requires after.grants == g.grants[GrantRef(d.Id()) := intent.Identity()]
    ensures after == AfterIssue(g, intent, d, a)
  {
  }

  // A first decision either only is remembered, or also reserves and issues.
  lemma FirstStep(scope: string, policy: RiskPolicy, g: GateState, r: Request, token: Token, d: RiskDecision)
    requires r.intent.scope == scope && r.intent.Identity() !in g.history
    requires d == Evaluated(QuestionFor(policy, g.reservations, r))
    ensures d.status == Refused ==>
              AdmitStep(scope, policy, g, r, token)
              == Ok((g.(history := g.history[r.intent.Identity() := Remembered(r.intent, d, None, false)]),
                     Admission(d, None)))
    ensures d.status == Authorized ==>
              var a := AuthorizationFor(r.intent, d, token);
              AdmitStep(scope, policy, g, r, token)
              == Ok((AfterIssue(g, r.intent, d, a), Admission(d, Some(a))))
  {
  }

  // Whether an authorization is the one recorded for its grant.
  predicate Matches(scope: string, entry: Remembered, a: AuthorizedOrder) {
    && entry.authorization.Some? && entry.authorization.value.Same(a) && entry.authorization.value.token == a.token
    && entry.decision.Id() == a.decision && entry.intent.Identity() == a.identity
    && entry.intent.Payload() == a.payload && a.scope == scope
  }

  // One claim.
  function ClaimStep(scope: string, g: GateState, a: AuthorizedOrder): Result<(GateState, OrderIntent)> {
    if !Own(scope, g, a) then Err("authorization was not issued by this gate")
    else
      var id := g.grants[a.grant];
      if g.history[id].dispatched then Err("authorization has already been consumed")
      else Ok((g.(history := g.history[id := g.history[id].(dispatched := true)]), g.history[id].intent))
  }

  // An own grant not yet consumed is claimed.
  lemma ClaimOwn(scope: string, g: GateState, a: AuthorizedOrder)
    requires Own(scope, g, a) && !g.history[g.grants[a.grant]].dispatched
    ensures var id := g.grants[a.grant];
            ClaimStep(scope, g, a)
            == Ok((g.(history := g.history[id := g.history[id].(dispatched := true)]), g.history[id].intent))
  {
  }

  predicate Own(scope: string, g: GateState, a: AuthorizedOrder) {
    && a.grant in g.grants && g.grants[a.grant] in g.history
    && Matches(scope, g.history[g.grants[a.grant]], a)
  }

  // ----- the gate itself -----

  class AdmissionRecord {
    const intent: OrderIntent
    const decision: RiskDecision
    ghost const identity: Ref
    var authorization: Option<AuthorizedOrder>
    var token: Option<Token>
    var dispatched: bool

    constructor (intent: OrderIntent, decision: RiskDecision)
      ensures this.intent == intent && this.decision == decision
      ensures authorization == None && token == None && !dispatched && identity == intent.Identity()
    {
      this.intent, this.decision, this.identity := intent, decision, intent.Identity();
      authorization, token, dispatched := None, None, false;
    }

    function Value(): Remembered
      reads this
    {
      Remembered(intent, decision, authorization, dispatched)
    }

    // The record has this value, and the token its authorization carries.
    ghost predicate Holds(m: Remembered)
      reads this
    {
      Value() == m && (authorization.Some? ==> token == Some(authorization.value.token))
    }

    ghost predicate Rooted() { identity == intent.Identity() }
  }

  // Every record is remembered under its own identity.
  ghost predicate Identified(history: map<Ref, AdmissionRecord>, model: map<Ref, Remembered>) {
    history.Keys == model.Keys && forall id :: id in history ==> history[id].identity == id && history[id].Rooted()
  }

  // Every grant names a remembered record.
  ghost predicate Granted(history: map<Ref, AdmissionRecord>, grants: map<Ref, AdmissionRecord>, model: map<Ref, Ref>) {
    grants.Keys == model.Keys && forall k :: k in grants ==> model[k] in history && history[model[k]] == grants[k]
  }

  lemma GrantedMore(
    history: map<Ref, AdmissionRecord>, grants: map<Ref, AdmissionRecord>, model: map<Ref, Ref>,
    record: AdmissionRecord, grant: Ref)
    requires Granted(history, grants, model) && record.identity in history && history[record.identity] == record
    ensures Granted(history, grants[grant := record], model[grant := record.identity])
  {
  }

  lemma RememberedMore(
    history: map<Ref, AdmissionRecord>, grants: map<Ref, AdmissionRecord>, model: map<Ref, Remembered>,
    granted: map<Ref, Ref>, record: AdmissionRecord, m: Remembered)
    requires Identified(history, model) && Granted(history, grants, granted) && record.Rooted()
    requires record.identity in history ==> history[record.identity] == record
    ensures Identified(history[record.identity := record], model[record.identity := m])
    ensures Granted(history[record.identity := record], grants, granted)
  {
  }

  class RiskGate {
    const scope: string
    const policy: RiskPolicy
    var history: map<Ref, AdmissionRecord>
    var reservations: seq<OutstandingOrder>
    var grants: map<Ref, AdmissionRecord>
    // The state as a value.
    ghost var model: GateState

    ghost function Records(): set<AdmissionRecord>
      reads this`history
    {
      history.Values
    }

    ghost predicate Valid()
      reads this, Records()
    {
      && reservations == model.reservations && Identified(history, model.history)
      && Granted(history, grants, model.grants)
      && RecordsHold(model)
    }

    // Every record has its value in the model.
    ghost predicate RecordsHold(g: GateState)
      requires history.Keys == g.history.Keys
      reads this`history, Records()
    {
      forall id :: id in history ==> history[id].Holds(g.history[id])
    }

    constructor (scope: string, policy: RiskPolicy)
      requires policy.Valid()
      ensures this.scope == scope && this.policy == policy
      ensures Valid() && model == Unused
    {
      this.scope, this.policy := scope, policy;
      history, reservations, grants := map[], [], map[];
      model := Unused;
    }

    // The supplied orders come first and stay; every reservation is listed; nothing else is, and
    // positions are as supplied.
    method EffectiveState(state: RiskState) returns (r: RiskState)
      ensures r == Merged(reservations, state)
      ensures state.orders <= r.orders && r.positions == state.positions
      ensures forall o :: o in r.orders <==> o in state.orders || o in reservations
      ensures r == state <==> forall o :: o in reservations ==> o in state.orders
    {
      MergedOrders(reservations, state);
      var more := Filter(Absent(state.orders), reservations);
      if more == [] {
        return state;
      }
      r := state.(id := MergedState(state.id), revision := state.revision + |more|, orders := state.orders + more);
    }

    // Remember a first decision.
    method Remember(intent: OrderIntent, decision: RiskDecision) returns (record: AdmissionRecord)
      requires Valid() && intent.Identity() !in history
      modifies this`history, this`model
      ensures Valid() && fresh(record) && history == old(history)[intent.Identity() := record]
      ensures record.intent == intent && record.decision == decision && record.identity == intent.Identity()
      ensures model == old(model).(history := old(model).history[
                intent.Identity() := Remembered(intent, decision, None, false)])
    {
      record := new AdmissionRecord(intent, decision);
      assert Valid();
      RememberedMore(history, grants, model.history, model.grants, record, Remembered(intent, decision, None, false));
      history := history[intent.Identity() := record];
      model := model.(history := model.history[intent.Identity() := Remembered(intent, decision, None, false)]);
    }

    method Reserve(reservation: OutstandingOrder)
      requires Valid()
      modifies this`reservations, this`model
      ensures Valid()
      ensures model == old(model).(reservations := old(model).reservations + [reservation])
    {
      reservations := reservations + [reservation];
      model := model.(reservations := reservations);
    }

    method Grant(record: AdmissionRecord, grant: Ref)
      requires Valid() && record.identity in history && history[record.identity] == record
      modifies this`grants, this`model
      ensures Valid()
      ensures model == old(model).(grants := old(model).grants[grant := record.identity])
    {
      GrantedMore(history, grants, model.grants, record, grant);
      grants := grants[grant := record];
      model := model.(grants := model.grants[grant := record.identity]);
    }

    method Issue(record: AdmissionRecord, token: Token) returns (authorization: AuthorizedOrder)
      requires Valid() && record.identity in history && history[record.identity] == record
      modifies record, this`model
      ensures Valid() && authorization == AuthorizationFor(record.intent, record.decision, token)
      ensures model == old(model).(history := old(model).history[
                record.identity := old(record.Value()).(authorization := Some(authorization))])
    {
      record.token := Some(token);
      authorization := AuthorizationFor(record.intent, record.decision, token);
      record.authorization := Some(authorization);
      model := model.(history := model.history[record.identity := record.Value()]);
      OthersHold(record);
    }

    // Changing one record leaves the others as they were.
    twostate lemma OthersHold(record: AdmissionRecord)
      requires old(Valid()) && old(history) == history
      requires record.identity in history && history[record.identity] == record
      requires model == old(model).(history := old(model).history[record.identity := record.Value()])
      requires reservations == old(reservations) && grants == old(grants)
      requires forall x :: x in Records() && x != record ==> unchanged(x)
      requires record.Holds(record.Value())
      ensures Valid()
    {
      RememberedMore(history, grants, old(model).history, model.grants, record, record.Value());
      assert history[record.identity := record] == history;
      forall id | id in history && id != record.identity ensures history[id].Holds(model.history[id]) {
        assert old(history[id].Holds(model.history[id]));
        assert history[id] != record && history[id] in Records() && unchanged(history[id]);
      }
    }

    method Admit(r: Request, token: Token) returns (result: Result<Admission>)
      requires Valid()
      modifies this
      ensures Valid() && fresh(Records() - old(Records()))
      ensures result.Ok? ==> AdmitStep(scope, policy, old(model), r, token) == Ok((model, result.value))
      ensures result.Err? ==> AdmitStep(scope, policy, old(model), r, token).Err? && model == old(model)
    {
      if r.intent.scope != scope {
        return Err("intent operational_scope does not belong to this gate");
      }
      if r.intent.Identity() in history {
        var prior := history[r.intent.Identity()];
        assert prior.Holds(model.history[r.intent.Identity()]);
        var reason := if prior.intent.Payload() == r.intent.Payload() then DuplicateIntent else IntentIdentityConflict;
        return Ok(Admission(RetryDecision(prior.decision, r.intent, reason, r.now), None));
      }
      var effective := EffectiveState(r.state);
      var decision := EvaluateRisk(Question(r.intent, policy, effective, r.feature, r.quote, r.now));
      var authorization := Decide(r.intent, decision, token);
      FirstStep(scope, policy, old(model), r, token, decision);
      result := Ok(Admission(decision, authorization));
    }

    // A first decision is remembered; an authorization also reserves and is issued.
    method Decide(intent: OrderIntent, decision: RiskDecision, token: Token)
      returns (authorization: Option<AuthorizedOrder>)
      requires Valid() && intent.Identity() !in history
      modifies this
      ensures Valid() && fresh(Records() - old(Records()))
      ensures decision.status == Refused ==>
                authorization == None
                && model == old(model).(history := old(model).history[
                              intent.Identity() := Remembered(intent, decision, None, false)])
      ensures decision.status == Authorized ==>
                authorization == Some(AuthorizationFor(intent, decision, token))
                && model == AfterIssue(old(model), intent, decision, authorization.value)
    {
      var record := Remember(intent, decision);
      authorization := None;
      if decision.status == Authorized {
        Reserve(ReservationFor(intent, decision));
        Grant(record, GrantRef(decision.Id()));
        var issued := Issue(record, token);
        authorization := Some(issued);
        SameGate(old(model), model, intent, decision, issued);
      }
    }

    // The recorded grant an authorization names, if it is this gate's own.
    method OwnRecord(a: AuthorizedOrder) returns (record: AdmissionRecord?)
      requires Valid()
      ensures record != null <==> Own(scope, model, a)
      ensures record != null ==>
                && record.identity == model.grants[a.grant]
                && record.identity in history && history[record.identity] == record
                && record in Records()
                && model.history[model.grants[a.grant]] == record.Value()
    {
      if a.grant !in grants {
        return null;
      }
      record := grants[a.grant];
      assert record.Holds(model.history[model.grants[a.grant]]);
      if record.authorization.None? || !record.authorization.value.Same(a) || record.token != Some(a.token)
         || record.decision.Id() != a.decision || record.intent.Identity() != a.identity
         || record.intent.Payload() != a.payload || a.scope != scope
      {
        return null;
      }
    }

    method ClaimForDispatch(a: AuthorizedOrder) returns (result: Result<OrderIntent>)
      requires Valid()
      modifies this`model, Records()
      ensures Valid() && history == old(history)
      ensures result.Ok? ==> ClaimStep(scope, old(model), a) == Ok((model, result.value))
      ensures result.Err? ==> ClaimStep(scope, old(model), a).Err? && model == old(model)
    {
      var record := OwnRecord(a);
      if record == null {
        result := Err("authorization was not issued by this gate");
      } else if record.dispatched {
        result := Err("authorization has already been consumed");
      } else {
        ClaimOwn(scope, model, a);
        Consume(record);
        result := Ok(record.intent);
      }
    }

    method Consume(record: AdmissionRecord)
      requires Valid() && record.identity in history && history[record.identity] == record
      modifies this`model, record`dispatched
      ensures Valid() && history == old(history)
      ensures model == old(model).(history := old(model).history[
                record.identity := old(record.Value()).(dispatched := true)])
    {
      record.dispatched := true;
      model := model.(history := model.history[record.identity := record.Value()]);
      OthersHold(record);
    }
  }
}
