// Fixed-quantity economics of filled outcomes: execution/economics.py.
module Economics {
  import opened Collections
  import opened Domain
  import opened Execution

  datatype EconomicsConfig = EconomicsConfig(
    instrument: Instrument, quantity: real, currency: string, feeBps: real)
  {
    predicate Valid() {
      quantity > 0.0 && feeBps >= 0.0
    }
  }

  function Abs(x: real): real {
    if x < 0.0 then -x else x
  }

  datatype EconomicExecution = EconomicExecution(
    outcome: Outcome, config: EconomicsConfig, grossNotional: real, fee: real)
  {
    // The contract every constructed value meets.
    predicate Valid() {
      && outcome.Valid() && outcome.status == Filled && config.Valid()
      && outcome.attempt.instrument == config.instrument
      && grossNotional == Abs(SignedNotional())
      && fee == grossNotional * (config.feeBps / 10000.0)
    }

    function Price(): real {
      if outcome.price.Some? then outcome.price.value else 0.0
    }

    function SignedNotional(): real {
      Price() * config.quantity
    }

    function CashFlow(): real {
      (if outcome.attempt.Side() == Buy then -SignedNotional() else SignedNotional()) - fee
    }
  }

  // Filled outcomes get economics, other outcomes none.
  function Attach(outcome: Outcome, config: EconomicsConfig): (r: Result<Option<EconomicExecution>>)
    requires outcome.Valid() && config.Valid()
    ensures r.Err? <==> outcome.status == Filled && outcome.attempt.instrument != config.instrument
    ensures r.Ok? ==> (r.value.Some? <==> outcome.status == Filled)
    ensures r.Ok? && r.value.Some? ==>
              r.value.value.Valid() && r.value.value.outcome == outcome && r.value.value.config == config
  {
    if outcome.status != Filled then Ok(None)
    else if outcome.attempt.instrument != config.instrument then Err("economics config instrument")
    else
      var gross := Abs(outcome.price.value * config.quantity);
      Ok(Some(EconomicExecution(outcome, config, gross, gross * (config.feeBps / 10000.0))))
  }
}
