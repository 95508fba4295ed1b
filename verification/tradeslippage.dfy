// More slippage leaves the trade pairings of a run as they were, and no trade does better.
module TradeSlippage {
  import opened Collections
  import opened Order
  import opened Domain
  import opened Events
  import opened Execution
  import opened Lifecycle
  import opened Economics
  import opened Runner
  import opened Replay
  import opened Run
  import opened Slippage
  import opened Trades
  import opened Soundness
  import opened Documents
  import opened Coverage
  import opened Completeness
  import opened Pairs

  // The same outcomes, one by one, at prices no better for the trader.
  ghost predicate AllDearer(l: seq<Outcome>, h: seq<Outcome>) {
    |l| == |h| && forall i :: 0 <= i < |l| ==> Dearer(l[i], h[i])
  }

  lemma {:induction false} OutcomesDearer(l: seq<Record>, h: seq<Record>)
    requires |l| == |h| && forall i :: 0 <= i < |l| ==> SameButPrice(l[i], h[i])
    ensures AllDearer(Outcomes(l), Outcomes(h))
  {
    if l != [] {
      assert SameButPrice(l[|l| - 1], h[|l| - 1]);
      OutcomesDearer(Front(l), Front(h));
    }
  }

  lemma {:induction false} FillsDearer(l: seq<Outcome>, h: seq<Outcome>, instrument: Instrument)
    requires AllDearer(l, h)
    ensures AllDearer(Filter(FilledFor(instrument), l), Filter(FilledFor(instrument), h))
  {
    if l != [] {
      assert Dearer(l[|l| - 1], h[|l| - 1]);
      FillsDearer(Front(l), Front(h), instrument);
    }
  }

  lemma {:induction false} LegsLength(trades: seq<TradeRecord>)
    ensures |Legs(trades)| == 2 * |trades|
  {
    if trades != [] {
      LegsLength(Front(trades));
    }
  }

  lemma {:induction false} LegsAt(trades: seq<TradeRecord>, k: nat)
    requires k < |trades|
    ensures |Legs(trades)| == 2 * |trades|
    ensures Legs(trades)[2 * k] == trades[k].entry.outcome && Legs(trades)[2 * k + 1] == trades[k].exit.outcome
  {
    LegsLength(trades);
    LegsLength(Front(trades));
    if k < |trades| - 1 {
      LegsAt(Front(trades), k);
    }
  }

  // Pairs taken from matching fills match.
  lemma PairsMatch(l: seq<Outcome>, h: seq<Outcome>, x: seq<TradeRecord>, y: seq<TradeRecord>, k: nat)
    requires AllDearer(l, h)
    requires Legs(x) <= l && |l| <= |Legs(x)| + 1 && Legs(y) <= h && |h| <= |Legs(y)| + 1
    ensures |x| == |y|
    ensures k < |x| ==> Dearer(x[k].entry.outcome, y[k].entry.outcome) && Dearer(x[k].exit.outcome, y[k].exit.outcome)
  {
    LegsLength(x);
    LegsLength(y);
    if k < |x| {
      LegsAt(x, k);
      LegsAt(y, k);
      assert Dearer(l[2 * k], h[2 * k]) && Dearer(l[2 * k + 1], h[2 * k + 1]);
    }
  }

  // ----- money -----

  lemma ScaledUp(x: real, y: real, rate: real)
    requires x <= y && 0.0 <= rate <= 1.0
    ensures 0.0 <= y * rate - x * rate <= y - x
  {
    ProductNonnegative(y - x, rate);
    ProductNonnegative(y - x, 1.0 - rate);
    assert (y - x) * rate == y * rate - x * rate;
    assert (y - x) * (1.0 - rate) == (y - x) - (y * rate - x * rate);
  }

  lemma ProductNonnegative(x: real, y: real)
    requires x >= 0.0 && y >= 0.0
    ensures x * y >= 0.0
  {
  }

  // A fee of at most the whole notional changes by no more than the notional does.
  lemma ScaledDifference(x: real, y: real, rate: real, gap: real)
    requires -gap <= y - x <= gap && 0.0 <= rate <= 1.0
    ensures -gap <= y * rate - x * rate <= gap
  {
    if x <= y {
      ScaledUp(x, y, rate);
    } else {
      ScaledUp(y, x, rate);
    }
  }

  // Paying or receiving more of a price keeps its sense after such a fee.
  lemma FeeMonotone(low: real, high: real, rate: real)
    requires low <= high && 0.0 <= rate <= 1.0
    ensures low - Abs(low) * rate <= high - Abs(high) * rate
    ensures low + Abs(low) * rate <= high + Abs(high) * rate
  {
    ScaledDifference(Abs(low), Abs(high), rate, high - low);
  }

  lemma TimesPositive(low: real, high: real, quantity: real)
    requires low <= high && quantity >= 0.0
    ensures low * quantity <= high * quantity
  {
    assert high * quantity - low * quantity == (high - low) * quantity;
  }

  function Rate(config: EconomicsConfig): real { config.feeBps / 10000.0 }

  ghost predicate Charged(x: EconomicExecution, config: EconomicsConfig) {
    && x.config == config && x.outcome.price.Some?
    && x.fee == Abs(x.SignedNotional()) * Rate(config)
  }

  // The legs of a trade have the well-formed economics of one configuration.
  ghost predicate Costed(x: TradeRecord, config: EconomicsConfig) {
    && config.Valid() && Charged(x.entry, config) && Charged(x.exit, config)
    && x.entry.outcome.attempt.kind == Entry && x.exit.outcome.attempt.kind == Exit
  }

  // A trade's totals, from what was paid at entry and got at exit.
  ghost predicate Totals(x: TradeRecord, paid: real, got: real, rate: real) {
    && x.Gross() == got - paid
    && x.Net() == (got - Abs(got) * rate) - (paid + Abs(paid) * rate)
  }

  lemma DifferenceTimes(a: real, b: real, q: real)
    ensures (b - a) * q == b * q - a * q
  {
  }

  lemma CostedTotals(x: TradeRecord, config: EconomicsConfig)
    requires Costed(x, config)
    ensures Totals(x, x.entry.SignedNotional(), x.exit.SignedNotional(), Rate(config))
  {
    DifferenceTimes(x.entry.Price(), x.exit.Price(), config.quantity);
  }

  lemma NotionalOrder(x: EconomicExecution, y: EconomicExecution, config: EconomicsConfig)
    requires config.Valid() && x.config == config && y.config == config && x.Price() <= y.Price()
    ensures x.SignedNotional() <= y.SignedNotional()
  {
    TimesPositive(x.Price(), y.Price(), config.quantity);
  }

  lemma CompareTotals(x: TradeRecord, y: TradeRecord, paid: real, got: real, paidMore: real, gotLess: real, rate: real)
    requires paid <= paidMore && gotLess <= got && rate >= 0.0
    requires Totals(x, paid, got, rate) && Totals(y, paidMore, gotLess, rate)
    ensures y.Gross() <= x.Gross()
    ensures rate <= 1.0 ==> y.Net() <= x.Net()
  {
    if rate <= 1.0 {
      FeeMonotone(paid, paidMore, rate);
      FeeMonotone(gotLess, got, rate);
    }
  }

  lemma RateBounds(config: EconomicsConfig)
    requires config.Valid()
    ensures 0.0 <= Rate(config) && (config.feeBps <= 10000.0 ==> Rate(config) <= 1.0)
  {
  }

  lemma DearerTrade(x: TradeRecord, y: TradeRecord, config: EconomicsConfig)
    requires Costed(x, config) && Costed(y, config)
    requires Dearer(x.entry.outcome, y.entry.outcome) && Dearer(x.exit.outcome, y.exit.outcome)
    ensures y.Gross() <= x.Gross()
    ensures config.feeBps <= 10000.0 ==> y.Net() <= x.Net()
  {
    NotionalOrder(x.entry, y.entry, config);
    NotionalOrder(y.exit, x.exit, config);
    CostedTotals(x, config);
    CostedTotals(y, config);
    RateBounds(config);
    CompareTotals(x, y, x.entry.SignedNotional(), x.exit.SignedNotional(),
                  y.entry.SignedNotional(), y.exit.SignedNotional(), Rate(config));
  }

  // ----- trades of runs -----

  lemma TabledTrades(result: SimulationResult, t: Tables, x: TradeRecord)
    requires Reconstruct(result).Ok? && Cover(result) == Ok(t) && x in Reconstruct(result).value.trades
    ensures InTable(t, x.entry) && InTable(t, x.exit) && x.Valid()
  {
    var _, w := Reconstructed(result);
    CoverSound(result, t);
    WalkAccounts(result, t, WalkOrder(result));
    SortElements(TradeKey(), w.trades);
    ReconciliationSound(result);
  }

  lemma CostedTrade(t: Tables, x: TradeRecord)
    requires InTable(t, x.entry) && InTable(t, x.exit) && x.Valid() && EconomicsListed(t)
    ensures x.Instrument() in t.configs && Costed(x, t.configs[x.Instrument()])
  {
  }

  // The reconstructed trades of one instrument, in order.
  ghost function TradesIn(result: SimulationResult, instrument: Instrument): seq<TradeRecord> {
    var r := Reconstruct(result);
    if r.Ok? then Filter(TradeOf(instrument), r.value.trades) else []
  }

  lemma TradesFromFills(result: SimulationResult, rules: Rules, es: seq<Event>, instrument: Instrument)
    requires PassEvidence(result, rules, es) && EconomicEvidence(result)
    ensures var fills, legs := Filter(FilledFor(instrument), result.outcomes), Legs(TradesIn(result, instrument));
            legs <= fills && |fills| <= |legs| + 1
    ensures forall x :: x in TradesIn(result, instrument) ==>
              instrument in TablesOf(result).configs && Costed(x, TablesOf(result).configs[instrument])
  {
    PassTradesAreFillPairs(result, rules, es, instrument);
    CoverOk(result, rules, es);
    PassDocumented(result, rules, es);
    forall x | x in TradesIn(result, instrument)
      ensures instrument in TablesOf(result).configs && Costed(x, TablesOf(result).configs[instrument])
    {
      TabledTrades(result, TablesOf(result), x);
      CostedTrade(TablesOf(result), x);
    }
  }

  // Results that differ at most in dearer outcomes: the same trades, none of which gains more.
  ghost predicate NoneGains(x: seq<TradeRecord>, y: seq<TradeRecord>) {
    && |x| == |y|
    && forall k :: 0 <= k < |x| ==>
         && x[k].entry.outcome.attempt == y[k].entry.outcome.attempt
         && x[k].exit.outcome.attempt == y[k].exit.outcome.attempt
         && y[k].Gross() <= x[k].Gross()
         && (x[k].entry.config.feeBps <= 10000.0 ==> y[k].Net() <= x[k].Net())
  }

  lemma DearerTrades(
    l: SimulationResult, h: SimulationResult, a: Rules, b: Rules, es: seq<Event>, instrument: Instrument)
    requires PassEvidence(l, a, es) && EconomicEvidence(l) && PassEvidence(h, b, es) && EconomicEvidence(h)
    requires l.economics == h.economics && AllDearer(l.outcomes, h.outcomes)
    ensures NoneGains(TradesIn(l, instrument), TradesIn(h, instrument))
  {
    FillsDearer(l.outcomes, h.outcomes, instrument);
    TradesFromFills(l, a, es, instrument);
    TradesFromFills(h, b, es, instrument);
    assert TablesOf(l).configs == TablesOf(h).configs;
    TradesCompared(Filter(FilledFor(instrument), l.outcomes), Filter(FilledFor(instrument), h.outcomes),
                   TradesIn(l, instrument), TradesIn(h, instrument), TablesOf(l).configs, instrument);
  }

  lemma TradesCompared(
    l: seq<Outcome>, h: seq<Outcome>, x: seq<TradeRecord>, y: seq<TradeRecord>,
    configs: map<Instrument, EconomicsConfig>, instrument: Instrument)
    requires AllDearer(l, h)
    requires Legs(x) <= l && |l| <= |Legs(x)| + 1 && Legs(y) <= h && |h| <= |Legs(y)| + 1
    requires forall r :: r in x || r in y ==> instrument in configs && Costed(r, configs[instrument])
    ensures NoneGains(x, y)
  {
    PairsMatch(l, h, x, y, 0);
    forall k: nat | k < |x|
      ensures Dearer(x[k].entry.outcome, y[k].entry.outcome) && Dearer(x[k].exit.outcome, y[k].exit.outcome)
      ensures y[k].Gross() <= x[k].Gross()
      ensures x[k].entry.config.feeBps <= 10000.0 ==> y[k].Net() <= x[k].Net()
    {
      PairsMatch(l, h, x, y, k);
      assert x[k] in x && y[k] in y;
      DearerTrade(x[k], y[k], configs[instrument]);
    }
  }

  // More slippage reconstructs the same trades from the same fills, instrument by instrument;
  // none gains more before fees, nor after fees of at most the whole notional.
  lemma SlippageNeverHelpsATrade(a: SimulationInput, b: SimulationInput, instrument: Instrument)
    requires a.Valid() && b.Valid() && MoreSlippageInput(a, b) && a.economics.Some?
    requires Succeeds(a) && Succeeds(b)
    ensures Reconstruct(Account(a)).Ok? && Reconstruct(Account(b)).Ok?
    ensures NoneGains(TradesIn(Account(a), instrument), TradesIn(Account(b), instrument))
  {
    SlippageChangesPricesOnly(a, b);
    OutcomesDearer(RunPass(a).records, RunPass(b).records);
    RunPassEvidence(a);
    RunPassEvidence(b);
    RunEconomicEvidence(a);
    RunEconomicEvidence(b);
    ReconcilerAcceptsEveryRun(a);
    ReconcilerAcceptsEveryRun(b);
    DearerTrades(Account(a), Account(b), RunRules(a), RunRules(b), RunOrder(a), instrument);
  }
}
