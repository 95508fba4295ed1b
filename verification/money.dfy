// Conservation of money over a reconstructed run, and the currency summaries:
// evaluation/historical.py over execution/economics.py.
module Money {
  import opened Collections
  import opened Order
  import opened Domain
  import opened Events
  import opened Execution
  import opened Lifecycle
  import opened Economics
  import opened Runner
  import opened Trades
  import opened Soundness

  function SumBy<T>(f: T -> real, s: seq<T>): real {
    if s == [] then 0.0 else SumBy(f, Front(s)) + f(Last(s))
  }

  lemma {:induction false} SumAppend<T>(f: T -> real, a: seq<T>, b: seq<T>)
    ensures SumBy(f, a + b) == SumBy(f, a) + SumBy(f, b)
  {
    if b == [] {
      assert a + b == a;
    } else {
      assert Front(a + b) == a + Front(b);
      SumAppend(f, a, Front(b));
    }
  }

  lemma {:induction false} SumPermutation<T>(f: T -> real, a: seq<T>, b: seq<T>)
    requires multiset(a) == multiset(b)
    ensures SumBy(f, a) == SumBy(f, b)
  {
    if a == [] {
      assert |b| == |multiset(b)| == 0;
    } else {
      var x := Last(a);
      assert a == Front(a) + [x];
      assert x in multiset(b);
      var k :| 0 <= k < |b| && b[k] == x;
      var rest := b[..k] + b[k + 1..];
      assert b == b[..k] + [x] + b[k + 1..];
      FrontMultiset(a);
      assert multiset(rest) == multiset(b) - multiset{x};
      SumPermutation(f, Front(a), rest);
      SumAppend(f, b[..k], b[k + 1..]);
      SumAppend(f, b[..k] + [x], b[k + 1..]);
      SumAppend(f, b[..k], [x]);
      assert SumBy(f, [x]) == f(x) by { assert Front([x]) == []; }
    }
  }

  // Cash flows and results in one currency.
  function CashIn(currency: string): EconomicExecution -> real {
    (e: EconomicExecution) => if e.config.currency == currency then e.CashFlow() else 0.0
  }

  function NetIn(currency: string): TradeRecord -> real {
    (t: TradeRecord) => if t.entry.config.currency == currency then t.Net() else 0.0
  }

  // A trade's net result is the sum of its two cash flows.
  lemma TradeCash(t: TradeRecord, currency: string)
    requires t.Valid()
    ensures NetIn(currency)(t) == CashIn(currency)(t.entry) + CashIn(currency)(t.exit)
  {
    var q := t.entry.config.quantity;
    assert (t.exit.Price() - t.entry.Price()) * q == t.exit.Price() * q - t.entry.Price() * q;
  }

  function EntriesOf(trades: seq<TradeRecord>): seq<EconomicExecution> {
    Map((t: TradeRecord) => t.entry, trades)
  }

  function ExitsOf(trades: seq<TradeRecord>): seq<EconomicExecution> {
    Map((t: TradeRecord) => t.exit, trades)
  }

  lemma {:induction false} TradesCash(trades: seq<TradeRecord>, currency: string)
    requires forall t :: t in trades ==> t.Valid()
    ensures SumBy(NetIn(currency), trades)
         == SumBy(CashIn(currency), EntriesOf(trades)) + SumBy(CashIn(currency), ExitsOf(trades))
  {
    if trades != [] {
      assert trades == Front(trades) + [Last(trades)];
      TradesCash(Front(trades), currency);
      TradeCash(Last(trades), currency);
      assert Front(EntriesOf(trades)) == EntriesOf(Front(trades));
      assert Front(ExitsOf(trades)) == ExitsOf(Front(trades));
    }
  }

  // The fills a reconstruction accounts for, trade by trade.
  function Ledger(trades: seq<TradeRecord>, open: seq<EconomicExecution>): seq<EconomicExecution> {
    EntriesOf(trades) + ExitsOf(trades) + open
  }

  lemma LedgerIds(trades: seq<TradeRecord>, open: seq<EconomicExecution>)
    ensures ToSet(Map(EconomicAttempt(), Ledger(trades, open)))
         == EntryIds(trades) + ExitIds(trades) + EconomicIds(open)
  {
    var ledger := Ledger(trades, open);
    var ids := Map(EconomicAttempt(), ledger);
    forall id | id in ToSet(ids) ensures id in EntryIds(trades) + ExitIds(trades) + EconomicIds(open) {
      var i :| 0 <= i < |ids| && ids[i] == id;
      if i < |trades| {
        assert ledger[i] == trades[i].entry && trades[i] in trades;
      } else if i < 2 * |trades| {
        assert ledger[i] == trades[i - |trades|].exit && trades[i - |trades|] in trades;
      } else {
        assert ledger[i] == open[i - 2 * |trades|] && open[i - 2 * |trades|] in open;
      }
    }
    forall t | t in trades ensures t.entry.outcome.attempt.id in ids && t.exit.outcome.attempt.id in ids {
      var i :| 0 <= i < |trades| && trades[i] == t;
      assert ids[i] == t.entry.outcome.attempt.id && ids[|trades| + i] == t.exit.outcome.attempt.id;
    }
    forall e | e in open ensures e.outcome.attempt.id in ids {
      var i :| 0 <= i < |open| && open[i] == e;
      assert ids[2 * |trades| + i] == e.outcome.attempt.id;
    }
  }

  lemma ItemsDistinct(items: seq<EconomicExecution>, table: map<AttemptId, EconomicExecution>)
    requires table == Table(EconomicAttempt(), items) && |table| == |items|
    ensures Distinct(items)
    ensures forall x :: x in items ==> x.outcome.attempt.id in table && table[x.outcome.attempt.id] == x
    ensures forall id :: id in table ==> table[id] in items && table[id].outcome.attempt.id == id
  {
    TableDistinct(EconomicAttempt(), items);
    TableElements(EconomicAttempt(), items);
    forall x | x in items ensures x.outcome.attempt.id in table && table[x.outcome.attempt.id] == x {
      assert EconomicAttempt()(x) in table && table[EconomicAttempt()(x)] == x;
    }
    forall id | id in table ensures table[id] in items && table[id].outcome.attempt.id == id {
      assert EconomicAttempt()(table[id]) == id;
    }
    forall i, j | 0 <= i < j < |items| ensures items[i] != items[j] {
      assert EconomicAttempt()(items[i]) != EconomicAttempt()(items[j]);
    }
  }

  lemma InLedger(ledger: seq<EconomicExecution>, table: map<AttemptId, EconomicExecution>, e: EconomicExecution)
    requires forall x :: x in ledger ==> x.outcome.attempt.id in table && table[x.outcome.attempt.id] == x
    requires ToSet(Map(EconomicAttempt(), ledger)) == table.Keys
    requires e.outcome.attempt.id in table && table[e.outcome.attempt.id] == e
    ensures e in ledger
  {
    var ids := Map(EconomicAttempt(), ledger);
    assert e.outcome.attempt.id in ToSet(ids);
    var i :| 0 <= i < |ids| && ids[i] == e.outcome.attempt.id;
    assert ledger[i] in ledger;
  }

  lemma LedgerComplete(
    ledger: seq<EconomicExecution>, items: seq<EconomicExecution>, table: map<AttemptId, EconomicExecution>)
    requires table == Table(EconomicAttempt(), items) && |table| == |items|
    requires forall e :: e in ledger ==> e.outcome.attempt.id in table && table[e.outcome.attempt.id] == e
    requires ToSet(Map(EconomicAttempt(), ledger)) == table.Keys && |table| == |ledger|
    ensures multiset(ledger) == multiset(items)
  {
    FullLengthDistinct(Map(EconomicAttempt(), ledger));
    DistinctMapDistinct(EconomicAttempt(), ledger);
    ItemsDistinct(items, table);
    forall e ensures e in ledger <==> e in items {
      if e in items {
        InLedger(ledger, table, e);
      }
    }
    SameElementsSameMultiset(ledger, items);
  }

  // In every currency the cash flows of all executions are the net results of the
  // completed trades, ordinary and stress alike, and the cash flows of open entries.
  lemma MoneyConserved(result: SimulationResult, currency: string)
    requires Reconstruct(result).Ok?
    ensures var r := Reconstruct(result).value;
            SumBy(CashIn(currency), result.economicExecutions)
            == SumBy(NetIn(currency), r.trades) + SumBy(CashIn(currency), r.openEntries)
  {
    var t, w := Reconstructed(result);
    var r := Reconstruct(result).value;
    ReconciliationSound(result);
    LedgerMatches(result, t, w);
    var ledger := Ledger(r.trades, r.openEntries);
    SumPermutation(CashIn(currency), ledger, result.economicExecutions);
    SumAppend(CashIn(currency), EntriesOf(r.trades) + ExitsOf(r.trades), r.openEntries);
    SumAppend(CashIn(currency), EntriesOf(r.trades), ExitsOf(r.trades));
    TradesCash(r.trades, currency);
  }

  lemma EconomicsTable(result: SimulationResult, t: Tables)
    requires Cover(result) == Ok(t)
    ensures t.economics == Table(EconomicAttempt(), result.economicExecutions)
    ensures |t.economics| == |result.economicExecutions|
  {
    CoverParts(result, t);
    EconomicsCounted(result, t.configs, t.outcomes, t.economics);
  }

  lemma EconomicsCounted(
    result: SimulationResult, configs: map<Instrument, EconomicsConfig>, outcomes: map<AttemptId, Outcome>,
    economics: map<AttemptId, EconomicExecution>)
    requires CoverEconomics(result, configs, outcomes) == Ok(economics)
    ensures economics == Table(EconomicAttempt(), result.economicExecutions)
    ensures |economics| == |result.economicExecutions|
  {
  }

  lemma LedgerMatches(result: SimulationResult, t: Tables, w: Walked)
    requires Reconstruct(result).Ok? && Cover(result) == Ok(t) && Walk(result, t, WalkOrder(result)) == Ok(w)
    requires Reconstruct(result).value.trades == Sort(TradeKey(), w.trades)
    requires Reconstruct(result).value.openEntries == Map(EconomicOf(), Sort(OpeningKey(), w.openings))
    ensures var r := Reconstruct(result).value;
            multiset(Ledger(r.trades, r.openEntries)) == multiset(result.economicExecutions)
  {
    var r := Reconstruct(result).value;
    CoverSound(result, t);
    WalkAccounts(result, t, WalkOrder(result));
    LedgerTabled(t, w, r.trades, r.openEntries);
    LedgerKeys(result, t, r);
    EconomicsTable(result, t);
    LedgerComplete(Ledger(r.trades, r.openEntries), result.economicExecutions, t.economics);
  }

  lemma LedgerKeys(result: SimulationResult, t: Tables, r: Reconstruction)
    requires Reconstruct(result) == Ok(r) && Cover(result) == Ok(t)
    ensures ToSet(Map(EconomicAttempt(), Ledger(r.trades, r.openEntries))) == t.economics.Keys
    ensures |t.economics| == |Ledger(r.trades, r.openEntries)|
  {
    ReconciliationSound(result);
    FilledAreEconomics(result, t);
    CountFilled(result.outcomes);
    LedgerIds(r.trades, r.openEntries);
    assert |t.economics| == |t.economics.Keys|;
  }

  lemma LedgerTabled(t: Tables, w: Walked, trades: seq<TradeRecord>, open: seq<EconomicExecution>)
    requires Tabled(t, w)
    requires trades == Sort(TradeKey(), w.trades)
    requires open == Map(EconomicOf(), Sort(OpeningKey(), w.openings))
    ensures forall e :: e in Ledger(trades, open) ==> InTable(t, e)
  {
    SortElements(TradeKey(), w.trades);
    SortElements(OpeningKey(), w.openings);
    var sorted := Sort(OpeningKey(), w.openings);
    forall i | 0 <= i < |open| ensures InTable(t, open[i]) {
      assert sorted[i] in sorted && sorted[i] in w.openings;
    }
    forall i | 0 <= i < |trades| ensures InTable(t, trades[i].entry) && InTable(t, trades[i].exit) {
      assert trades[i] in trades && trades[i] in w.trades;
    }
    LedgerMembers(t, trades, open);
  }

  lemma LedgerMembers(t: Tables, trades: seq<TradeRecord>, open: seq<EconomicExecution>)
    requires forall i :: 0 <= i < |trades| ==> InTable(t, trades[i].entry) && InTable(t, trades[i].exit)
    requires forall i :: 0 <= i < |open| ==> InTable(t, open[i])
    ensures forall e :: e in Ledger(trades, open) ==> InTable(t, e)
  {
    forall e | e in Ledger(trades, open) ensures InTable(t, e) {
      var i :| 0 <= i < |Ledger(trades, open)| && Ledger(trades, open)[i] == e;
      if i < |trades| {
        assert e == trades[i].entry;
      } else if i < 2 * |trades| {
        assert e == trades[i - |trades|].exit;
      } else {
        assert e == open[i - 2 * |trades|];
      }
    }
  }

  // ----- currency summaries -----

  datatype CurrencySummary = CurrencySummary(currency: string, trades: seq<TradeRecord>)
  {
    function Count(): nat { |trades| }
    function Winning(): nat { |Filter((t: TradeRecord) => t.Net() > 0.0, trades)| }
    function Losing(): nat { |Filter((t: TradeRecord) => t.Net() < 0.0, trades)| }
    function Level(): nat { |Filter((t: TradeRecord) => t.Net() == 0.0, trades)| }
    function GrossTotal(): real { SumBy((t: TradeRecord) => t.Gross(), trades) }
    function FeesTotal(): real { SumBy((t: TradeRecord) => t.Fees(), trades) }
    function NetTotal(): real { SumBy((t: TradeRecord) => t.Net(), trades) }
  }

  function OrdinaryTrade(): TradeRecord -> bool { (t: TradeRecord) => t.Ordinary() }

  function OrdinaryIn(currency: string): TradeRecord -> bool {
    (t: TradeRecord) => t.entry.config.currency == currency && t.Ordinary()
  }

  function Currencies(trades: seq<TradeRecord>): seq<string> {
    if trades == [] then []
    else if Last(trades).entry.config.currency in Currencies(Front(trades)) then Currencies(Front(trades))
    else Currencies(Front(trades)) + [Last(trades).entry.config.currency]
  }

  function TextKey(): string -> Key { (s: string) => [Text(s)] }

  function SummaryFor(trades: seq<TradeRecord>): string -> CurrencySummary {
    (c: string) => CurrencySummary(c, Filter(OrdinaryIn(c), trades))
  }

  function CurrencySummaries(trades: seq<TradeRecord>): seq<CurrencySummary> {
    Map(SummaryFor(trades), Sort(TextKey(), Currencies(trades)))
  }

  function TotalCount(summaries: seq<CurrencySummary>): nat {
    if summaries == [] then 0 else TotalCount(Front(summaries)) + Last(summaries).Count()
  }

  lemma {:induction false} CurrenciesOnce(trades: seq<TradeRecord>)
    ensures Distinct(Currencies(trades))
    ensures forall t :: t in trades ==> t.entry.config.currency in Currencies(trades)
  {
    if trades != [] {
      CurrenciesOnce(Front(trades));
      assert trades == Front(trades) + [Last(trades)];
    }
  }

  // One more trade adds one to the count of its own currency only.
  lemma {:induction false} CountOneMore(trades: seq<TradeRecord>, t: TradeRecord, currencies: seq<string>)
    requires Distinct(currencies)
    ensures TotalCount(Map(SummaryFor(trades + [t]), currencies))
         == TotalCount(Map(SummaryFor(trades), currencies))
            + if t.Ordinary() && t.entry.config.currency in currencies then 1 else 0
  {
    if currencies != [] {
      var front, c := Front(currencies), Last(currencies);
      assert currencies == front + [c];
      assert c !in front;
      CountOneMore(trades, t, front);
      FilterSnoc(OrdinaryIn(c), trades, t);
      assert Front(Map(SummaryFor(trades), currencies)) == Map(SummaryFor(trades), front);
      assert Front(Map(SummaryFor(trades + [t]), currencies)) == Map(SummaryFor(trades + [t]), front);
    }
  }

  lemma {:induction false} NoTradesNoCount(currencies: seq<string>)
    ensures TotalCount(Map(SummaryFor([]), currencies)) == 0
  {
    if currencies != [] {
      NoTradesNoCount(Front(currencies));
      assert Front(Map(SummaryFor([]), currencies)) == Map(SummaryFor([]), Front(currencies));
    }
  }

  lemma {:induction false} CountsAddUp(trades: seq<TradeRecord>, currencies: seq<string>)
    requires Distinct(currencies) && forall t :: t in trades ==> t.entry.config.currency in currencies
    ensures TotalCount(Map(SummaryFor(trades), currencies)) == |Filter(OrdinaryTrade(), trades)|
  {
    if trades == [] {
      NoTradesNoCount(currencies);
    } else {
      assert trades == Front(trades) + [Last(trades)];
      CountsAddUp(Front(trades), currencies);
      CountOneMore(Front(trades), Last(trades), currencies);
    }
  }

  // The per-currency summaries partition the ordinary trades.
  lemma SummariesCountEveryOrdinaryTrade(trades: seq<TradeRecord>)
    ensures TotalCount(CurrencySummaries(trades)) == |Filter(OrdinaryTrade(), trades)|
  {
    CurrenciesOnce(trades);
    var sorted := Sort(TextKey(), Currencies(trades));
    SortElements(TextKey(), Currencies(trades));
    DistinctPermute(Currencies(trades), sorted);
    CountsAddUp(trades, sorted);
  }

  lemma {:induction false} EveryTradeWinsLosesOrLevels(currency: string, trades: seq<TradeRecord>)
    ensures var s := CurrencySummary(currency, trades); s.Winning() + s.Losing() + s.Level() == s.Count()
  {
    if trades != [] {
      EveryTradeWinsLosesOrLevels(currency, Front(trades));
    }
  }

  // A trade's net result is what the sale brings over the purchase, less both fees.
  lemma NetResult(t: TradeRecord)
    requires t.Valid() && t.entry.Valid() && t.exit.Valid()
    ensures t.entry.outcome.price.Some? && t.exit.outcome.price.Some?
    ensures var bought, sold, q := t.entry.outcome.price.value, t.exit.outcome.price.value, t.entry.config.quantity;
            && t.entry.outcome.attempt.kind == Entry && t.exit.outcome.attempt.kind == Exit
            && t.Net() == (sold - bought) * q - t.entry.fee - t.exit.fee
  {
  }

  // How many places of a list hold.
  function Places<T>(p: T -> bool, s: seq<T>): set<nat> {
    set i: nat | i < |s| && p(s[i])
  }

  lemma {:induction false} FilterPlaces<T(!new)>(p: T -> bool, s: seq<T>)
    ensures |Filter(p, s)| == |Places(p, s)|
  {
    if s != [] {
      FilterPlaces(p, Front(s));
      var last := |s| - 1;
      assert Places(p, s) == Places(p, Front(s)) + if p(Last(s)) then {last} else {};
    }
  }

  // A trade wins exactly with a positive net result and loses exactly with a negative one, and the
  // net total is the gross total less the fees.
  lemma SummaryCounts(s: CurrencySummary)
    ensures s.Winning() == |set i: nat | i < |s.trades| && s.trades[i].Net() > 0.0|
    ensures s.Losing() == |set i: nat | i < |s.trades| && s.trades[i].Net() < 0.0|
    ensures s.NetTotal() == s.GrossTotal() - s.FeesTotal()
  {
    var won, lost := (t: TradeRecord) => t.Net() > 0.0, (t: TradeRecord) => t.Net() < 0.0;
    FilterPlaces(won, s.trades);
    FilterPlaces(lost, s.trades);
    assert Places(won, s.trades) == set i: nat | i < |s.trades| && s.trades[i].Net() > 0.0;
    assert Places(lost, s.trades) == set i: nat | i < |s.trades| && s.trades[i].Net() < 0.0;
    TotalsAgree(s.trades);
  }

  lemma {:induction false} TotalsAgree(trades: seq<TradeRecord>)
    ensures var s := CurrencySummary("", trades); s.NetTotal() == s.GrossTotal() - s.FeesTotal()
  {
    if trades != [] {
      TotalsAgree(Front(trades));
    }
  }

  // A currency's summary is over exactly the trades in that currency whose prices are all positive.
  lemma SummaryTrades(trades: seq<TradeRecord>, s: CurrencySummary)
    requires s in CurrencySummaries(trades)
    ensures forall t :: t in s.trades <==>
              && t in trades && t.entry.config.currency == s.currency && t.entry.Price() > 0.0 && t.exit.Price() > 0.0
    ensures exists t :: t in trades && t.entry.config.currency == s.currency
  {
    var currencies := Sort(TextKey(), Currencies(trades));
    SortElements(TextKey(), Currencies(trades));
    var k :| 0 <= k < |currencies| && CurrencySummaries(trades)[k] == s;
    assert currencies[k] in currencies;
    CurrencyTraded(trades, s.currency);
  }

  lemma {:induction false} CurrencyTraded(trades: seq<TradeRecord>, currency: string)
    requires currency in Currencies(trades)
    ensures exists t :: t in trades && t.entry.config.currency == currency
  {
    FrontAndLast(trades);
    if currency in Currencies(Front(trades)) {
      CurrencyTraded(Front(trades), currency);
      var t :| t in Front(trades) && t.entry.config.currency == currency;
      assert t in trades;
    } else {
      assert Last(trades) in trades;
    }
  }
}
