# A verified model of the shadow trading engine

The repository simulates a mean-reversion strategy over recorded bars and quotes, checks the
evidence a simulation leaves behind, gates paper orders, and runs a live shadow session whose
evidence is captured to a file and replayed. This project models that behaviour in Dafny and proves
what its parts promise one another. There are five groups of modules.

* **Chronological simulator** (`validation`, `kernel`, `strategy`, `events`, `timeline`,
  `execution`, `batch`, `lifecycle`, `process`, `economics`, `runner`, `simulate`, `run`). Signals
  open pending actions, strictly later opportunities attempt fills against the newest legal quote,
  and each instrument runs a flat / pending entry / holding / pending exit machine. Before every
  decision the runner replays the lifecycle over what came strictly earlier, and afterwards it
  passes over all events once. The modules `replay`, `trace`, `causality`, `isolation` and
  `slippage` prove that the replays and the one pass agree, that signals alternate, that appended
  data changes nothing earlier, that instruments do not influence each other, and that slippage
  changes prices and nothing else. `fills`, `proposals`, `timelinetold`, `lifecycletable` and
  `runtold` say what fills, signals, records and the account of a run are in the input's own bars
  and quotes.
* **Evidence reconciler** (`trades`, `documents`, `coverage`, `following`, `endings`,
  `completeness`, `soundness`, `pairs`, `accounting`, `evidencetable`, `money`, `summaries`,
  `tradeslippage`). The reconciler accepts every successful run and reports exactly its consecutive
  fill pairs; on any evidence it accepts, every fill is used once, every other outcome is reported
  as unsuccessful, trades are disjoint in time, and money is conserved.
* **Risk gate** (`risk`, `authority`, `gate`, `gatesafety`, `gateanswers`, `gatemerge`). Admissions
  and claims are atomic steps of a class with mutable records, refined to steps on values; safety
  is proved over every sequence of steps, hence over every interleaving of callers, whatever
  operational state they supply, and what every call is answered is told from the calls and answers
  before it.
* **Shadow session and capture** (`session`, `sessiontold`, `sessionderived`, `sessionreplay`,
  `sessionwindow`, `capture`, `captureconfig`, `capturefile`, `capturerecovery`, `captureexact`). A
  class with mutable fields, refined to steps on values; every record is explained by the records
  before it, replay is a fixpoint, the bounded bar window stands for the full history, and captures
  survive writing, loading, truncation and verification.
* **Numbers and codecs** (`rounding`, `decimals`, `journal`, `journalcodec`, `journalwire`,
  `vocabulary`, `vocabularycodec`, `vocabularydomain`, `arrangements`, `statistics`). Half-even rounding to 34 digits
  (roundTiesToEven, section 4.3.1 of IEEE 754-2008) never makes a modelled price favourable;
  decimal texts and tagged values round-trip, and with the constructors of all 28 records of the
  closed vocabulary the documents decoded are exactly those encoded; z-scores are bounded.

`collections`, `order` and `domain` hold sequences, sort keys and the entities they share.

Code that updates variables is modelled by methods with loops, or by classes, each proved equal to a
specification function; code made of expressions is modelled by functions. The theorems are lemmas
about the specification functions, so they hold of the methods.

Where the source's own promise fails on some input, the exact condition is proved:

* The guard at the end of `_modeled_price` matters exactly for baselines that rounding to 34 digits
  moves in the trader's favour, down for a purchase and up for a sale
  (`Rounding.GuardNeededExactly`), and there are baselines of both kinds
  (`Rounding.LongBaselineRoundsDown`, `Rounding.LongBaselineRoundsUp`).
* A session's replay reproduces its records for every history of calls a caller can make exactly
  when the session's identifier has no outer white space, or it may hold only one record, or its
  source has outer white space and so is no observation's source
  (`SessionReplay.ReplayFixpointExactly`). Otherwise the first bar raises inside the data set check
  after it has already been remembered, and its duplicate is recorded without it
  (`SessionReplay.UntrimmedSessionBreaks`). Under the same condition, and only then, the records say
  what led to them (`SessionDerived.RecordsSayExactly`).
* After an authorization the merged risk state stays consistent exactly when no order the caller
  supplied carries the intent's identity (`GateMerge.AuthorizedStaysConsistent`); a supplied order
  for another instrument can (`GateMerge.AuthorizedYetInconsistent`).
* A record that sorts lists it is given does not depend on their arrangement, except for a risk
  state with positions or orders that tie in what they are sorted by: those keep the order given
  (`Arrangements.ArrangementErasedExactly`).

## Model

| member | source | states |
|---|---|---|
| Validation.ValidateBars | src/shadow/data/validation.py:21-82 | The loop over previous time and identities accepts exactly the data sets that are nonempty, in scope, ordered by observation time and free of repeated identities, and counts their bars. |
| Validation.SameInstrumentIncreasing | src/shadow/data/validation.py:29-66 | In accepted data two bars of one instrument are strictly apart in observation time, in list order. |
| Validation.AcceptedExactly | src/shadow/data/validation.py:21-82 | A collection is accepted exactly when every bar has the data set's interval, an instrument of it, its source and a time within its coverage, times never fall along the list, and times of one instrument always rise. |
| Kernel.Availability | src/shadow/features/kernel.py:53-54 | A feature is available at the latest availability among its inputs: no input is later, and one is that late. |
| Kernel.FeatureWindows | src/shadow/features/kernel.py:44-50 | The loop over per-instrument histories yields, for every bar, the last `window` bars of its own instrument up to it. |
| Kernel.CalculateZScores | src/shadow/features/kernel.py:206-252 | Raises exactly for a bad window or invalid bars, and otherwise returns one snapshot per bar, each a function of its trailing inputs. |
| Kernel.ZScoresIsolated | src/shadow/features/kernel.py:44-50 | The snapshots of one instrument among others are the snapshots of its bars alone. |
| Kernel.ZScoresAppend | src/shadow/features/kernel.py:206-252 | Later bars add snapshots behind the earlier ones, none available before its own bar, and change none. |
| Kernel.BoundedHistorySuffices | src/shadow/features/kernel.py:44-50 | The last `window` bars of an instrument give the same newest snapshot as its whole history. |
| Statistics.VarianceVanishes | src/shadow/features/kernel.py:101-112 | The population variance is never negative and is zero exactly when all values are equal. |
| Statistics.LastDeviationBounded | src/shadow/features/kernel.py:101-112 | The squared deviation of the last value is at most (count - 1) times the population variance. |
| Statistics.FullWindowScores | src/shadow/features/kernel.py:217-251 | A full window is unavailable exactly when all its closes are equal; otherwise it is ready and its squared z-score is at most window - 1. |
| Statistics.SnapshotExactly | src/shadow/features/kernel.py:206-252 | A snapshot is of its last bar, available when its last input is and no earlier, warming up exactly when the window is not full, and has a value exactly when it is ready. |
| Statistics.ReadyScore | src/shadow/features/kernel.py:217-251 | A ready score squared, times the variance of the closes, is the squared distance of the last close from their mean, and the score is negative exactly when that close is below the mean. |
| Statistics.MeanExactly | src/shadow/features/kernel.py:101-112 | The mean times the number of bars is the sum of their closes. |
| Statistics.VarianceExactly | src/shadow/features/kernel.py:101-112 | The variance times the number of bars is the sum of the squared distances of their closes from the mean. |
| Proposals.RunSignalsFounded | src/shadow/simulation/runner.py:398-456 | Every signal of a successful run rests on a full window of its instrument's bars, all available by then, the last one not older than configured, whose last close is at or below mean plus entry threshold times the standard deviation for an entry, and at or above mean plus exit threshold times it for an exit. |
| Domain.RootComparisons | src/shadow/strategies/mean_reversion.py:59-64 | The threshold comparisons on an exact z-score, kept as sign and square, agree with comparing the real quotient. |
| Strategy.ProposesExactly | src/shadow/strategies/mean_reversion.py:45-88 | A signal is proposed exactly when the snapshot is of the configured instrument, feature, version and window, ready with a value, available now and not older than configured, and the score itself, as a real number, is at or below the entry threshold while flat or at or above the exit threshold while holding; it is an entry exactly when flat and names rule, feature, configuration and time. |
| Events.EarlierInOrder | src/shadow/simulation/events.py:28-33 | The canonical key orders events by time, and at one time by causal precedence. |
| Events.OrderExactly | src/shadow/simulation/events.py:86-95 | The canonical order is by time, then causal precedence, then the instrument's identifier, then the event's. |
| Events.StrictlyEarlier | src/shadow/simulation/events.py:86-95 | An event earlier in time, or causally earlier at one time, never sorts after the other. |
| Events.IdKeyInjective | src/shadow/simulation/runner.py:241-260 | Event identifiers with the same key are the same identifier. |
| Timeline.OrderedEvents | src/shadow/simulation/timeline.py:75-82 | Events are ordered by the causal key, or refused exactly when an identifier repeats. |
| Timeline.ProcessTimeline | src/shadow/simulation/timeline.py:100-177 | Returns the ordered events with the records and pending signals of the timeline, and raises exactly for repeated identifiers. |
| Timeline.WalkTimeline | src/shadow/simulation/timeline.py:100-177 | The loop that appends to pending and records computes the timeline's records of the ordered events. |
| Timeline.EligiblePairsExact | src/shadow/simulation/timeline.py:100-177 | The pairs found eligible are exactly the pairs of a signal and an opportunity of one instrument with the opportunity strictly after the signal. |
| TimelineTold.RecordsTold | src/shadow/simulation/timeline.py:100-177 | Every event adds its own records: a signal one that awaits, an opportunity one for each earlier signal of its instrument in order, eligible exactly when strictly later than that signal, and any other event one that says it was processed. |
| TimelineTold.PendingsExactly | src/shadow/simulation/timeline.py:115-124 | The pending signals are all the signals, in order, each with its own time as boundary. |
| Execution.Resolve | src/shadow/execution/models.py:392-459 | Every resolved outcome satisfies the outcome contract, for the attempt and configuration given. |
| Execution.NewestQuoteDecides | src/shadow/execution/models.py:397-459 | The newest legal quote decides: an attempt meeting its contract fills exactly when that quote is neither crossed nor stale, is rejected or unfilled for that quote otherwise, never uses an older one, and finds no quote exactly when none is legal. |
| Execution.ModeledPriceMonotone | src/shadow/execution/models.py:137-164 | In exact arithmetic a modelled price is never better than a nonnegative baseline and never improves as slippage grows. |
| Execution.ResolveSameQuotes | src/shadow/execution/models.py:415-459 | Status, reason and price are the same for every permutation and duplication of the quotes. |
| Execution.ResolveSlippage | src/shadow/execution/models.py:392-459 | Raising slippage keeps attempt, status, evidence and every failure reason; a fill's price only moves against the trader. |
| Fills.ResolvesExactly | src/shadow/execution/models.py:392-459 | An attempt of another model, instrument or time, or not strictly after it became eligible, is rejected for the first of these; any other is decided by the newest quote of its instrument available by then: rejected if that has bid above ask, unfilled if it is older than configured or there is none, and otherwise filled, a purchase at the ask and a sale at the bid, each moved against the trader by the slippage. |
| Fills.ResolveRaises | src/shadow/execution/models.py:137-164 | Resolving raises only for slippage on a negative bid or ask of a quote that the attempt could see. |
| Batch.FindDuplicates | src/shadow/execution/models.py:477-478 | The counting loop finds exactly the attempt identifiers that occur more than once. |
| Batch.ResolveAttempts | src/shadow/execution/models.py:462-492 | The loop over sorted attempts computes the batch, and raises exactly when it does. |
| Batch.BatchOutcomes | src/shadow/execution/models.py:462-492 | A batch gives every attempt one outcome, in canonical order: a rejection exactly when its identifier is shared, and otherwise what resolving it alone gives. |
| Batch.BatchArrangement | src/shadow/execution/models.py:476-492 | Without shared identifiers a batch does not depend on the caller's order. |
| Batch.SensitivityAdverse | src/shadow/execution/models.py:495-513 | Over nonnegative quotes every scenario resolves, alike in everything but price, and along the sorted scenarios prices never become better for the trader. |
| Batch.SensitivityExactly | src/shadow/execution/models.py:495-513 | A sensitivity refuses negative slippage and has one outcome for every scenario, in ascending order, each what resolving the attempt under that slippage gives. |
| Lifecycle.NextValid | src/shadow/simulation/lifecycle.py:147-184 | Every transition of an instrument's state yields a state that meets the state contract, for the same instrument. |
| Lifecycle.SlotFilter | src/shadow/simulation/lifecycle.py:371-638 | Events that cannot move an instrument may be left out of its history without changing its state. |
| Lifecycle.UnseenFlat | src/shadow/simulation/lifecycle.py:217-233 | An instrument without events is flat. |
| Process.ConflictedSignals | src/shadow/simulation/lifecycle.py:254-271 | Grouping by instrument and instant marks exactly the signals that meet an opposite signal of their instrument at their instant. |
| Process.EligibleSet | src/shadow/simulation/lifecycle.py:274-281 | From a computed timeline, a pair is in the set exactly when it is a signal and a strictly later opportunity of the same instrument. |
| Process.EligibleIsLater | src/shadow/simulation/lifecycle.py:274-281 | For a pending action the timeline's pairs hold an opportunity exactly when it is strictly later than the action's boundary. |
| Process.Move | src/shadow/simulation/lifecycle.py:500-526 | One event moves its instrument's state as the transition function says, with eligibility looked up in the timeline's pairs. |
| Process.WalkLifecycle | src/shadow/simulation/lifecycle.py:371-638 | The loop over events, updating states, records, attempts and outcomes, computes the pass of the specification, and raises exactly when some event raises. |
| Process.ProcessLifecycle | src/shadow/simulation/lifecycle.py:334-638 | Raises exactly as specified, and otherwise returns the ordered events, records, final states, unresolved actions, open positions, attempts and outcomes of one pass. |
| LifecycleTable.PassTabled | src/shadow/simulation/lifecycle.py:371-626 | Every record of a pass, and the move of its instrument, is what the table of kinds of events and states says: which signals create an action, are ignored or rejected, when an opportunity is inapplicable, ineligible or an attempt, and what a fill opens or closes; no other instrument moves. |
| LifecycleTable.ConflictRejected | src/shadow/simulation/lifecycle.py:254-271 | Whatever events a caller supplies, exactly the signals that meet an opposite one of their instrument at their instant are recorded as rejected for it, and they move nothing. |
| LifecycleTable.PassResults | src/shadow/simulation/lifecycle.py:623-638 | A pass leaves one final state for each instrument of its events, the pending actions and open positions of those states, and the outcomes of its records in order, each with its attempt. |
| LifecycleTable.FinalOrder | src/shadow/simulation/lifecycle.py:623-623 | The final states come in the order of their instruments' identifiers, each instrument once. |
| Slippage.ArrangementIrrelevant | src/shadow/simulation/lifecycle.py:334-638 | The lifecycle result is the same for every permutation of the events, with the same refusals. |
| Economics.Attach | src/shadow/execution/economics.py:206-223 | Economics are attached to filled outcomes only, keep outcome and configuration, satisfy the economics contract, and are refused exactly for a fill of another instrument. |
| Fills.FillEconomics | src/shadow/execution/economics.py:99-142 | The fee of a fill is the configured share of quantity times price, never negative, and a purchase costs that amount and the fee where a sale brings it less the fee. |
| Simulate.CollectWindows | src/shadow/simulation/runner.py:273-276 | The windows in use, each once. |
| Simulate.GatherByWindow | src/shadow/simulation/runner.py:273-292 | The loop over windows collects, window by window, the snapshots of the instruments configured with it. |
| Simulate.SameSnapshots | src/shadow/simulation/runner.py:273-292 | Gathering by window and gathering by configuration give the same snapshots, each as often. |
| Simulate.ConfiguredFeatures | src/shadow/simulation/runner.py:273-292 | Returns every configured snapshot in canonical order. |
| Simulate.DecisionSnapshots | src/shadow/simulation/runner.py:295-310 | The dictionary loop keeps, for every instrument and instant, the newest snapshot, in canonical order. |
| RunTold.FeaturesExactly | src/shadow/simulation/runner.py:273-292 | The features of a run are exactly the kernel's snapshots of each configured instrument's bars over that instrument's trailing bars, at its own window. |
| RunTold.DecidedOnce | src/shadow/simulation/runner.py:295-310 | For every instrument and instant with a feature there is exactly one evaluation. |
| RunTold.RunDecides | src/shadow/simulation/runner.py:398-456 | Every evaluation is on the newest snapshot of its instrument and instant, in the state the run's earlier events had left the instrument in, and proposes a signal exactly when that snapshot is ready, no action is pending, the evidence is young enough and the score is past the threshold for that state; otherwise it says which of these failed. |
| Trace.OutcomeEvent | src/shadow/simulation/lifecycle.py:313-331 | Every outcome of a pass is the valid outcome of the attempt its own event made for the then pending action. |
| Trace.OutcomeSignal | src/shadow/simulation/lifecycle.py:236-251 | Every outcome goes back to a signal of its own instrument. |
| Replay.ReplayedEvents | src/shadow/simulation/runner.py:313-338 | What a decision replays is exactly the signals and opportunities of the whole run strictly before it, in the same order and under the same conflicts. |
| Replay.ReplayEqualsSinglePass | src/shadow/simulation/runner.py:313-338 | The state each evaluation saw by replaying equals the state of the one final pass just before that instant. |
| Replay.SlotBeforeSignal | src/shadow/simulation/runner.py:398-475 | When a signal is processed, only strictly earlier events have moved its instrument. |
| Replay.EverySignalCreates | src/shadow/simulation/runner.py:398-475 | Every proposed signal is recorded as creating its action in the final pass. |
| Replay.ProposalsAlternate | src/shadow/simulation/runner.py:398-475 | The signals of every instrument alternate entry, exit, beginning with an entry. |
| Run.StateBeforeDecision | src/shadow/simulation/runner.py:313-338 | The replay method returns the state of the specification and raises exactly when the lifecycle over the earlier events does. |
| Run.ReplaySucceeds | src/shadow/simulation/runner.py:313-338 | In a run that succeeds no decision's replay raises. |
| Run.TakeDecisions | src/shadow/simulation/runner.py:398-456 | The decision loop, appending to evaluations and signals, computes the run's evaluations, and raises only when the run fails. |
| Run.Evaluate | src/shadow/simulation/runner.py:409-455 | A decision proposes a signal only from a ready snapshot, for its instrument and at its availability, an entry only when flat and an exit only when holding, and never while an action is pending; it reports a proposal exactly when there is one. |
| Run.OutcomeConfigured | src/shadow/simulation/runner.py:466-475 | Every outcome belongs to a configured instrument, so its economics can be looked up. |
| Run.RunSimulation | src/shadow/simulation/runner.py:349-510 | Succeeds exactly when the bars are valid and validated, no event identifier repeats and the one pass does not raise, and then returns the run's account, in which no replay appears. |
| RunTold.EventsExactly | src/shadow/simulation/runner.py:384-470 | The events of a run are exactly those of its bars, features, signals and opportunities, each at the time it became available, under its own identifier. |
| RunTold.AccountTold | src/shadow/simulation/runner.py:364-510 | The account holds the caller's configurations, quotes and economics in canonical order, all features once, the proposed signals, and two passes over the same events in causal order. |
| RunTold.SignalsInOrder | src/shadow/simulation/runner.py:440-503 | The signals are those of the proposing evaluations, in order. |
| RunTold.RunEconomicsExactly | src/shadow/simulation/runner.py:477-489 | Economics are attached to exactly the fills, in order, each by the configuration of its instrument. |
| Fills.RunFills | src/shadow/simulation/lifecycle.py:500-625 | Every fill of a successful run is at an opportunity of its instrument strictly after a signal of the run that asked for it, and priced on the newest quote available by then, which is neither crossed nor too old. |
| Causality.SameLegalQuotes | src/shadow/execution/models.py:415-420 | Quotes that become available later leave the legal quotes of an earlier attempt unchanged. |
| Causality.DecisionsUnchanged | src/shadow/simulation/runner.py:295-456 | Features, evaluations and signals up to a time are unchanged by data that arrives after it. |
| Causality.AppendOnly | src/shadow/simulation/runner.py:295-475 | Extending the bars by a suffix and adding quotes and opportunities, all later than a time, leaves every feature, evaluation, lifecycle record, attempt and outcome up to that time unchanged. |
| Isolation.FeaturesAlone | src/shadow/simulation/runner.py:273-292 | An instrument's features in a run on its bars alone are its features in the full run. |
| Isolation.RecordsAlone | src/shadow/simulation/lifecycle.py:371-638 | A pass over one instrument's events leaves that instrument's records of the pass over all events. |
| Isolation.InstrumentIsolation | src/shadow/simulation/runner.py:273-310 | Run alone, an instrument with bars has the features, evaluations, events, lifecycle records and outcomes it has in the full run, which succeeds whenever the full run does. |
| Slippage.NextSlippage | src/shadow/simulation/lifecycle.py:371-638 | One transition under more slippage goes to the same state and leaves the same record but for the price of its outcome. |
| Slippage.SlippageChangesPricesOnly | src/shadow/execution/models.py:392-459 | Raising slippage over nonnegative quotes leaves all features, evaluations, signals, attempts, fill statuses and states of a run unchanged, and whether it succeeds. |
| Trades.Walker.Create | src/shadow/evaluation/trades.py:118-149 | On the walk's mutable variables, an accepted creation adds the action and makes the instrument pending, as the specification does, or raises what it raises. |
| Trades.Walker.Open | src/shadow/evaluation/trades.py:178-185 | An entry fill is kept as an opening and the instrument holds, or the entry raises as specified. |
| Trades.Walker.Close | src/shadow/evaluation/trades.py:186-196 | An exit fill takes the opening of its position out, closes a trade and leaves the instrument flat, or raises as specified. |
| Trades.Walker.TakeUp | src/shadow/evaluation/trades.py:102-220 | One event moves the walk's mutable variables, entering an instrument not met before, to where the specification's check of the event goes, or raises the condition it gives. |
| Trades.WalkEvents | src/shadow/evaluation/trades.py:97-220 | The walk over the events, updating those variables in place, computes the walk of the specification, failing at the same event. |
| Trades.ReconstructTrades | src/shadow/evaluation/trades.py:52-260 | The reconciler as cover, walk and conclusion: the same result and the same refusals. |
| Accounting.EveryOutcomeReported | src/shadow/evaluation/trades.py:254-259 | On any accepted evidence exactly the outcomes that are not fills are reported as unsuccessful, each once and in the order of their attempts, and the outcomes number the unsuccessful ones, twice the trades and the open entries. |
| Accounting.RunOutcomesReported | src/shadow/evaluation/trades.py:254-259 | The same of every successful run with economics. |
| Accounting.AcceptedOutcomesExplained | src/shadow/evaluation/trades.py:102-209 | On any accepted evidence every outcome is that of the attempt which a record of its own event made for the action then pending. |
| Accounting.IncompleteExactly | src/shadow/evaluation/trades.py:247-252 | The incomplete states reported are exactly the declared final states that are not flat. |
| Accounting.TradesByExit | src/shadow/evaluation/trades.py:241-246 | The trades come in the order of their exits. |
| EvidenceTable.PartsAgree | src/shadow/evaluation/trades.py:52-100 | On any accepted evidence timeline and lifecycle hold the same events with one record for each, run and lifecycle the same attempts and outcomes, each attempt that of an outcome, and there is economics of exactly the fills, by the one configuration of the instrument, for the instruments of the strategies. |
| EvidenceTable.AcceptedMoves | src/shadow/evaluation/trades.py:102-220 | On any accepted evidence every event in causal order has a record of it, from the state its instrument was in to the one it went to: an action created from a proposal, an attempt of the pending action with the move its outcome makes, or nothing; no other instrument moves. |
| EvidenceTable.AcceptedEnds | src/shadow/evaluation/trades.py:223-237 | On any accepted evidence the declared final states are those the walk ends in, one for every instrument met, and the unresolved actions and open positions are exactly theirs. |
| EvidenceTable.AcceptedEntries | src/shadow/evaluation/trades.py:238-239 | On any accepted evidence every open entry has its open position and every open position its open entry. |
| Soundness.TableDistinct | src/shadow/evaluation/trades.py:29-36 | A table built by key is as long as its items exactly when no key repeats, and then finds every item by its key. |
| Soundness.CoverSound | src/shadow/evaluation/trades.py:59-95 | Accepted evidence covers itself: attempts, outcomes, events, records and economics agree key by key, and economics belong to exactly the fills. |
| Soundness.StepCases | src/shadow/evaluation/trades.py:102-220 | Every accepted event records no fill, opens exactly one entry with one unused fill, or closes one trade with one unused fill. |
| Soundness.WalkAccounts | src/shadow/evaluation/trades.py:97-220 | At every moment of an accepted walk the fills used so far are exactly those of completed trades and open entries, each once. |
| Soundness.WalkTimed | src/shadow/evaluation/models.py:105-127 | At every moment of an accepted walk trades are valid and disjoint, and openings belong to the states that hold their positions. |
| Soundness.ReconciliationSound | src/shadow/evaluation/trades.py:102-239 | On any accepted evidence the filled outcomes are exactly the entries and exits of the trades and the open entries, twice the trades plus the open entries; each exit is decided and filled strictly after its entry; trades of one instrument are strictly disjoint in time. |
| Coverage.CoverOk | src/shadow/evaluation/trades.py:59-95 | Evidence that accounts for one lifecycle pass, with economics attached to its fills, passes every covering check, giving its own tables. |
| Coverage.RunPassEvidence | src/shadow/simulation/runner.py:457-510 | The account of every successful run is the evidence of its one pass, and signals belong to configured instruments only. |
| Following.TradeValid | src/shadow/evaluation/models.py:105-127 | An exit of the pass closes its instrument's opening with a trade that passes every construction check. |
| Following.WalkFollows | src/shadow/evaluation/trades.py:97-220 | Over the events of a documented pass the walk is accepted event by event and its states, openings and used attempts are those of the pass. |
| Endings.Concludes | src/shadow/evaluation/trades.py:221-260 | After following a pass every closing check holds, and the summary is returned. |
| Completeness.DocumentedReconciles | src/shadow/evaluation/trades.py:52-260 | Any evidence whose tables document one lifecycle pass is accepted. |
| Completeness.PassReconciles | src/shadow/evaluation/trades.py:52-260 | The reconciler accepts the evidence of any pass, its walk has the states, openings and attempts of the pass, and it reports as incomplete exactly the final states that are not flat. |
| Completeness.ReconcilerAcceptsEveryRun | src/shadow/evaluation/trades.py:52-260 | The reconciler accepts every successful run with economics, and reports as incomplete exactly its final states that are not flat. |
| Pairs.WalkPaired | src/shadow/evaluation/trades.py:150-218 | At every moment of an accepted walk the fills of an instrument so far are the legs of its trades, one after the other, and then at most one open entry. |
| Pairs.TradesPairConsecutiveFills | src/shadow/evaluation/trades.py:52-260 | On any accepted evidence the fills of an instrument, in trace order, are entry and exit of its first trade, of its second, and so on, then at most one open entry. |
| Pairs.PassTradesAreFillPairs | src/shadow/evaluation/trades.py:52-260 | The trades reconstructed from the evidence of a pass are exactly the consecutive fills among its outcomes, instrument by instrument. |
| Pairs.RunTradesAreFillPairs | src/shadow/evaluation/trades.py:52-260 | The trades reconstructed from a run are exactly the consecutive entry and exit fills of each instrument. |
| TradeSlippage.FeeMonotone | src/shadow/execution/economics.py:99-142 | A fee of at most the whole notional keeps the order of two cash amounts. |
| TradeSlippage.SlippageNeverHelpsATrade | src/shadow/evaluation/models.py:165-179 | Raising slippage leaves the trades of every instrument paired from the same attempts, raises no trade's gross result, and no net result when the fee is at most 10000 bps. |
| Money.TradeCash | src/shadow/execution/economics.py:122-130 | A trade's net result is the sum of its two execution cash flows. |
| Money.MoneyConserved | src/shadow/execution/economics.py:122-130 | On any accepted evidence and per currency, all execution cash flows add up to the net results of the trades, ordinary and stress, plus the cash flows of open entries. |
| Money.SummariesCountEveryOrdinaryTrade | src/shadow/evaluation/historical.py:111-124 | The counts over the currency summaries add up to the number of ordinary trades. |
| Money.EveryTradeWinsLosesOrLevels | src/shadow/evaluation/historical.py:76-86 | In a summary winning, losing and level trades add up to its count. |
| Money.NetResult | src/shadow/evaluation/models.py:181-191 | A trade's net result is the quantity times what its sale price exceeds its purchase price by, less both fees. |
| Money.SummaryCounts | src/shadow/evaluation/historical.py:48-86 | The winning trades of a summary are those with a positive net result and the losing ones those with a negative one, and its net total is its gross total less its fees. |
| Money.SummaryTrades | src/shadow/evaluation/historical.py:111-124 | A currency's summary is over exactly the trades in it whose two prices are positive, and there is a trade in it. |
| Summaries.WalkActed | src/shadow/evaluation/trades.py:118-196 | At every moment of an accepted walk pending actions were created and are not spent, no two instruments share one, and no action has entered, or left, twice. |
| Summaries.SummariesConstructible | src/shadow/evaluation/historical.py:25-46 | On any accepted evidence every currency summary passes its construction checks: ordinary trades of its currency, with distinct entry and distinct exit actions. |
| Risk.JudgeAge | src/shadow/risk/evaluator.py:110-141 | A time is future exactly when observed or available after now, and stale exactly when it is not and is older than the limit. |
| Risk.CheckConsistency | src/shadow/risk/evaluator.py:143-168 | The set-size comparisons and the per-order checks hold exactly when identities do not repeat and every order fits the position of its instrument. |
| Risk.JudgeEntry | src/shadow/risk/evaluator.py:170-186 | The entry reasons are given exactly when an order is outstanding, a position is already open, or positions and outstanding purchases reach the limit. |
| Risk.JudgeExit | src/shadow/risk/evaluator.py:187-195 | The exit reasons are given exactly when nothing, more or less than the sold quantity is held. |
| Risk.EvaluateRisk | src/shadow/risk/evaluator.py:59-210 | The accumulated reasons are exactly the warranted ones, each defined on its own, and the order is authorized exactly when none is. |
| Authority.PolicyReasons | src/shadow/risk/evaluator.py:84-91 | The reasons about switches and allowlist, in the fields of policy and state; the reasons of retries are never given. |
| Authority.IntentReasons | src/shadow/risk/evaluator.py:93-105 | The reasons about quantity and about intent and signal, in their fields. |
| Authority.LineageReason | src/shadow/risk/evaluator.py:31-56 | The lineage is in order exactly when the feature is the ready one the signal names, fresh when it was decided, and past the threshold of the rule it claims. |
| Authority.AgeReasons | src/shadow/risk/evaluator.py:110-118 | Signal and feature are future or stale exactly by their times, now and the policy's limits. |
| Authority.QuoteReasons | src/shadow/risk/evaluator.py:120-129 | The reasons about the quote, in its instrument, times and prices. |
| Authority.StateReasons | src/shadow/risk/evaluator.py:131-141 | The reasons about operational state and controls, in their times. |
| Authority.ConsistencyReason | src/shadow/risk/evaluator.py:143-168 | The state is inconsistent exactly when an instrument or identifier repeats, a purchase is of an instrument held, or a sale is not of exactly the quantity held. |
| Authority.OutstandingReason | src/shadow/risk/evaluator.py:173-177 | An outstanding order for the instrument is a reason whatever its side. |
| Authority.PurchaseReasons | src/shadow/risk/evaluator.py:170-186 | A purchase is refused for an instrument held, and when positions and outstanding purchases reach the limit. |
| Authority.SaleReason | src/shadow/risk/evaluator.py:187-189 | A sale is refused exactly for that when nothing of the instrument is held. |
| Authority.SaleQuantityReasons | src/shadow/risk/evaluator.py:187-195 | Over positions of distinct instruments a sale is partial exactly when less than held is sold, and an oversell exactly when more is. |
| Authority.IdentityExactly | src/shadow/risk/models.py:218-223 | Two intents have the same identity exactly when scope, instrument, rule, configuration, proposal and feature are the same. |
| Authority.PayloadExactly | src/shadow/risk/models.py:225-241 | Two intents have the same payload exactly when they differ at most in when their signal was decided. |
| Authority.DecisionIdExactly | src/shadow/risk/models.py:568-590 | Two decisions have the same identifier exactly when they differ at most in when their signals were decided. |
| Gate.RiskGate.constructor | src/shadow/risk/gate.py:63-73 | A new gate remembers nothing, reserves nothing and has granted nothing. |
| Gate.RiskGate.EffectiveState | src/shadow/risk/gate.py:98-112 | The supplied orders stay, in front; an order is listed exactly when it was supplied or is reserved; positions are as supplied; and the state is the supplied one exactly when it echoes every reservation. |
| Gate.RiskGate.Admit | src/shadow/risk/gate.py:137-212 | On the mutable records, an admission takes the gate's state as a value to the state of the specification's admission step, with its decision and authorization, or refuses without change. |
| Gate.RiskGate.Decide | src/shadow/risk/gate.py:174-212 | A first decision is remembered; an authorization also adds one reservation and one grant and is recorded with its token. |
| Gate.RiskGate.OwnRecord | src/shadow/risk/gate.py:222-235 | A record is found exactly for an authorization this gate issued, token included. |
| Gate.RiskGate.ClaimForDispatch | src/shadow/risk/gate.py:214-239 | A claim takes the gate's state to that of the specification's claim step, or refuses without change. |
| GateSafety.AdmitSafe | src/shadow/risk/gate.py:137-212 | Admission keeps the invariant for any supplied state. |
| GateSafety.ClaimSafe | src/shadow/risk/gate.py:214-239 | A claim keeps the invariant, and succeeds only for a recorded authorization that was not consumed. |
| GateSafety.GateNeverForgets | src/shadow/risk/gate.py:137-212 | Over every run first decisions never change, reservations never shrink, grants never move and a consumed grant stays consumed. |
| GateSafety.RunRecorded | src/shadow/risk/gate.py:98-239 | Over every run the authorizations answered are those recorded, and the claims answered are those consumed, each once. |
| GateSafety.GateSafety | src/shadow/risk/gate.py:98-239 | Over every interleaving, with whatever states callers supply: authorizations have distinct identities and distinct allowed instruments, so grants never outnumber the allowlist; reserved purchases never exceed the position limit; claims succeed at most once per grant and only for issued authorizations. |
| GateAnswers.RetryAnswered | src/shadow/risk/gate.py:115-172 | Over every run, an admission whose identity was admitted before is refused without an authorization, names the first decision, and has as its only reason a duplicate when the first request of that identity had the same payload and an identity conflict otherwise. |
| GateAnswers.FirstAnswered | src/shadow/risk/gate.py:173-212 | Over every run, the first admission of an identity is answered with the reasons warranted over the supplied state and the orders of all earlier authorizations, and with an authorization of the intent exactly when there is none. |
| GateAnswers.ForeignScopeRaises | src/shadow/risk/gate.py:148-149 | Over every run an admission raises exactly when the intent's scope is not the gate's. |
| GateAnswers.ClaimAnswered | src/shadow/risk/gate.py:214-239 | Over every run a claim succeeds exactly when its authorization was answered to an earlier admission and not claimed since, returns that admission's intent, and is refused as foreign or as consumed otherwise. |
| GateMerge.ArrangementKeepsReasons | src/shadow/risk/models.py:408-429 | Rearranging the positions and the orders of a risk state changes no reason, so the canonical order the state gives them does not matter to a decision. |
| GateMerge.EchoChangesNothing | src/shadow/risk/gate.py:98-112 | Echoing any of the gate's reservations not already in the supplied state leaves decision status and reasons as they are. |
| GateMerge.MergeIdempotent | src/shadow/risk/gate.py:98-112 | Merging reservations into a merged state changes nothing. |
| GateMerge.AuthorizedFits | src/shadow/risk/evaluator.py:143-195 | The state an authorization was decided on is consistent, and the authorized order fits its positions. |
| GateMerge.AuthorizedStaysConsistent | src/shadow/risk/evaluator.py:143-195 | After any authorization by a reachable gate, the state merged with its reservations passes every consistency check exactly when no order the caller supplied carries the intent's identity, whatever its instrument; after a purchase positions plus purchases stay within the limit. |
| GateMerge.GrantIsNew | src/shadow/risk/gate.py:186-196 | No order of the state a decision looked at can carry the reference of the grant made from that decision. |
| GateMerge.AuthorizedYetInconsistent | src/shadow/risk/evaluator.py:143-168 | A new gate authorizes one concrete request whose state lists, for another instrument, an order under the intent's identity, and the merged state is then inconsistent. |
| Session.ShadowSession.Control | src/shadow/application/shadow.py:178-192 | A control moves the session's fields as the specification's step does, and returns its record or raises. |
| Session.ShadowSession.Invalid | src/shadow/application/shadow.py:194-205 | The same for an invalid observation. |
| Session.ShadowSession.Accept | src/shadow/application/shadow.py:273-349 | The same for an observation, including the calls that raise after fields have changed. |
| Session.ShadowSession.Compute | src/shadow/application/shadow.py:316-324 | The feature of the retained bars is the kernel's newest over them, unless data set or kernel refuse the window. |
| Session.ShadowSession.ObserveRisk | src/shadow/application/shadow.py:240-271 | Risk is not ready exactly when the session holds no quote of the instrument that is available and fresh now; otherwise that quote is the one shown; an evaluation over the configured state carries exactly the warranted reasons and authorizes exactly when there is none. |
| SessionTold.RaisesExactly | src/shadow/application/shadow.py:137-289 | In every reachable session a call raises exactly when its time falls back, the record bound is reached, the session has ended, the control is unknown, or the observation is not of the session, and what it changes then is written out. |
| SessionDerived.RecordsSay | src/shadow/application/shadow.py:207-349 | Over every history of calls, told from the records alone: while connected a record is healthy exactly when every strategy's instrument has an accepted bar whose newest is available and within the maximum age at its time, stale when that fails though some bar was accepted, and starting when none was; an observation is accepted, duplicate, variant, out of order or disconnected by what was recorded before it; a signal is shown only for an accepted bar within the maximum age and is the rule's on a flat position; intent and risk view follow from it, the risk view from the newest quote accepted. |
| SessionDerived.RecordsSayExactly | src/shadow/application/shadow.py:207-349 | The records say this over every history of constructible calls exactly when the session is reproducible. |
| SessionReplay.Replay | src/shadow/application/evidence.py:103-119 | The driver over a mutable session computes the replay of the specification, and raises exactly when it does. |
| SessionReplay.AcceptedLater | src/shadow/application/shadow.py:287-308 | In every reachable session a bar is accepted only strictly after the newest retained bar of its instrument. |
| SessionReplay.AlwaysComputable | src/shadow/data/validation.py:29-66 | In every reachable session the window of an accepted bar passes data set and kernel validation exactly when the session's identifier is trimmed. |
| SessionReplay.StepAlike | src/shadow/application/shadow.py:137-205 | A raising call moves at most clock and health; a recorded call, replayed from its record, does the same again. |
| SessionReplay.ReplayFixpoint | src/shadow/application/evidence.py:103-119 | With a trimmed session, one record at most, or no observation in scope, replaying the records of any history of calls, raising calls included, returns exactly the records. |
| SessionReplay.UntrimmedSessionBreaks | src/shadow/application/evidence.py:103-119 | With an untrimmed session, a trimmed source and room for two records, the history connect, bar, the same bar again consists of calls a caller can make and is not reproduced. |
| SessionReplay.ReplayFixpointExactly | src/shadow/application/evidence.py:103-119 | For every configuration, every history of calls a caller can make is reproduced exactly when the session's identifier is trimmed, at most one record may be held, or the source is untrimmed, which no observation's source is. |
| SessionWindow.WindowFeature | src/shadow/application/shadow.py:312-324 | The kernel over the retained window gives the newest snapshot of the kernel over everything accepted. |
| SessionWindow.WindowRefinesHistory | src/shadow/application/shadow.py:287-328 | Over every history of calls the retained bars are the last window of all accepted bars, accepted times strictly increase, and every recorded feature is the kernel's newest over everything accepted up to it. |
| Capture.ObservationRoundTrip | src/shadow/application/evidence.py:190-269 | Every constructible bar or quote is read back as it was written. |
| CaptureConfig.ConfigRoundTrip | src/shadow/application/evidence.py:437-472 | Every constructible session configuration is read back as it was written, with policy, quantities, strategies and risk state. |
| CaptureConfig.PolicyReadValid | src/shadow/application/evidence.py:316-350 | A policy that is read back is one a gate can be constructed with. |
| CaptureFile.RecordRoundTrip | src/shadow/application/evidence.py:475-528 | A written record is read back as the input it was made from. |
| CaptureFile.EncodeRecordInjective | src/shadow/application/evidence.py:64-86 | Records written alike are alike, so comparing persisted lines compares records. |
| CaptureFile.LoadCapture | src/shadow/application/evidence.py:531-577 | The loading loop computes configuration, inputs, status and diagnostic of the file, and refuses exactly when the specification does. |
| CaptureFile.Loaded | src/shadow/application/evidence.py:567-577 | A loaded capture has a valid configuration, and a diagnostic exactly when it is incomplete. |
| CaptureFile.NotSkipped | src/shadow/application/evidence.py:549-567 | A line that does not read is forgiven only as the cut-short last one. |
| CaptureFile.VerifyCapture | src/shadow/application/evidence.py:580-607 | The verification loop over a mutable session computes the verdict of the specification. |
| CaptureFile.VerificationExact | src/shadow/application/evidence.py:580-607 | Verification accepts exactly the captures whose inputs replay, whose persisted lines are what the replay records, and whose status matches how the replay ends. |
| CaptureExact.ObservationExact | src/shadow/application/evidence.py:190-269 | A tree is read as an observation exactly when it is what that constructible bar or quote is written as. |
| CaptureExact.ConfigExact | src/shadow/application/evidence.py:437-472 | A tree is read as a configuration exactly when it is what that constructible configuration is written as. |
| CaptureExact.InputExact | src/shadow/application/evidence.py:475-528 | A line is read as the input of a place exactly when it has the fields of a record of this session at that place, an action with the observation or detail it calls for, and some health. |
| CaptureExact.LoadExact | src/shadow/application/evidence.py:531-577 | A file loads as a capture exactly when its first line is the terminated header of that constructible configuration, every later line is that of its input, except for one cut at the end, and status and diagnostic say whether it was cut, stopped, failed or ended early. |
| CaptureExact.AcceptedExactly | src/shadow/application/evidence.py:580-607 | Verification accepts exactly when every input replays, the records replayed are written as the lines read, one for one, and a stopped or failed capture ends stopped or failed. |
| CaptureRecovery.CaptureRoundTrip | src/shadow/application/evidence.py:531-607 | The records of any session can be written, loaded and verified, giving identical records. |
| CaptureRecovery.TruncationRecovers | src/shadow/application/evidence.py:531-607 | A capture that lost its last lines, or was cut inside one, loads as incomplete, diagnosed as ended early or cut, and verifies to exactly the records before the loss. |
| CaptureRecovery.TerminatorIrrelevant | src/shadow/application/evidence.py:556-576 | A file whose last line parses loads the same with and without that line's terminator. |
| CaptureRecovery.LostTerminator | src/shadow/application/evidence.py:556-607 | A capture that lost only the terminator of a record's line loads as if it had it and verifies to the same records. |
| Rounding.RoundMonotone | src/shadow/execution/models.py:137-164 | Half-even rounding to 34 digits never reverses an order, for any sign and magnitude. |
| Rounding.RoundFixes | src/shadow/execution/models.py:137-164 | Rounding is odd and leaves every number of at most 34 digits as it is. |
| Rounding.UnguardedMonotone | src/shadow/execution/models.py:143-160 | With each of the three operations rounded, more slippage never improves the unguarded price, nor makes it better than the rounded baseline. |
| Rounding.AdverseRounding | src/shadow/execution/models.py:137-164 | For every nonnegative baseline, of any length, the price is exactly the baseline at zero slippage, never better than it, and monotone in slippage against the trader. |
| Rounding.GuardNeededExactly | src/shadow/execution/models.py:158-164 | Without the guard some slippage would give a price better than the baseline exactly when rounding the baseline alone does, down for a purchase and up for a sale; that takes more than 34 digits. |
| Rounding.RoundNearest | src/shadow/execution/models.py:143-160 | A rounded number is as near as any number of at most 34 digits, and nearer than any other unless its own last digit is even. |
| Rounding.RoundRepresentable | src/shadow/execution/models.py:143-160 | Every rounded number has at most 34 digits. |
| Rounding.ExactPrice | src/shadow/execution/models.py:143-160 | Where the fraction, the factor and the product have at most 34 digits, the rounded price is the exact one. |
| Rounding.LongBaselineRoundsDown | src/shadow/execution/models.py:158-164 | A baseline of 35 digits that rounds down. |
| Rounding.LongBaselineRoundsUp | src/shadow/execution/models.py:158-164 | A baseline of 35 digits that rounds up. |
| Decimals.PrintDecimal | src/shadow/execution/journal_codec.py:79-89 | The digit-stripping loop prints the text of the canonical decimal. |
| Decimals.DecimalRoundTrip | src/shadow/execution/journal_codec.py:79-109 | A decimal's text reads back as its canonical form, which has the same value. |
| Decimals.DecimalTextsExactly | src/shadow/execution/journal_codec.py:92-109 | The texts read are exactly the texts written. |
| Decimals.SameTextSameValue | src/shadow/execution/journal_codec.py:79-109 | Two finite decimals have the same text exactly when they are numerically equal. |
| JournalWire.EncodesTo | src/shadow/execution/journal_codec.py:204-232 | What a value is written as, written out: its tag and payload, names and parts in order, and its leaves as text, a decimal as sign, digits without needless zeros, and exponent, which together make its value. |
| JournalWire.DocumentWritten | src/shadow/execution/journal_codec.py:305-308 | A document names the codec's version and then holds its value's encoding. |
| JournalCodec.ValueRoundTrip | src/shadow/execution/journal_codec.py:204-302 | Every value of the nested vocabulary encodes, and decodes to an equal value. |
| JournalCodec.DocumentRoundTrip | src/shadow/execution/journal_codec.py:305-326 | Every value's canonical document decodes to it. |
| JournalCodec.DocumentSource | src/shadow/execution/journal_codec.py:311-326 | A decoded document is the document of what it decodes to. |
| JournalCodec.DocumentsExactly | src/shadow/execution/journal_codec.py:311-326 | The documents decoded are exactly the documents encoded. |
| VocabularyCodec.SchemaComplete | src/shadow/execution/journal_codec.py:171-201 | Every one of the 28 records of the vocabulary is in the schema, under its own name and with its own fields. |
| VocabularyCodec.NormalSeen | src/shadow/execution/journal_codec.py:79-89 | Putting the decimals of a value in canonical form changes nothing that a constructor can see of it. |
| VocabularyCodec.ChecksStay | src/shadow/execution/broker.py:354-387 | Whatever a constructor does to its arguments, sorting lists or dropping repetitions, its own checks still accept the result, for every record. |
| VocabularyCodec.SchemaLawful | src/shadow/execution/journal_codec.py:280-301 | Every record's constructor, with its checks, its sorting and the dropping of repeated rejection reasons, returns vocabulary that constructing again leaves unchanged. |
| VocabularyCodec.JournalDocumentsExactly | src/shadow/execution/journal_codec.py:311-326 | The documents decoded are exactly the documents encoded, for the repository's own enumerations, records and constructors, with no assumption on them. |
| VocabularyDomain.BarsConstructed | src/shadow/domain/market.py:117-150 | A bar is constructed from decoded parts exactly when the engine's own contract for bars accepts it. |
| VocabularyDomain.QuotesConstructed | src/shadow/domain/market.py:167-189 | The same of quotes. |
| VocabularyDomain.NamesConstructed | src/shadow/domain/market.py:37-80 | Instruments and provenances are constructed exactly when their identifier, or source, is nonempty and trimmed. |
| VocabularyDomain.IntervalsConstructed | src/shadow/domain/market.py:50-52 | A bar interval is constructed exactly when it is positive. |
| VocabularyDomain.ControlsConstructed | src/shadow/risk/models.py:326-336 | Controls are constructed exactly when they were not available before they were observed. |
| VocabularyDomain.PoliciesConstructed | src/shadow/risk/models.py:259-296 | A risk policy is constructed exactly when it is one a gate accepts and has a name. |
| VocabularyDomain.PositionsConstructed | src/shadow/risk/models.py:345-352 | A position is constructed exactly when its quantity is positive and whole and it has a name. |
| Arrangements.ArrangementErasedExactly | src/shadow/risk/models.py:388-434 | Rearranging the lists a record is constructed from, or repeating its rejection reasons, gives the same record for every accepted policy, decision and snapshot; for a risk state exactly when no two different positions, and no two different orders, tie in what they are sorted by. Decimals written differently count as different here. |

## Left out

What the model leaves out, or states in other terms than the source:

- Market-data adapters, the live runner, command line, files, websockets and clocks: input and output; a file is a sequence of lines, and times are parameters.
- SQLite journal, file locks and process ownership: their behaviour is that of the database and the file system.
- The scripted broker, first-binding registries, experiment manifests and data set fingerprints: scripts and single put-if-absent maps. Broker evidence is modelled as journal records only.
- Simple returns, rolling means, variances and standard deviations as features of their own: the simulator and the session use z-scores only.
- Identifiers joined with `:` are injective constructors, and digests are constructors of what they digest, so neither collides.
- Orders among joined identifiers and among quote references compare their parts one after another, not the joined text.
- Times and durations are whole microseconds; ISO 8601 texts are modelled by the text of that count.
- Arithmetic is exact everywhere but in `Rounding`; exponents there are unbounded, and the decimal context's traps, signals and non-finite numbers are not part of this model. A z-score is kept as its sign and the square of its value.
- JSON is modelled as trees, and a line of a capture as a tree or an unreadable fragment, with or without its terminator; the text of strings is carried by the kind of text it is. Integers are read strictly. A record's derived parts are compared as whole trees.
- White space that trimming removes is space, tab, line feed and carriage return.
- Error texts are short stand-ins; which calls raise is modelled, which message they raise only where a caller can tell.
- The canonical order of a risk state's positions and orders: decisions are shown not to depend on it.
- The gate's lock: admissions and claims are single steps, and every interleaving is a sequence of them. The gate's private token objects are identities supplied with each admission.
- Gate.RiskGate.Admit: does not claim that tokens of different admissions differ, because a grant is already unique by its identifier.
- Causality.AppendOnly: compares two runs that both succeed, because a run that raises leaves no account to compare.
- Isolation.InstrumentIsolation: requires at least one bar of the instrument, because the simulator refuses an empty data set.
- CaptureRecovery.CaptureRoundTrip: assumes that details of invalid observations are nonempty, because the loader refuses empty ones, and that the session is reproducible, because replay of the others fails as shown above.
- JournalCodec.DocumentsExactly: takes any schema whose constructors return vocabulary that they return again unchanged; `VocabularyCodec.SchemaLawful` proves this of the repository's own.
- JournalCodec.DocumentSource: rests on the same property of constructors, proved by `VocabularyCodec.SchemaLawful`.
- A constructor that raises something other than a type or value error, as for a missing attribute, passes it through the decoder; here it refuses like the others.
- Session status fields that only describe a run (simulation identifiers, implementation versions, fingerprints) are not part of the account of a run.
