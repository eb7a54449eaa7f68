# Verification of the grid-trading core

This project models the grid-trading core of Aurex Trade and proves properties of the model with the
Dafny verifier. `dafny verify dfyconfig.toml` checks all of it.

## What is modelled

**The backtest triangle.** `CibySlidingGridStrategy` decides where orders should rest, `SimulatedBrokerAdapter`
fills them, and `BacktestRunner` carries callbacks between the two and keeps maps and a ledger of its own.
Each of the three is described twice: once as a state machine on values (`GridModel`, `BrokerModel`,
`RunnerModel`), and once as a class whose methods update its fields in place (`SlidingGrid`,
`SimulatedBroker`, `Runner`). Every method of a class is proved to move the object exactly as the state
machine says, so what is proved about the state machine holds of the class.

- `Agreement`, `DrainAgreement`, `StepAgreement`, `BrokerProofs`, `Books`: every phase of a bar keeps the
  three copies of the truth in step.
- `Quiescence`: the drain of one bar comes to rest, and exactly when its cap loses a signal.
- `GridRun`: the agreement of the three copies over whole runs, and the trim.
- `EveryRun`, `RunCalls`: what every run keeps with any settings: flat sessions, and what holds at every call, in the
  middle of a drain too.
- `CutDrains`, `Banking`, `Commissions`: what survives a drain that its cap cuts short: maps, books, ledger and fees.
- `AgreementIff`: exactly when a step and a run keep the agreement, at every setting.
- `LevelCaps`, `BrokenCaps`: how far the caps on live levels hold in every run, and a run that breaks them.
- `TightGrid`, `DrainSharp`: a grid on which the bound on the levels is sharp.
- `TradeKeys`: the trade map is injective in every run, with any settings.
- `HaltSafety`, `RetiredLevels`, `RestingOrders`: what the strategy may say, for every interleaving of calls.
- `AnchorPair`: when the live engine accepts the two market orders that open a session.
- `Ladder`, `LadderShape`, `GridKeys`, `Rounding`: the price levels, their order and gaps, and their text.
- `MarketData`, `NoLookAhead`: the replay and what it can see.

**Simple mode.** `NetPosition` is the broker's average-cost accounting against a plain cash ledger, `Risk` the
gate in front of orders, `SimpleRun` a whole run; `SimpleRunner` holds the classes. `Drawdown` is the one-pass
drawdown metric.

**The live engine.** `EngineModel` is the reconciliation protocol of `TradingEngine` as a state machine whose
every input is what the broker, the strategy or the clock answers, errors included; calls to the broker and
callbacks to the strategy are kept as a trace. `LiveEngine` is the class. `LiveMatching` is about which fill goes
to which key, `LiveLedger` and `LiveRun` about what is counted and how often, `CloseAllProtocol` about the
close-all, `LoopRun` about the whole loop, `SeparateKeys` about keys with an order or a trade, and `SessionMoney` and
`SessionAccounts` about balances.

**The grid under the live engine.** `LiveGridModel` joins the strategy's state machine to the engine's: the strategy
hears what the engine tells it, and its answers are what the engine handles. `GridTracking`, `LiveGrid` and
`LiveGridRun` prove what the two keep towards each other over every run, `SlideAsks` and `AskedOnce` exactly when a
cycle and a run ask for a side whose order still rests, `RestingTwice` is a run that does, and `LiveGridSessions`
carries the results on sessions over.

**Conventions.** Level prices are whole cents, other amounts are reals with Python's round-half-even written out.
A grid key is a pair of level and side; `GridKeys` proves its text form faithful. Ids are counters in the
backtest and arbitrary numbers in the live engine, where zero stands for the empty text. Slippage is an
arbitrary stream. Tables from a level to its set of sides are held as sets of keys. The order in which a
dictionary or a sorted list of key texts is walked is an arbitrary enumeration, so every result holds for any
order.

## What was found

Where a property fails, the exact condition under which it holds is proved, and a run or an input on the failing side.

- The backtest drain loses a signal exactly when more than 50 wait; the strategy then believes in an order that does
  not exist (`Quiescence.DrainDropsIff`). With positive exits and at most 23 levels ahead and behind it never happens
  (`AgreementIff.FewLevelsAreUncut`), and 23 is sharp: for a grid with cheap exits the three copies agree in every run
  if and only if there are at most 23 (`DrainSharp.TwentyThreeIsSharp`). At every setting a run agrees after each of its
  steps if and only if no drain was cut short (`AgreementIff.RunAgreesUncut`), and with positive exits if and only if at
  most 50 signals waited in each drain (`AgreementIff.RunAgreesIff`). On that grid, with 25 levels the very first bar
  loses a signal, with 24 the bar that ends one session and opens the next.
- What a cut drain costs is at most one side that is believed placed without an order; a close-all that is dropped is
  asked for again. The maps, the books and the ledger stay exact in every run (`CutDrains.WhatADropCosts`,
  `Banking.ExactlyOnceBanking`).
- The caps on live levels hold after every bar that at most 50 left-over signals precede, unless a close-all waits
  (`LevelCaps.DecidedBarIsBounded`). After more the strategy never gets to trim: the bar ends within the caps if and
  only if its fills were (`LevelCaps.UndecidedBarIff`). With 50 levels ahead and none behind the second bar of a run
  can break them (`BrokenCaps.CapsAreBroken`).
- The last bar of the data is never replayed (`NoLookAhead.LastBarIsIgnored`), and at cursor 0 the current bar would
  be the last bar of all (`NoLookAhead.CurrentBarLooksBackIff`).
- Greedy fill matching is right, in every order of the keys and of the snapshot, if and only if each filled key is
  nearer to its own fill than to any other unmatched trade of its side, and no other vanished order has the side of an
  unmatched trade (`LiveMatching.MatchingIsRightIff`). So an order cancelled at the broker
  (`LiveMatching.CancelledOrderCanStealAFill`), or filled between the two reads of a poll, can take another key's fill;
  and even under the condition an order filled between the reads is
  reported as a cancellation (`LiveMatching.FillsReachTheirKeys`).
- A close-all and the poll after it count a trade twice if and only if a trade that was counted is still held once the
  fills of the poll are dealt with (`LiveRun.CountsTwiceIff`). With no order or leg under a key that holds a trade,
  which `LiveGridRun.ClearRunsAgree` and `SeparateKeys.RunKeepsSeparate` establish, that is whenever a close-all closes
  a trade the engine holds and does not end flat (`LiveRun.HeldOverIffLeftBehind`); an honest broker can bring that
  about (`LiveRun.HonestRunCountsTwice`).
- A close-all that cannot read the open trades, or closes them and cannot read what remains, is not counted as a
  failure: any number of them neither stops the engine nor makes it wait (`CloseAllProtocol.UnreadNeverTrips`).
- A comment at src/aurex_trade/engine/trading_engine.py:1734-1738 says a session's realized result never carries a
  prior session's. The next result told is counted from the old baseline unless the close-all ended flat and its
  balance was read (`SessionMoney.CarriesOldSessionIff`).
- Session results partition the run's result as long as the cancel and the balance read that end each session work
  (`SessionAccounts.SessionsPartitionTheLoop`). After a missed read the sum breaks unless the strategy's own tally
  happens to be the balance delta (`SessionMoney.MissedReadBreaksUnlessTallied`). After a failed cancel an order
  outlives its session; the next grid keeps the partition if and only if it reads the balance that was booked
  (`SessionMoney.NextGridKeepsPartitionIff`, and `SessionAccounts.FailedCancelBreaksThePartition` for a run that does
  not).
- The long leg of the anchor pair is accepted if and only if the level below the anchor's, raised like the entry and
  lowered by the buffer, rounds to less than the close (`AnchorPair.LongAcceptedIff`). An offset below gap plus buffer
  is not enough: with gap 1.0, offset 0.999 and no buffer the leg is turned away (`AnchorPair.AlmostTheGapIsTooMuch`);
  a cent and a half less is enough (`AnchorPair.LongByACentAndAHalf`), and with whole-cent settings any offset below
  (`AnchorPair.WholeCentLongAcceptedIff`).
- With whole-cent settings the gap between two neighbouring levels is exact if and only if the anchor is no half cent
  or the gap is an even number of cents (`LadderShape.GapsAreExactIff`).
- Signals left over by a capped drain are handed out at a later price, so a resting entry can lie on the wrong side of
  it: all entries of a bar are clear of its price if and only if the leftovers are (`RestingOrders.BarIsClearIff`).
- While the reads of the trades fail nothing is cancelled. A run never asks for a side whose order still rests if and
  only if every cycle that slides the window finds the orders that are still to be cancelled out of reach, and then the
  engine's orders and trades are the strategy's sides (`AskedOnce.RunAsksOnceIff`); so it is when every cycle follows a
  poll that could read the trades (`LiveGridRun.OrdersAndTradesAreSides`). Otherwise, when price has moved away and
  back, the new order takes the place of the first in the engine's map, and the engine no longer knows of an order that
  it never cancelled (`RestingTwice.FailedReadsLoseAnOrder`).

## Model

| member | source | states |
|---|---|---|
| GridRun.ThreeWayAgreement | src/aurex_trade/backtest/runner.py:144-431 | with positive exits and at most 23 levels ahead and behind, after every step of every run the trade map is a bijection from the filled sides onto the open trades, the order map one from placed sides onto the resting orders, no side is both, a side is placed without an order only at a retired level, nothing is left over and no close-all waits |
| GridRun.StepTheorem | src/aurex_trade/backtest/runner.py:144-187 | with positive exits and at most 23 levels one step keeps that agreement and the exposure bound, processes at most 3 + 2(ahead + behind) signals and drops none |
| GridRun.RunTheorem | src/aurex_trade/backtest/runner.py:69-117 | with positive exits and at most 23 levels agreement and bounded exposure hold between any two steps of any replay |
| LevelCaps.BoundedExposure | src/aurex_trade/domain/strategy/ciby_sliding_grid.py:563-602 | with any settings, in every run whose drains were not cut short, live levels on each side of the anchor are within the directional caps and open trades are at most 2(ahead + behind + 1) after every step |
| LevelCaps.DecidedBarIsBounded | src/aurex_trade/domain/strategy/ciby_sliding_grid.py:563-602 | with any settings and in every run, the same after each bar that at most 50 left-over signals precede, unless a close-all waits |
| LevelCaps.UndecidedBarIff | src/aurex_trade/backtest/runner.py:163-182 | a bar that more than 50 left-over signals precede ends within the caps if and only if its fills were within them at its close |
| BrokenCaps.CapsAreBroken | src/aurex_trade/backtest/runner.py:163-182 | a run of two bars, with at least 50 levels ahead and none behind, that ends beyond the caps |
| LevelCaps.AnchorIsNeverRetired | src/aurex_trade/domain/strategy/ciby_sliding_grid.py:563-602 | with any settings, after every step of every run the anchor's own level is not retired |
| RetiredLevels.AnchorIsNeverRetired | src/aurex_trade/domain/strategy/ciby_sliding_grid.py:563-602 | nor is it in any interleaving of calls on the strategy |
| GridRun.TrimKeepsNearest | src/aurex_trade/domain/strategy/ciby_sliding_grid.py:580-590 | every level a trim retires is at least as far from price as every level it keeps on that side |
| RunCalls.RetiredUntilTheGridIsCleared | src/aurex_trade/domain/strategy/ciby_sliding_grid.py:529-538 | with any settings, once a run has retired a level, no later call of that run hands out an entry for it until the grid is cleared |
| RetiredLevels.RetiredGetNoEntry | src/aurex_trade/domain/strategy/ciby_sliding_grid.py:592-602 | the same in every interleaving of calls on the strategy, with any settings |
| EveryRun.FlatSessions | src/aurex_trade/domain/strategy/ciby_sliding_grid.py:332-391 | with any settings and whether or not signals are dropped, after every step of every run, without an anchor, or paused with no close-all waiting, the broker has no open trade and no resting order |
| RunCalls.EveryCallIsSafe | src/aurex_trade/backtest/runner.py:163-182 | with any settings, at every call of every run, in the middle of a drain too, a session opens only over a broker with no trade and no order, and no entry is for a retired level |
| CutDrains.WhatADropCosts | src/aurex_trade/backtest/runner.py:144-258 | with any settings, after every step of every run both maps are bijections onto the broker's lists, at most one side was lost for every drain that was cut short, and the three copies agree if and only if no side is lost, nothing is left over and no close-all waits |
| Banking.ExactlyOnceBanking | src/aurex_trade/backtest/runner.py:189-258 | with any settings and however many signals are dropped, the runner's ledger is the list of results in the broker's closed trades, no trade is closed twice, and capital is initial capital plus the ledger less commission |
| Banking.FlattenedRunBalances | src/aurex_trade/backtest/runner.py:433-449 | with any settings, after the liquidation at the end of the data the broker is flat and equity less initial capital is the ledger less commission |
| Commissions.OneFeePerTrade | src/aurex_trade/adapters/backtest/broker.py:139-282 | after every step of every run, with any settings, the commission is the fee times the trades ever opened |
| Commissions.RunEarnsItsLedger | src/aurex_trade/backtest/runner.py:433-449 | with any settings, what a finished run earned is the sum of its booked results less one fee for each |
| Agreement.BeforeDrainSurvives | src/aurex_trade/backtest/runner.py:144-162 | processing a bar and reporting its fills and closures keeps the copies as much in step as they were, whatever signals were lost or left over before |
| DrainAgreement.ProcessKeeps | src/aurex_trade/backtest/runner.py:324-431 | handling any signal, a liquidation included, keeps the copies in step |
| DrainAgreement.DrainKeeps | src/aurex_trade/backtest/runner.py:163-182 | a drain that the cap does not cut short ends in agreement with nothing waiting |
| StepAgreement.TrimSurvives | src/aurex_trade/backtest/runner.py:189-212 | walking the keys marked for closing, in any order, leaves no retired level with a trade or an order, in every run |
| BrokerProofs.ProcessBarOutcome | src/aurex_trade/adapters/backtest/broker.py:176-282 | a bar closes exactly the stopped trades, fills exactly the touched orders, keeps ids apart and the books balanced |
| BrokerProofs.CloseTradeRealizes | src/aurex_trade/adapters/backtest/broker.py:284-314 | closing an open trade removes exactly it, and its result goes once to capital and to the closed trades |
| Quiescence.DrainQuiesces | src/aurex_trade/domain/strategy/ciby_sliding_grid.py:310-400 | with positive exits and at most 23 levels, from any step start the calls on one bar come to rest after at most 3 + 2(ahead + behind) signals, through a close-all and a new anchor |
| Quiescence.SettledIsSilent | src/aurex_trade/domain/strategy/ciby_sliding_grid.py:393-400 | a settled grid has nothing more to say at the same price |
| Quiescence.SettledDrain | src/aurex_trade/backtest/runner.py:163-182 | a settled grid drains exactly what is waiting, one signal a round |
| Quiescence.DrainDropsIff | src/aurex_trade/backtest/runner.py:163-182 | the drain of a settled grid drops a signal if and only if more than 50 wait, and then a side is believed placed without an order and the rest of the signals are left over |
| AgreementIff.UncutAgreesIff | src/aurex_trade/backtest/runner.py:144-187 | from agreement, at every setting, the three copies agree after a bar if and only if its drain was not cut short |
| AgreementIff.RunAgreesUncut | src/aurex_trade/backtest/runner.py:69-117 | at every setting a run agrees after each of its steps if and only if none of its drains was cut short |
| AgreementIff.FewLevelsAreUncut | src/aurex_trade/backtest/runner.py:163-182 | with positive exits and at most 23 levels ahead and behind no drain of any run is cut short |
| AgreementIff.StepAgreesIff | src/aurex_trade/backtest/runner.py:144-187 | from agreement, at every setting with positive exits, the three copies agree after a bar if and only if at most 50 signals waited in its drain, a leading close-all counted |
| AgreementIff.RunAgreesIff | src/aurex_trade/backtest/runner.py:69-117 | with positive exits a run agrees after each of its steps if and only if at most 50 signals waited in each of its drains |
| DrainSharp.FirstBarDropsIff | src/aurex_trade/backtest/runner.py:163-182 | one grid, ten apart around a close of 1000 and stood on by a flat bar, drops a signal on its first bar if and only if it has more than 24 levels ahead and behind |
| DrainSharp.TwentyThreeIsSharp | src/aurex_trade/backtest/runner.py:163-182 | for that grid, with exits cheaper than an anchor pair, the copies agree after every step of every run if and only if it has at most 23 levels ahead and behind |
| TradeKeys.RunIsKeyed | src/aurex_trade/backtest/runner.py:214-258 | in every run, with any settings and when drains drop signals too, no two keys share a trade and no key holds an id that is still to be given out |
| HaltSafety.NoEntryAfterTrip | src/aurex_trade/domain/strategy/ciby_sliding_grid.py:354-369 | once the daily limit trips no entry is handed out that day, whatever calls come in between |
| HaltSafety.CloseAllIsRepeated | src/aurex_trade/domain/strategy/ciby_sliding_grid.py:332-352 | until completion is notified every cycle asks for the same liquidation, across midnight too |
| HaltSafety.ExitsLiquidate | src/aurex_trade/domain/strategy/ciby_sliding_grid.py:354-380 | every exit starts such a liquidation with its own reason, and only the daily limit pauses the strategy |
| HaltSafety.EntriesComeAnchored | src/aurex_trade/domain/strategy/ciby_sliding_grid.py:382-400 | in every interleaving of calls an entry is handed out only by a strategy that has an anchor by then |
| RestingOrders.StopsAreNeverTurnedAway | src/aurex_trade/engine/trading_engine.py:1940-1958 | in every interleaving of calls the stop of every resting entry is on its losing side |
| RestingOrders.BarIsClearIff | src/aurex_trade/domain/strategy/ciby_sliding_grid.py:604-655 | all resting entries of a bar are handed out at least 2.0 from its price on their quiet side, whatever callbacks come between, if and only if those left over from earlier bars are |
| RestingOrders.EntriesRest | src/aurex_trade/domain/strategy/ciby_sliding_grid.py:604-655 | when the leftovers are, no bar that stays within 2.0 of that price fills one of them |
| RestingOrders.StopIsOnLosingSide | src/aurex_trade/domain/strategy/ciby_sliding_grid.py:471-487 | a stop is at least one cent beyond its entry in the losing direction |
| AnchorPair.PairIsAccepted | src/aurex_trade/domain/strategy/ciby_sliding_grid.py:489-495 | with a gap above one cent and an offset more than a cent and a half below gap plus buffer neither leg of the market pair is turned away, at any close |
| AnchorPair.LongAcceptedIff | src/aurex_trade/engine/trading_engine.py:1940-1958 | at every close and every positive gap and spacing the long leg is accepted if and only if the ladder has a level below the anchor's and that level, raised like the entry and lowered by the buffer, rounds to less than the close |
| AnchorPair.ShortAcceptedIff | src/aurex_trade/engine/trading_engine.py:1940-1958 | with a buffer that is not negative the short leg is accepted if and only if the ladder has a level above the anchor's |
| AnchorPair.Neighbours | src/aurex_trade/domain/strategy/ciby_sliding_grid.py:431-438 | at every positive gap and spacing, colliding levels included, the neighbours of the anchor's level are the first rungs below and above it |
| AnchorPair.LongByACentAndAHalf | src/aurex_trade/domain/strategy/ciby_sliding_grid.py:471-487 | with a gap above one cent an offset a cent and a half below gap plus buffer is accepted and one a cent and a half above is not |
| AnchorPair.AlmostTheGapIsTooMuch | src/aurex_trade/domain/strategy/ciby_sliding_grid.py:471-487 | an input whose offset is below gap plus buffer and whose long leg is turned away |
| AnchorPair.WholeCentLongAcceptedIff | src/aurex_trade/engine/trading_engine.py:1940-1958 | with whole-cent settings and a gap above one cent the long leg is accepted if and only if the offset is below gap plus buffer, or equal to it while the level below was rounded down |
| LadderShape.LadderIsStraightIff | src/aurex_trade/domain/strategy/ciby_sliding_grid.py:414-429 | the ladder is the 201 levels in order around the anchor, each at its own exact price rounded, if and only if no two of those coincide or change places; with gap and spacing above one cent none do |
| LadderShape.LadderLevels | src/aurex_trade/domain/strategy/ciby_sliding_grid.py:414-429 | at every setting the ladder holds exactly those levels in increasing order |
| LadderShape.GapsAreNominal | src/aurex_trade/domain/strategy/ciby_sliding_grid.py:414-429 | at every setting those levels are the gap apart beside the anchor and the spacing apart elsewhere, to within a cent |
| LadderShape.GapsAreExactIff | src/aurex_trade/domain/strategy/ciby_sliding_grid.py:414-429 | with whole-cent settings the distance between two neighbouring levels is exact if and only if the anchor is no half cent or that distance is an even number of cents |
| LadderShape.RoundShiftIff | src/aurex_trade/domain/strategy/ciby_sliding_grid.py:421-428 | rounding commutes with adding whole units if and only if the number is no tie or the shift is even |
| Ladder.LadderIncreases | src/aurex_trade/domain/strategy/ciby_sliding_grid.py:429-429 | the ladder is strictly increasing whatever the gap and spacing |
| Ladder.NearestFirstIsSorted | src/aurex_trade/domain/strategy/ciby_sliding_grid.py:580-585 | the ranking by distance is sorted and a permutation |
| GridKeys.KeyRoundTrip | src/aurex_trade/domain/strategy/ciby_sliding_grid.py:726-737 | reading the text of a key, negative levels included, gives the key back |
| GridKeys.KeyTextIsInjective | src/aurex_trade/domain/strategy/ciby_sliding_grid.py:632-632 | different keys have different texts |
| NoLookAhead.CurveOfPrefixIsPrefix | src/aurex_trade/backtest/runner.py:69-117 | cutting the history leaves the equity curve up to there as it was |
| NoLookAhead.SameWindow | src/aurex_trade/adapters/backtest/market_data.py:27-33 | the visible window depends only on bars before the cursor and ends at the current bar |
| NoLookAhead.LastBarIsIgnored | src/aurex_trade/adapters/backtest/market_data.py:35-54 | any other last bar gives the same run |
| NoLookAhead.CurrentBarLooksBackIff | src/aurex_trade/adapters/backtest/market_data.py:51-54 | the current bar is settled by the past if and only if the cursor has passed a bar |
| MarketData.HistoricalMarketDataAdapter.Create | src/aurex_trade/adapters/backtest/market_data.py:18-25 | an adapter exists if and only if there are enough bars, with the cursor after the first window |
| MarketData.HistoricalMarketDataAdapter.GetLatestBars | src/aurex_trade/adapters/backtest/market_data.py:27-33 | the window ends at the current bar |
| MarketData.HistoricalMarketDataAdapter.Advance | src/aurex_trade/adapters/backtest/market_data.py:35-44 | the cursor moves by one until the end and then stays |
| NetPosition.AverageCostRefinesLedger | src/aurex_trade/adapters/backtest/broker.py:441-502 | equity is initial less commissions plus signed quantity times (close - fill), up to half a unit of the fifth decimal per unit held after each averaging fill |
| NetPosition.RealizedTracksCapital | src/aurex_trade/adapters/backtest/broker.py:441-502 | the reported realized result stays within half a cent per closing fill of what capital earned |
| NetPosition.CommissionPerFill | src/aurex_trade/adapters/backtest/broker.py:139-174 | every fill pays one commission |
| NetPosition.ReducingIsExact | src/aurex_trade/adapters/backtest/broker.py:455-490 | a fill that reduces, flattens or flips loses nothing to rounding |
| SimpleRun.RunIsConsistent | src/aurex_trade/backtest/runner.py:468-543 | at every bar the position is below limit plus order size, the repository's quantity is the broker's and the ledger sums to the realized result |
| SimpleRun.RunEquityIsLedger | src/aurex_trade/backtest/runner.py:468-543 | every run's equity is its cash ledger up to the rounding slack |
| Risk.FirstBrokenRuleWins | src/aurex_trade/domain/risk/engine.py:81-173 | a signal is approved if and only if the kill switch is off and no rule is broken, else the first broken rule in order is named |
| Risk.RiskEngine.Evaluate | src/aurex_trade/domain/risk/engine.py:60-173 | the branch chain gives that verdict |
| SimpleRunner.NetBroker.UpdatePosition | src/aurex_trade/adapters/backtest/broker.py:441-502 | the position, cost, result and capital after a fill |
| SimpleRunner.NetBroker.FillMarketOrder | src/aurex_trade/adapters/backtest/broker.py:139-174 | a market fill at a price moved against the order, with its commission |
| SimpleRunner.SimpleBacktest.RunStep | src/aurex_trade/backtest/runner.py:468-538 | one bar of the simple mode, trading if and only if the gate approves |
| Drawdown.MaxDrawdown | src/aurex_trade/metrics.py:100-122 | the largest fall over all earlier-later pairs, and the percentage at a pair that attains it |
| Drawdown.NoDrawdownIff | src/aurex_trade/metrics.py:100-122 | the drawdown is zero if and only if the curve never falls |
| LiveMatching.MatchingIsRightIff | src/aurex_trade/engine/trading_engine.py:802-882 | in every order of the keys and of the snapshot each filled key gets its own trade and each other vanished key is rejected, if and only if every filled key is nearest to its own fill and no other vanished key has the side of an unmatched trade |
| LiveMatching.GreedyIsRight | src/aurex_trade/engine/trading_engine.py:840-877 | under that condition greedy matching gives every key its own fill at every point of the walk and reports its price |
| LiveMatching.HalfTheGapIsEnough | src/aurex_trade/engine/trading_engine.py:843-868 | fills within less than half the distance to any other level of their side meet that condition |
| LiveMatching.FillsReachTheirKeys | src/aurex_trade/engine/trading_engine.py:802-877 | under that condition a poll maps each filled key to its own trade, rejects every other vanished key, the ones filled after the snapshot among them, and leaves the other orders alone |
| LiveMatching.NearestIsFirstLeast | src/aurex_trade/engine/trading_engine.py:857-863 | the chosen trade has the least distance on its side and is the earliest of equals |
| LiveMatching.CancelledOrderCanStealAFill | src/aurex_trade/engine/trading_engine.py:840-877 | an input on which an order cancelled at the broker takes the fill of another key |
| LiveLedger.FillsKeepClean | src/aurex_trade/engine/trading_engine.py:874-998 | fills and opposite legs keep the key-to-trade map injective, every held trade with its entry |
| LiveLedger.StopOutsWereHeld | src/aurex_trade/engine/trading_engine.py:1451-1460 | a stop-out row is only for a trade held before the poll and absent from its snapshot, valued from that trade's entry |
| LiveLedger.VanishedTradeIsCountedIff | src/aurex_trade/engine/trading_engine.py:1355-1363 | a held trade that the snapshot no longer shows is counted in the same poll if and only if no fill of that poll took its key over |
| LiveLedger.VanishedTradesAreCounted | src/aurex_trade/engine/trading_engine.py:1355-1363 | and so it is whenever neither an order nor a leg is under its key |
| LiveLedger.StopOutsAreCounted | src/aurex_trade/engine/trading_engine.py:1365-1440 | a round of stop-outs frees exactly its keys and books one row for each, in order |
| LiveRun.LedgerCountsOnce | src/aurex_trade/engine/trading_engine.py:1239-1548 | over every run with an honest broker whose close-alls leave no counted trade behind, no trade is counted twice |
| LiveRun.AttemptKeepsCleanIff | src/aurex_trade/engine/trading_engine.py:1104-1162 | a close-all leaves the books clean if and only if it ended flat or closed no held trade |
| LiveRun.CountsTwiceIff | src/aurex_trade/engine/trading_engine.py:1121-1154 | a close-all and the poll after it count a trade twice if and only if a trade that was counted is still held by its key once the fills of that poll are dealt with |
| LiveRun.HeldOverIffLeftBehind | src/aurex_trade/engine/trading_engine.py:1121-1154 | with no order or leg under a key that holds a trade, that is so if and only if the close-all closed a held trade and did not end flat |
| LiveRun.HonestRunCountsTwice | src/aurex_trade/engine/trading_engine.py:1105-1154 | a run from the start, with honest answers throughout, that leaves a counted trade behind and counts it twice |
| SeparateKeys.RunKeepsSeparate | src/aurex_trade/engine/trading_engine.py:1965-2142 | from the start on, a run that handles entries for keys with neither an order nor a trade, and without an opposite leg, never has an order or a leg under a key that holds a trade |
| LiveGridModel.PairPlays | src/aurex_trade/engine/trading_engine.py:346-411 | the engine's half of every run of the grid under the engine is a loop of the engine |
| LiveGridRun.ClearRunsAgree | src/aurex_trade/engine/trading_engine.py:802-1548 | whatever the broker and the clock do and however many reads fail, as long as every cycle that slides the window finds the orders still to be cancelled out of reach, the engine's orders are for sides the strategy believes placed or has asked to close, its trades are for filled sides, and no side has both |
| LiveGridRun.OrdersAndTradesAreSides | src/aurex_trade/engine/trading_engine.py:802-1548 | so it is in every run whose cycles follow a poll that could read the trades |
| AskedOnce.RunAsksOnceIff | src/aurex_trade/engine/trading_engine.py:346-411 | a run from the start never asks, or leaves queued, an entry for a side that has an order if and only if every cycle that slides the window finds the orders still to be cancelled out of reach |
| LiveGridRun.TradesAreFilledSides | src/aurex_trade/engine/trading_engine.py:2064-2142 | in those runs, with a broker that names the trades of the orders it accepts, its trades are exactly the filled sides |
| LiveGrid.PollKeeps | src/aurex_trade/engine/trading_engine.py:1451-1548 | a poll keeps what holds between the two, and once the snapshot was read every tracked order is for a placed side |
| GridTracking.GenerateTracks | src/aurex_trade/domain/strategy/ciby_sliding_grid.py:310-400 | a call of the strategy keeps it too, and never answers with an entry for a side that has an order, if the orders still to be cancelled are out of reach should it slide the window |
| SlideAsks.CycleAvoidsOrdersIff | src/aurex_trade/domain/strategy/ciby_sliding_grid.py:503-561 | a cycle that slides the window asks for no side that has an order if and only if every order that still waits to be cancelled is for a level outside the new window, or retired, or for a side that cannot be placed |
| RestingTwice.FailedReadsLoseAnOrder | src/aurex_trade/engine/trading_engine.py:355-360 | a run of three turns from the start whose polls fail: price goes a step up and back, the third cycle asks again for a side whose order rests, and then no map holds the first order, which was never cancelled |
| LoopRun.LoopPlays | src/aurex_trade/engine/trading_engine.py:346-411 | every loop of the engine is one of the runs that the results are about |
| LoopRun.LoopIsSafe | src/aurex_trade/engine/trading_engine.py:285-411 | for every behaviour of the outside the loop notifies only on a flat book, fails at most five times in a row, stays stopped, and does nothing when the first balance read fails |
| LoopRun.LoopIsDisciplined | src/aurex_trade/engine/trading_engine.py:1722-1776 | with a strategy that anchors before it enters, every entry is handled while a grid is logged |
| CloseAllProtocol.NotifiedOnlyWhenFlat | src/aurex_trade/engine/trading_engine.py:1086-1101 | in every run the strategy is told of completion only right after the broker reported no open trades |
| CloseAllProtocol.AttemptNotifiesWhenFlat | src/aurex_trade/engine/trading_engine.py:1086-1237 | a close-all notifies if and only if it found nothing open or confirmed nothing left, and then all maps are empty |
| CloseAllProtocol.FailureBlocks | src/aurex_trade/engine/trading_engine.py:1072-1077 | after its k-th failure, by a failing close, a close-all asks nothing of the broker for 10 * 2^(k-1) seconds |
| CloseAllProtocol.FailureBlocksNoLonger | src/aurex_trade/engine/trading_engine.py:1129-1135 | at the end of that time it asks again |
| CloseAllProtocol.FiveFailuresStop | src/aurex_trade/engine/trading_engine.py:1062-1070 | failures since the last flat book are counted exactly, are at most five, and the call after the fifth stops the engine without asking the broker |
| CloseAllProtocol.UnreadNeverTrips | src/aurex_trade/engine/trading_engine.py:1087-1153 | any number of close-alls that end on a failed read of the open or the remaining trades leaves the breaker as it was, and the next one asks the broker at once |
| CloseAllProtocol.DrainIsBounded | src/aurex_trade/engine/trading_engine.py:1757-1776 | a cycle takes at most 51 signals in order, nothing after a close-all, and all there are below the cap |
| SessionMoney.SessionsPartitionTheRun | src/aurex_trade/engine/trading_engine.py:1164-1221 | the session baseline is the run's start plus all booked sessions, through failed close-alls, empty close-alls and new grids |
| SessionAccounts.SessionsPartitionTheLoop | src/aurex_trade/engine/trading_engine.py:1164-1221 | over every loop from the start, for every account that starts at rest and changes only through what is placed, the session baseline is the run's start plus all booked sessions as long as the cancels and reads that end sessions work; between grids that is the balance itself |
| SessionAccounts.DeskIsEmptyBetweenGrids | src/aurex_trade/engine/trading_engine.py:1157-1221 | in every loop with a strategy that anchors before it enters, the engine holds no order and no trade whenever no grid is logged |
| LiveGridSessions.GridSessionsPartitionTheRun | src/aurex_trade/engine/trading_engine.py:1659-1786 | the same of the sliding grid under the engine, with nothing asked of the strategy |
| LiveGridSessions.GridDeskIsEmptyBetweenGrids | src/aurex_trade/engine/trading_engine.py:1157-1221 | while no grid is logged the engine that drives a sliding grid holds no order and no trade |
| SessionMoney.NextGridKeepsPartitionIff | src/aurex_trade/engine/trading_engine.py:1726-1749 | the grid that follows a session's end keeps the partition if and only if it reads the balance that was booked |
| SessionAccounts.FailedCancelBreaksThePartition | src/aurex_trade/engine/trading_engine.py:1079-1085 | a run in which the cancel fails, the order fills after its session, and the sessions no longer add up |
| SessionMoney.MissedReadBreaksUnlessTallied | src/aurex_trade/engine/trading_engine.py:1178-1205 | after a missed read the books add up if and only if the strategy's tally was the balance delta |
| SessionMoney.CarriesOldSessionIff | src/aurex_trade/engine/trading_engine.py:1729-1749 | after any close-all the next result told is counted from the old baseline if and only if it did not end flat with its balance read, or the session had earned nothing |
| SessionMoney.ThreeMissedReadsStop | src/aurex_trade/engine/trading_engine.py:1692-1714 | the third failed balance read in a row stops the engine and a failed read handles no signal |
| SlidingGrid.CibySlidingGrid.BuildLadder | src/aurex_trade/domain/strategy/ciby_sliding_grid.py:414-429 | the loops build the ladder |
| SlidingGrid.CibySlidingGrid.QueueSide | src/aurex_trade/domain/strategy/ciby_sliding_grid.py:604-655 | a side is placed and its signal queued, unless it has no stop or is too close |
| SlidingGrid.CibySlidingGrid.RetractStalePlaced | src/aurex_trade/domain/strategy/ciby_sliding_grid.py:540-561 | exactly the resting keys outside the window, off the anchor and beside no live trade are handed over |
| SlidingGrid.CibySlidingGrid.MaintainGrid | src/aurex_trade/domain/strategy/ciby_sliding_grid.py:503-538 | the window slides with price |
| SlidingGrid.CibySlidingGrid.RetireLevel | src/aurex_trade/domain/strategy/ciby_sliding_grid.py:592-602 | a level is retired once and all its keys handed over |
| SlidingGrid.CibySlidingGrid.TrimActiveLevels | src/aurex_trade/domain/strategy/ciby_sliding_grid.py:563-590 | levels beyond the caps are retired |
| SlidingGrid.CibySlidingGrid.ReportFill | src/aurex_trade/domain/strategy/ciby_sliding_grid.py:659-672 | a side moves from placed to filled |
| SlidingGrid.CibySlidingGrid.ReportTradeClosed | src/aurex_trade/domain/strategy/ciby_sliding_grid.py:674-706 | a filled side is stopped out or, at a retired level, forgotten |
| SlidingGrid.CibySlidingGrid.OnSignalRejected | src/aurex_trade/domain/strategy/ciby_sliding_grid.py:708-720 | a rejected side is no longer placed or queued |
| SlidingGrid.CibySlidingGrid.TriggerCloseAll | src/aurex_trade/domain/strategy/ciby_sliding_grid.py:751-760 | a liquidation begins with an empty queue and a history entry |
| SlidingGrid.CibySlidingGrid.NotifyCloseAllComplete | src/aurex_trade/domain/strategy/ciby_sliding_grid.py:762-804 | the session restarts, or the positions are cleared while paused |
| SlidingGrid.CibySlidingGrid.SetRealizedPnl | src/aurex_trade/domain/strategy/ciby_sliding_grid.py:291-308 | results told by the engine replace the strategy's own from then on |
| SlidingGrid.CibySlidingGrid.Generate | src/aurex_trade/domain/strategy/ciby_sliding_grid.py:310-400 | the whole strategy cycle |
| SimulatedBroker.SimulatedBrokerAdapter.ProcessBar | src/aurex_trade/adapters/backtest/broker.py:176-282 | stops first, then entries, with the new fills and closures returned |
| SimulatedBroker.SimulatedBrokerAdapter.CloseTrade | src/aurex_trade/adapters/backtest/broker.py:284-314 | a trade closes at market, an unknown id is an error |
| SimulatedBroker.SimulatedBrokerAdapter.PlacePendingOrder | src/aurex_trade/adapters/backtest/broker.py:107-137 | a resting order waits under a new id |
| SimulatedBroker.SimulatedBrokerAdapter.FillMarketOrder | src/aurex_trade/adapters/backtest/broker.py:139-174 | a market order opens a trade at once, and is an error without a current bar |
| SimulatedBroker.SimulatedBrokerAdapter.CancelPendingOrder | src/aurex_trade/adapters/backtest/broker.py:324-330 | one order goes, and whether it was there |
| SimulatedBroker.SimulatedBrokerAdapter.ApplyFriction | src/aurex_trade/adapters/backtest/broker.py:386-397 | spread and slippage go against the order |
| Runner.BacktestRunner.HandleFills | src/aurex_trade/backtest/runner.py:214-240 | fills move keys from the order map to the trade map and are reported |
| Runner.BacktestRunner.HandleClosures | src/aurex_trade/backtest/runner.py:242-258 | closures are banked and reported under the key that held them |
| Runner.BacktestRunner.HandleLevelsToClose | src/aurex_trade/backtest/runner.py:189-212 | marked keys are cancelled, closed, banked and reported |
| Runner.BacktestRunner.ProcessGridSignal | src/aurex_trade/backtest/runner.py:324-401 | a signal becomes a resting order, a trade or a liquidation |
| Runner.BacktestRunner.CloseAllTrades | src/aurex_trade/backtest/runner.py:403-431 | orders are cancelled, trades closed and banked, the strategy notified |
| Runner.BacktestRunner.DrainSignals | src/aurex_trade/backtest/runner.py:163-182 | the loop asks, processes and asks again up to its cap |
| Runner.BacktestRunner.RunGridStep | src/aurex_trade/backtest/runner.py:144-187 | one bar moves the three objects as the state machine says, for any settings, and tells whether the drain dropped a signal |
| Runner.BacktestRunner.Run | src/aurex_trade/backtest/runner.py:69-117 | the final state and the equity curve of a run |
| LiveEngine.TradingEngine.FindNearest | src/aurex_trade/engine/trading_engine.py:854-863 | one pass finds a trade of the side at the least distance |
| LiveEngine.TradingEngine.CheckLimitFills | src/aurex_trade/engine/trading_engine.py:802-933 | vanished orders become fills or cancellations |
| LiveEngine.TradingEngine.PlaceOppositeMarketOrder | src/aurex_trade/engine/trading_engine.py:935-998 | the opposite leg is placed, mapped and reported, or refused |
| LiveEngine.TradingEngine.RealizedPnlFromEntry | src/aurex_trade/engine/trading_engine.py:1326-1344 | a stop-out is valued at its stop, else at the last price, else not at all |
| LiveEngine.TradingEngine.CheckClosures | src/aurex_trade/engine/trading_engine.py:1346-1449 | vanished trades are booked and their keys freed |
| LiveEngine.TradingEngine.CheckLevelsToClose | src/aurex_trade/engine/trading_engine.py:1464-1548 | trims cancel, close, book and report; a failed close keeps the trade |
| LiveEngine.TradingEngine.RunFastPoll | src/aurex_trade/engine/trading_engine.py:1451-1462 | fills, closures and trims of one snapshot |
| LiveEngine.TradingEngine.CloseAllTrades | src/aurex_trade/engine/trading_engine.py:1052-1237 | every way a close-all can end |
| LiveEngine.TradingEngine.PlaceLimitOrder | src/aurex_trade/engine/trading_engine.py:1965-2045 | a resting order is tracked, refused, or handled as a trade when it fills at once |
| LiveEngine.TradingEngine.PlaceMarketOrder | src/aurex_trade/engine/trading_engine.py:2064-2142 | a market order is mapped and reported, or refused |
| LiveEngine.TradingEngine.ProcessSignal | src/aurex_trade/engine/trading_engine.py:1788-1963 | cap, risk verdict and stop guard before an order is placed |
| LiveEngine.TradingEngine.PushRealizedPnl | src/aurex_trade/engine/trading_engine.py:1626-1657 | balance anchors and the results told to the strategy |
| LiveEngine.TradingEngine.CollectSignals | src/aurex_trade/engine/trading_engine.py:1757-1776 | the signals of one cycle |
| LiveEngine.TradingEngine.RunStrategyCycle | src/aurex_trade/engine/trading_engine.py:1659-1786 | balance, session and drain parts of a cycle |
| LiveEngine.TradingEngine.Run | src/aurex_trade/engine/trading_engine.py:346-411 | the loop until the engine stops |

## Left out

- SessionAccounts.SessionsPartitionTheLoop: for accounts that start with no trade and no order and strategies that anchor before they enter, which LiveGridSessions.GridSessionsPartitionTheRun drops for the sliding grid; a failed cancel and a failed read are the subject of the members beside it.
- The price inside a bar at which a stop, an entry or a market order fills: one branch each of the broker's state machine.
- Runner.BacktestRunner.HandleFills: the search for a fill's key by its price and the opposite market order are not modelled; every resting order of the sliding grid carries its key and asks for no opposite leg.
- Runner.BacktestRunner.ProcessGridSignal: signals without a grid key and the metadata of an opposite leg are not modelled; the sliding grid produces neither.
- Runner.BacktestRunner.Run: windows of at least one bar; NoLookAhead.CurrentBarLooksBackIff says what the current bar of a zero-bar window would be.
- LiveEngine.TradingEngine.RunFastPoll: the deferred trailing stop between closures and trims is not modelled; the sliding grid asks for none.
- LiveEngine.TradingEngine.PlaceMarketOrder: the read of positions and the save to the repository after the fill are not modelled; they change nothing that is.
- LiveEngine.TradingEngine.Run: which of the two intervals of the clock is due, and the maximum of cycles, are inputs of each turn.
- GridKeys.KeyRoundTrip: reads only texts with two decimals, as the program prints them; negative zero is not a level.
- SimulatedBroker.SimulatedBrokerAdapter.ProcessBar: list entries are values, so the sharing of one trade object between the open trades and the list of new fills is not captured.
- Symbols: one symbol throughout; the symbol text is dropped.
- Floating point: reals with decimal rounding written out; bit patterns are not modelled.
- Orders without a stop or a limit price, and signals without a grid key, which the sliding grid never produces.
- Take profit and trailing stops, the deferred trailing stop included: the sliding grid uses neither.
- Entry prices per side, remembered order types, display state, logs, event log, chart markers, equity history, slippage list.
- The reads of positions and of the trade count between the drain and the orders leave no mark in the live engine's trace.
- Exceptions raised by the repository or the risk engine inside a cycle; a failing read of positions or trades is modelled.
- Wall-clock texts of ledger rows and sessions; the clock of the close-all is a number of seconds.
- The hedged doubling grid, walk-forward and sweep, Sharpe and expectancy metrics, paper broker, OANDA adapters, persistence, web layer.
