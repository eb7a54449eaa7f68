/** The live engine with its maps updated in place, proved against EngineModel. */
module LiveEngine {
  import opened Market
  import opened Rounding
  import opened M = EngineModel
  import opened LiveMatching
  import opened CloseAllProtocol

  lemma CollectStep(signals: nat -> Option<Wanted>, i: nat)
    requires i <= MAX_DRAIN + 1
    ensures Collect(signals, i) ==
      if i > MAX_DRAIN || signals(i).None? then []
      else if signals(i).value.signal.CloseAll? then [signals(i).value]
      else [signals(i).value] + Collect(signals, i + 1)
  {
  }

  class TradingEngine {
    const config: EngineConfig

    var gridTradeMap: map<Key, nat>
    var tradeEntry: map<nat, TradeEntry>
    var pendingOrderMap: map<Key, nat>
    var pendingOrderMeta: map<Key, Meta>
    var realizedLedger: seq<Row>
    var tradePnls: seq<real>
    var trace: seq<Event>

    var closeAllFailedCount: nat
    var closeAllNextRetryAt: Option<real>
    var running: bool

    var runStartBalance: Option<real>
    var sessionStartBalance: Option<real>
    var dayStartBalance: Option<real>
    var balanceDay: string
    var lastBalance: Option<real>
    var gridLogged: bool
    var sessionHistory: seq<Session>
    var balanceReadFailures: nat
    var lastPrice: Option<real>

    ghost function Books(): Desk
      reads this`gridTradeMap, this`tradeEntry, this`pendingOrderMap, this`pendingOrderMeta, this`realizedLedger,
            this`tradePnls, this`trace
    {
      Desk(gridTradeMap, tradeEntry, pendingOrderMap, pendingOrderMeta, realizedLedger, tradePnls, trace)
    }

    ghost function Circuit(): Breaker
      reads this`closeAllFailedCount, this`closeAllNextRetryAt, this`running
    {
      Breaker(closeAllFailedCount, closeAllNextRetryAt, running)
    }

    ghost function Balances(): Money
      reads this`runStartBalance, this`sessionStartBalance, this`dayStartBalance, this`balanceDay, this`lastBalance,
            this`gridLogged, this`sessionHistory, this`balanceReadFailures
    {
      Money(runStartBalance, sessionStartBalance, dayStartBalance, balanceDay, lastBalance, gridLogged,
            sessionHistory, balanceReadFailures)
    }

    ghost function State(): M.Engine
      reads this
    {
      M.Engine(Books(), Circuit(), Balances(), lastPrice)
    }

    /** The engine as its loop starts; without the first balance of a broker that has one it does not run. */
    constructor (config: EngineConfig, seed: Option<real>, today: string)
      ensures this.config == config && State() == Started(config, seed, today)
    {
      this.config := config;
      gridTradeMap, tradeEntry, pendingOrderMap, pendingOrderMeta := map[], map[], map[], map[];
      realizedLedger, tradePnls, trace := [], [], [];
      closeAllFailedCount, closeAllNextRetryAt := 0, None;
      running := !config.hasSummary || seed.Some?;
      var anchor := if config.hasSummary then seed else None;
      runStartBalance, sessionStartBalance, dayStartBalance, lastBalance := anchor, anchor, anchor, anchor;
      balanceDay := if anchor.Some? then today else "";
      gridLogged, sessionHistory, balanceReadFailures, lastPrice := false, [], 0, None;
    }

    // ---- Small steps

    method Note(e: Event)
      modifies this`trace
      ensures Books() == Log(old(Books()), e)
    {
      trace := trace + [e];
    }

    method RecordTrade(id: nat, e: TradeEntry)
      modifies this`gridTradeMap, this`tradeEntry
      ensures Books() == Mapped(old(Books()), id, e)
    {
      gridTradeMap := gridTradeMap[e.key := id];
      if id != NO_ID {
        tradeEntry := tradeEntry[id := e];
      }
    }

    /** The first trade of a side at the least distance from a price, in one pass. */
    static method FindNearest(trades: seq<LiveTrade>, side: OrderSide, price: real) returns (best: Option<nat>)
      ensures best == Nearest(trades, side, price)
      ensures best.None? ==> forall t :: t in trades ==> t.side != side
      ensures best.Some? ==> best.value < |trades| && trades[best.value].side == side
      ensures best.Some? ==> (forall j :: 0 <= j < |trades| && trades[j].side == side ==>
        Distance(trades[best.value], price) <= Distance(trades[j], price))
    {
      best := None;
      for i := 0 to |trades|
        invariant best == Nearest(trades[..i], side, price)
      {
        var t := trades[i];
        assert trades[..i + 1][..i] == trades[..i];
        if t.side == side && (best.None? || Distance(t, price) < Distance(trades[best.value], price)) {
          best := Some(i);
        }
      }
      assert trades[..|trades|] == trades;
      NearestIsFirstLeast(trades, side, price);
    }

    static method NewTrades(open: seq<LiveTrade>, known: set<nat>) returns (r: seq<LiveTrade>)
      ensures r == Unmapped(open, known)
    {
      r := [];
      for i := 0 to |open|
        invariant r == Unmapped(open[..i], known)
      {
        assert open[..i + 1][..i] == open[..i];
        if open[i].id !in known {
          r := r + [open[i]];
        }
      }
      assert open[..|open|] == open;
    }

    // ---- Fills

    method PlaceOppositeMarketOrder(key: Key, answer: OrderAnswer)
      modifies this`gridTradeMap, this`tradeEntry, this`pendingOrderMeta, this`trace
      ensures Books() == PlaceOpposite(config, old(Books()), key, answer)
    {
      if key !in pendingOrderMeta {
        return;
      }
      var meta := pendingOrderMeta[key];
      pendingOrderMeta := pendingOrderMeta - {key};
      if meta.opposite.None? {
        return;
      }
      var leg := meta.opposite.value;
      var quantity := Capped(config, meta.units);
      Note(Place(leg.side, quantity, OrderType.Market, None, leg.stop));
      if answer.Accepted? {
        if answer.id != NO_ID {
          RecordTrade(answer.id, TradeEntry(leg.key, leg.side, quantity, answer.price, leg.stop));
        }
        Note(TellFilled(leg.key, answer.price));
      }
    }

    /** One vanished order takes the nearest new trade of its side, or was cancelled. */
    method ResolveOrder(key: Key, newTrades: seq<LiveTrade>, leg: OrderAnswer) returns (rest: seq<LiveTrade>)
      modifies this`gridTradeMap, this`tradeEntry, this`pendingOrderMap, this`pendingOrderMeta, this`trace
      ensures Matching(Books(), rest) == MatchOne(config, Matching(old(Books()), newTrades), key, leg)
    {
      rest := newTrades;
      pendingOrderMap := pendingOrderMap - {key};
      var best := FindNearest(newTrades, OrderSideOf(key.side), Price(key.level));
      if best.None? {
        Note(TellRejected(key));
        return;
      }
      var matched := newTrades[best.value];
      rest := Without(newTrades, best.value);
      if matched.id == NO_ID {
        Note(TellRejected(key));
        return;
      }
      ghost var d := Books();
      var units, stop := 0.0, None;
      if key in pendingOrderMeta {
        units, stop := pendingOrderMeta[key].restingUnits, pendingOrderMeta[key].restingStop;
      }
      var entry := TradeEntry(key, OrderSideOf(key.side), units, matched.openPrice, stop);
      assert entry == EntryFor(d, key, matched);
      RecordTrade(matched.id, entry);
      Note(TellFilled(key, matched.openPrice));
      PlaceOppositeMarketOrder(key, leg);
    }

    method CheckLimitFills(open: seq<LiveTrade>, resting: Option<set<nat>>, legs: Key -> OrderAnswer)
      modifies this`gridTradeMap, this`tradeEntry, this`pendingOrderMap, this`pendingOrderMeta, this`trace
      ensures Books() == M.CheckLimitFills(config, old(Books()), open, resting, legs)
    {
      if pendingOrderMap == map[] {
        return;
      }
      Note(ReadOrders);
      if resting.None? {
        return;
      }
      var disappeared := config.order(set k | k in pendingOrderMap && pendingOrderMap[k] !in resting.value);
      var newTrades := NewTrades(open, gridTradeMap.Values);
      ghost var m := Matching(Books(), newTrades);
      for i := 0 to |disappeared|
        invariant Matching(Books(), newTrades) == MatchAll(config, m, disappeared[..i], legs)
      {
        assert disappeared[..i + 1][..i] == disappeared[..i];
        newTrades := ResolveOrder(disappeared[i], newTrades, legs(disappeared[i]));
      }
      assert disappeared[..|disappeared|] == disappeared;
    }

    // ---- Closures

    method RealizedPnlFromEntry(entry: TradeEntry) returns (pnl: Option<real>)
      ensures pnl == RealizedFromEntry(entry, lastPrice)
    {
      var exit := entry.stop;
      if exit.None? {
        exit := lastPrice;
      }
      if exit.None? {
        return None;
      }
      pnl := Some(Gain(entry, exit.value));
    }

    /** Books the stop-out of the trade that a key holds. */
    method BookStopOut(key: Key)
      modifies this`gridTradeMap, this`tradeEntry, this`realizedLedger, this`tradePnls, this`trace
      ensures Books() == CloseOut(old(Books()), key, lastPrice)
    {
      if key !in gridTradeMap {
        return;
      }
      var id := gridTradeMap[key];
      var pnl: Option<real> := None;
      var basis := if lastPrice.Some? then LastPrice else Unknown;
      if id in tradeEntry {
        pnl := RealizedPnlFromEntry(tradeEntry[id]);
        if tradeEntry[id].stop.Some? {
          basis := StopPrice;
        }
      }
      tradeEntry := tradeEntry - {id};
      gridTradeMap := gridTradeMap - {key};
      if pnl.Some? {
        tradePnls := tradePnls + [pnl.value];
      }
      Note(TellClosed(key, OrZero(pnl), false));
      realizedLedger := realizedLedger + [Row(StopOut, pnl, basis, Some(key), id)];
    }

    method CheckClosures(open: seq<LiveTrade>, skip: set<nat>)
      modifies this`gridTradeMap, this`tradeEntry, this`realizedLedger, this`tradePnls, this`trace
      ensures Books() == M.CheckClosures(config, old(Books()), open, skip, lastPrice)
    {
      if gridTradeMap == map[] {
        return;
      }
      var openIds := OpenIds(open);
      var gone := config.order(set k | k in gridTradeMap && gridTradeMap[k] !in skip && gridTradeMap[k] !in openIds);
      for i := 0 to |gone|
        invariant Books() == CloseOutAll(old(Books()), gone[..i], lastPrice)
      {
        assert gone[..i + 1][..i] == gone[..i];
        BookStopOut(gone[i]);
      }
      assert gone[..|gone|] == gone;
    }

    // ---- Trims

    method CloseLevel(key: Key, answer: CloseAnswer)
      modifies this`gridTradeMap, this`tradeEntry, this`pendingOrderMap, this`pendingOrderMeta,
               this`realizedLedger, this`tradePnls, this`trace
      ensures Books() == TrimLevel(old(Books()), key, answer)
    {
      if key in pendingOrderMap {
        var orderId := pendingOrderMap[key];
        pendingOrderMap := pendingOrderMap - {key};
        pendingOrderMeta := pendingOrderMeta - {key};
        Note(CancelOrder(orderId));
      }
      assert Books() == CancelAt(old(Books()), key);
      if key in gridTradeMap {
        var id := gridTradeMap[key];
        Note(CloseTrade(id));
        if answer.Done? {
          gridTradeMap := gridTradeMap - {key};
          tradeEntry := tradeEntry - {id};
          tradePnls := BankedPnls(tradePnls, answer.pnl);
          Note(TellClosed(key, OrZero(answer.pnl), true));
          realizedLedger := realizedLedger + [ExactRow(Trim, answer.pnl, Some(key), id)];
        }
      }
    }

    method CheckLevelsToClose(keys: seq<Key>, closes: Key -> CloseAnswer)
      modifies this`gridTradeMap, this`tradeEntry, this`pendingOrderMap, this`pendingOrderMeta,
               this`realizedLedger, this`tradePnls, this`trace
      ensures Books() == TrimLevels(old(Books()), keys, closes)
    {
      for i := 0 to |keys|
        invariant Books() == TrimLevels(old(Books()), keys[..i], closes)
      {
        assert keys[..i + 1][..i] == keys[..i];
        CloseLevel(keys[i], closes(keys[i]));
      }
      assert keys[..|keys|] == keys;
    }

    method RunFastPoll(p: PollAnswers)
      modifies this`gridTradeMap, this`tradeEntry, this`pendingOrderMap, this`pendingOrderMeta,
               this`realizedLedger, this`tradePnls, this`trace
      ensures Books() == FastPoll(config, old(Books()), lastPrice, p)
    {
      Note(ReadTrades(CountOf(p.open)));
      if p.open.Some? {
        var idsBefore := gridTradeMap.Values;
        CheckLimitFills(p.open.value, p.resting, p.legs);
        var newlyAdded := gridTradeMap.Values - idsBefore;
        CheckClosures(p.open.value, newlyAdded);
        CheckLevelsToClose(p.levels, p.closes);
      }
    }

    // ---- Close-all

    static method ReverseMap(trades: map<Key, nat>, keys: seq<Key>) returns (holders: map<nat, Key>)
      ensures holders == Holders(trades, keys)
    {
      holders := map[];
      for i := 0 to |keys|
        invariant holders == Holders(trades, keys[..i])
      {
        assert keys[..i + 1][..i] == keys[..i];
        if keys[i] in trades {
          holders := holders[trades[keys[i]] := keys[i]];
        }
      }
      assert keys[..|keys|] == keys;
    }

    method CloseForSession(id: nat, holders: map<nat, Key>, answer: CloseAnswer)
      modifies this`realizedLedger, this`tradePnls, this`trace
      ensures Books() == CloseOne(old(Books()), id, holders, answer)
    {
      Note(CloseTrade(id));
      if answer.Done? {
        tradePnls := BankedPnls(tradePnls, answer.pnl);
        realizedLedger := realizedLedger
          + [ExactRow(SessionClose, answer.pnl, if id in holders then Some(holders[id]) else None, id)];
      }
    }

    /** Closes every open trade and counts the closes that failed. */
    method CloseAllOpen(open: seq<LiveTrade>, close: nat -> CloseAnswer) returns (failed: nat)
      modifies this`realizedLedger, this`tradePnls, this`trace
      ensures failed == FailedCloses(|open|, close)
      ensures Books() == CloseEach(old(Books()), open, Holders(gridTradeMap, config.order(gridTradeMap.Keys)), close)
    {
      var holders := ReverseMap(gridTradeMap, config.order(gridTradeMap.Keys));
      failed := 0;
      for i := 0 to |open|
        invariant failed == FailedCloses(i, close)
        invariant Books() == CloseEach(old(Books()), open[..i], holders, close)
      {
        assert open[..i + 1][..i] == open[..i];
        CloseForSession(open[i].id, holders, close(i));
        if close(i) == Failed {
          failed := failed + 1;
        }
      }
      assert open[..|open|] == open;
    }

    method ForgetEverything()
      modifies this`gridTradeMap, this`tradeEntry, this`pendingOrderMap, this`pendingOrderMeta
      ensures Books() == Cleared(old(Books()))
    {
      pendingOrderMap := map[];
      pendingOrderMeta := map[];
      gridTradeMap := map[];
      tradeEntry := map[];
    }

    static method PowerOfTwo(n: nat) returns (r: nat)
      ensures r == Pow2(n)
    {
      r := 1;
      for i := 0 to n
        invariant r == Pow2(i)
      {
        r := 2 * r;
      }
    }

    /** Books a session once the broker confirmed that nothing is left. */
    method EndSession(reason: string, a: Attempt)
      requires a.open.Some?
      modifies this`sessionStartBalance, this`lastBalance, this`gridLogged, this`sessionHistory
      ensures Balances() == SessionEnded(config, old(Balances()), reason, a)
    {
      var pnl := a.tally;
      if config.hasSummary && a.balance.Some? {
        lastBalance := a.balance;
        if sessionStartBalance.Some? {
          pnl := a.balance.value - sessionStartBalance.value;
        }
        sessionStartBalance := a.balance;
      }
      sessionHistory := sessionHistory + [Session(|sessionHistory| + 1, reason, |a.open.value|, pnl)];
      gridLogged := false;
    }

    method CloseAllTrades(reason: string, a: Attempt)
      modifies this
      ensures State() == M.CloseAllTrades(config, old(State()), reason, a)
    {
      if closeAllFailedCount >= MAX_CLOSE_ALL_RETRIES {
        running := false;
        return;
      }
      if closeAllNextRetryAt.Some? {
        if a.now < closeAllNextRetryAt.value {
          return;
        }
        closeAllNextRetryAt := None;
      }
      CloseAllNow(reason, a);
    }

    /** The attempt itself, once neither the breaker nor the wait forbids it. */
    method CloseAllNow(reason: string, a: Attempt)
      requires closeAllFailedCount < MAX_CLOSE_ALL_RETRIES && closeAllNextRetryAt == None
      modifies this
      ensures State() == M.CloseAllTrades(config, old(State()), reason, a)
    {
      hide DeskAfterAttempt, SessionEnded, AfterAttempt;
      var outcome := Liquidate(a);
      UpdateBreaker(outcome, a);
      if outcome == Flat {
        EndSession(reason, a);
      }
    }

    /** The dealings with the broker, and how they ended. */
    method Liquidate(a: Attempt) returns (outcome: Outcome)
      requires closeAllFailedCount < MAX_CLOSE_ALL_RETRIES && closeAllNextRetryAt == None
      modifies this`gridTradeMap, this`tradeEntry, this`pendingOrderMap, this`pendingOrderMeta,
               this`realizedLedger, this`tradePnls, this`trace
      ensures outcome == OutcomeOf(Circuit(), a)
      ensures Books() == DeskAfterAttempt(config, old(Books()), Circuit(), a)
    {
      hide DeskAfterAttempt, OutcomeOf, CloseEach, Holders, FailedCloses, Cleared;
      AttemptCases(config, Books(), Circuit(), a);
      Note(CancelAll);
      Note(ReadTrades(CountOf(a.open)));
      if a.open.None? {
        return Unread;
      }
      if a.open.value == [] {
        ForgetEverything();
        Note(TellComplete);
        return NothingOpen;
      }
      var failed := CloseAllOpen(a.open.value, a.close);
      if failed > 0 {
        return SomeFailed;
      }
      Note(ReadTrades(a.remaining));
      if a.remaining.None? {
        return RemainderUnread;
      }
      if a.remaining.value != 0 {
        return Residual;
      }
      ForgetEverything();
      if config.hasSummary {
        Note(ReadSummary);
      }
      Note(TellComplete);
      return Flat;
    }

    method UpdateBreaker(outcome: Outcome, a: Attempt)
      requires closeAllFailedCount < MAX_CLOSE_ALL_RETRIES && closeAllNextRetryAt == None
      requires outcome == OutcomeOf(Circuit(), a)
      modifies this`closeAllFailedCount, this`closeAllNextRetryAt
      ensures Circuit() == AfterAttempt(old(Circuit()), a)
    {
      if outcome == SomeFailed {
        closeAllFailedCount := closeAllFailedCount + 1;
        var doublings := PowerOfTwo(closeAllFailedCount - 1);
        closeAllNextRetryAt := Some(a.later + (CLOSE_ALL_BASE_BACKOFF * doublings) as real);
      } else if outcome == Residual {
        closeAllFailedCount := closeAllFailedCount + 1;
      } else if outcome == NothingOpen || outcome == Flat {
        closeAllFailedCount := 0;
      }
    }

    // ---- Entries

    /** A resting order is tracked, or handled as a trade when it filled at once. */
    method PlaceLimitOrder(w: Wanted, answer: OrderAnswer, leg: OrderAnswer)
      requires w.signal.Entry?
      modifies this`gridTradeMap, this`tradeEntry, this`pendingOrderMap, this`pendingOrderMeta, this`trace
      ensures Books() == PlaceResting(config, old(Books()), w, answer, leg)
    {
      var s := w.signal;
      var side, quantity := OrderSideOf(s.key.side), Capped(config, s.units);
      Note(Place(side, quantity, s.orderType, Some(s.limitPrice), Some(s.stopLoss)));
      if answer.Refused? {
        Note(TellRejected(s.key));
      } else if answer.immediate {
        RecordTrade(answer.id, TradeEntry(s.key, side, quantity, answer.price, Some(s.stopLoss)));
        Note(TellFilled(s.key, answer.price));
        pendingOrderMeta := pendingOrderMeta[s.key := Meta(s.units, 0.0, None, w.opposite)];
        PlaceOppositeMarketOrder(s.key, leg);
      } else if answer.id != NO_ID {
        pendingOrderMap := pendingOrderMap[s.key := answer.id];
        pendingOrderMeta := pendingOrderMeta[s.key := Meta(s.units, Round5(quantity), Some(Round5(s.stopLoss)),
                                                           w.opposite)];
      }
    }

    method PlaceMarketOrder(s: Signal, answer: OrderAnswer)
      requires s.Entry?
      modifies this`gridTradeMap, this`tradeEntry, this`trace
      ensures Books() == PlaceMarket(config, old(Books()), s, answer)
    {
      var side, quantity := OrderSideOf(s.key.side), Capped(config, s.units);
      Note(Place(side, quantity, OrderType.Market, None, Some(s.stopLoss)));
      if answer.Refused? {
        Note(TellRejected(s.key));
      } else {
        if answer.id != NO_ID {
          RecordTrade(answer.id, TradeEntry(s.key, side, quantity, answer.price, Some(s.stopLoss)));
        }
        Note(TellFilled(s.key, answer.price));
      }
    }

    method PlaceEntry(w: Wanted, a: SignalAnswers)
      requires w.signal.Entry?
      modifies this`gridTradeMap, this`tradeEntry, this`pendingOrderMap, this`pendingOrderMeta, this`trace
      ensures Books() == ProcessEntry(config, old(Books()), w, a)
    {
      var s := w.signal;
      if config.maxOpenTrades > 0 && a.openCount >= config.maxOpenTrades {
        return;
      }
      if !a.approved {
        Note(TellRejected(s.key));
        return;
      }
      var entryRef := if s.orderType == OrderType.Market then a.close else s.limitPrice;
      var wrongSide := if s.key.side == Long then s.stopLoss >= entryRef else s.stopLoss <= entryRef;
      if wrongSide {
        Note(TellRejected(s.key));
      } else if s.orderType == OrderType.Market {
        PlaceMarketOrder(s, a.answer);
      } else {
        PlaceLimitOrder(w, a.answer, a.leg);
      }
    }

    method ProcessSignal(w: Wanted, a: SignalAnswers)
      modifies this
      ensures State() == M.ProcessSignal(config, old(State()), w, a)
    {
      if w.signal.CloseAll? {
        CloseAllTrades(w.signal.reason, a.attempt);
      } else {
        PlaceEntry(w, a);
      }
    }

    // ---- The strategy cycle

    /** Moves the anchors to a balance. */
    method AnchorBalance(balance: real, today: string)
      modifies this`lastBalance, this`sessionStartBalance, this`dayStartBalance, this`balanceDay,
        this`balanceReadFailures
      ensures Balances() == Anchored(old(Balances()), balance, today)
    {
      balanceReadFailures := 0;
      lastBalance := Some(balance);
      if sessionStartBalance.None? {
        sessionStartBalance := Some(balance);
      }
      if dayStartBalance.None? {
        dayStartBalance := Some(balance);
        balanceDay := today;
      }
      if balanceDay != "" && today != balanceDay {
        dayStartBalance := Some(balance);
        balanceDay := today;
      }
    }

    method PushRealizedPnl(s: Summary, today: string)
      modifies this`lastBalance, this`sessionStartBalance, this`dayStartBalance, this`balanceDay,
               this`balanceReadFailures, this`trace
      ensures Balances() == Anchored(old(Balances()), s.balance, today)
      ensures Books() == PnlTold(old(Books()), Balances(), s)
    {
      hide Anchored;
      Note(ReadSummary);
      Note(TellUnrealized(s.unrealized));
      AnchorBalance(s.balance, today);
      assert Balances().sessionStart.Some? && Balances().dayStart.Some?;
      Note(TellRealized(s.balance - sessionStartBalance.value, s.balance - dayStartBalance.value));
    }

    method NoteFailedRead()
      modifies this`balanceReadFailures, this`running, this`trace
      ensures State() == BalanceReadFailed(old(State()))
    {
      Note(ReadSummary);
      balanceReadFailures := balanceReadFailures + 1;
      if balanceReadFailures >= MAX_BALANCE_READ_FAILURES {
        running := false;
      }
    }

    method NoteGrid(anchored: bool)
      modifies this`gridLogged, this`sessionStartBalance
      ensures Balances() == LogGrid(old(Balances()), anchored)
    {
      if !gridLogged && anchored {
        if lastBalance.Some? {
          sessionStartBalance := lastBalance;
        }
        gridLogged := true;
      }
    }

    method UpdatePnl(y: CycleAnswers) returns (goes: bool)
      modifies this`lastBalance, this`sessionStartBalance, this`dayStartBalance, this`balanceDay,
               this`balanceReadFailures, this`trace, this`running
      ensures (State(), goes) == ReadPnl(config, old(State()), y)
    {
      hide Anchored, BalanceReadFailed, PnlTold;
      if !config.hasSummary {
        Note(TellUnrealized(0.0));
        return true;
      }
      if y.summary.None? {
        NoteFailedRead();
        return false;
      }
      PushRealizedPnl(y.summary.value, y.today);
      return true;
    }

    method BeginCycle(y: CycleAnswers) returns (goes: bool)
      modifies this
      ensures (State(), goes) == StartCycle(config, old(State()), y)
    {
      hide ReadPnl, LogGrid;
      if y.close.None? {
        return false;
      }
      lastPrice := y.close;
      goes := UpdatePnl(y);
      if goes {
        NoteGrid(y.anchored);
      }
    }

    /** Asks the strategy for signals until None, a close-all, or the cap. */
    static method CollectSignals(signals: nat -> Option<Wanted>) returns (all: seq<Wanted>)
      ensures all == Collect(signals, 0)
    {
      hide Collect;
      all := [];
      var i := 0;
      while i <= MAX_DRAIN && signals(i).Some?
        invariant i <= MAX_DRAIN + 1
        invariant Collect(signals, 0) == all + Collect(signals, i)
        decreases MAX_DRAIN + 1 - i
      {
        CollectStep(signals, i);
        var next := signals(i).value;
        if next.signal.CloseAll? {
          return all + [next];
        }
        assert all + ([next] + Collect(signals, i + 1)) == (all + [next]) + Collect(signals, i + 1);
        all := all + [next];
        i := i + 1;
      }
      CollectStep(signals, i);
    }

    method RunStrategyCycle(y: CycleCall)
      modifies this
      ensures State() == StrategyCycle(config, old(State()), y)
    {
      hide StartCycle, M.ProcessSignal, Collect;
      var goes := BeginCycle(y.start);
      StartNeedsBars(config, old(State()), y.start);
      if !goes {
        return;
      }
      var all := CollectSignals(y.signals);
      if all == [] || y.openCount.None? {
        return;
      }
      ghost var e := State();
      for i := 0 to |all|
        invariant State() == ProcessAll(config, e, all[..i], y)
      {
        assert all[..i + 1][..i] == all[..i];
        ProcessSignal(all[i], AnswersAt(y, i));
      }
      assert all[..|all|] == all;
    }

    /** The loop over what the world answers turn by turn; it ends when the engine stops. */
    method Run(turns: seq<Turn>)
      modifies this
      ensures State() == Loop(config, old(State()), turns)
    {
      hide TakeTurn, StrategyCycle, FastPoll;
      for i := 0 to |turns|
        invariant State() == Loop(config, old(State()), turns[..i])
      {
        assert turns[..i + 1][..i] == turns[..i];
        if !running {
          StoppedLoops(config, old(State()), turns, i);
          return;
        }
        TurnOnce(turns[i]);
      }
      assert turns[..|turns|] == turns;
    }

    method TurnOnce(t: Turn)
      modifies this
      ensures State() == TakeTurn(config, old(State()), t)
    {
      hide StrategyCycle, FastPoll;
      RunFastPoll(t.poll);
      if t.cycle.Some? {
        RunStrategyCycle(t.cycle.value);
      }
    }
  }
}
