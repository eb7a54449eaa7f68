/** The sliding-grid strategy with its state updated in place, proved against GridModel. */
module SlidingGrid {
  import opened Market
  import opened Rounding
  import opened Ladder
  import M = GridModel

  /** The keys whose level is not still to be visited. */
  ghost function SetAside(keys: set<Key>, todo: set<int>): set<Key> {
    set k | k in keys && k.level !in todo
  }

  class CibySlidingGrid {
    const config: M.GridConfig
    const sortKeys: set<Key> -> seq<Key>

    var anchorPrice: Option<real>
    var currentPrice: real
    var levels: seq<int>
    var signalQueue: seq<Signal>
    var placed: set<Key>
    var filled: set<Key>
    var fillOrder: seq<int>
    var stopped: set<Key>
    var pendingClose: set<Key>
    var retired: set<int>
    var sessionRealizedPnl: real
    var sessionUnrealizedPnl: real
    var dailyRealizedPnl: real
    var realizedAuthoritative: bool
    var sessionActive: bool
    var currentDate: string
    var closeAllInProgress: bool
    var closeReason: string
    var sessionCount: int
    var sessionHistory: seq<M.SessionRecord>

    /** The state as a value. */
    ghost function State(): M.Grid
      reads this
    {
      M.Grid(anchorPrice, currentPrice, levels, signalQueue, placed, filled, fillOrder, stopped,
             pendingClose, retired, sessionRealizedPnl, sessionUnrealizedPnl, dailyRealizedPnl,
             realizedAuthoritative, sessionActive, currentDate, closeAllInProgress, closeReason,
             sessionCount, sessionHistory)
    }

    constructor (config: M.GridConfig, sortKeys: set<Key> -> seq<Key>)
      ensures State() == M.InitialGrid && this.config == config && this.sortKeys == sortKeys
    {
      this.config := config;
      this.sortKeys := sortKeys;
      anchorPrice := None;
      currentPrice := 0.0;
      levels := [];
      signalQueue := [];
      placed := {};
      filled := {};
      fillOrder := [];
      stopped := {};
      pendingClose := {};
      retired := {};
      sessionRealizedPnl := 0.0;
      sessionUnrealizedPnl := 0.0;
      dailyRealizedPnl := 0.0;
      realizedAuthoritative := false;
      sessionActive := true;
      currentDate := "";
      closeAllInProgress := false;
      closeReason := "";
      sessionCount := 1;
      sessionHistory := [];
    }

    // ---- The ladder and the orders on it

    /** Appends the rungs of one direction. */
    method AppendRungs(rungs: seq<int>, first: real, step: real) returns (r: seq<int>)
      ensures r == rungs + Rungs(first, step, RUNGS)
    {
      r := rungs;
      for i := 0 to RUNGS
        invariant r == rungs + Rungs(first, step, i)
      {
        r := r + [Rung(first, step, i)];
        assert rungs + Rungs(first, step, i + 1) == rungs + Rungs(first, step, i) + [Rung(first, step, i)];
      }
    }

    method BuildLadder(anchor: real) returns (ladder: seq<int>)
      ensures ladder == Ladder.BuildLadder(config.anchorGap, config.spacing, anchor)
    {
      var rungs := [Cents(anchor)];
      rungs := AppendRungs(rungs, anchor + config.anchorGap, config.spacing);
      rungs := AppendRungs(rungs, anchor - config.anchorGap, -config.spacing);
      ladder := SortUnique(rungs);
    }

    method QueueSide(level: int, side: Side, market: bool)
      modifies this`placed, this`signalQueue
      ensures State() == M.QueueSide(config, old(State()), Key(level, side), market)
    {
      var entry := M.SideEntry(config, level, side);
      var stopLoss := M.SideStopLoss(config, levels, level, side);
      if stopLoss.None? {
        return;
      }
      var orderType, limitPrice := OrderType.Market, 0.0;
      if !market {
        if AbsReal(Price(entry) - currentPrice) < M.MIN_RESTING_DISTANCE {
          return;
        }
        orderType := M.OrderTypeFor(config, currentPrice, level, side);
        limitPrice := Price(entry);
      }
      placed := placed + {Key(level, side)};
      var units := M.UnitsFor(config, anchorPrice, level);
      signalQueue := signalQueue + [Entry(Key(level, side), units, orderType, limitPrice, Price(stopLoss.value))];
    }

    method PlaceAnchorPair()
      modifies this`placed, this`signalQueue
      ensures State() == M.PlaceAnchorPair(config, old(State()))
    {
      if anchorPrice.None? {
        return;
      }
      var level := Cents(anchorPrice.value);
      QueueSide(level, Long, true);
      QueueSide(level, Short, true);
    }

    /** Level by level: what rests outside the window, away from the anchor and beside no live trade. */
    method FindStale(window: seq<int>) returns (stale: set<Key>)
      ensures stale == M.Stale(State(), window)
    {
      var anchor := if anchorPrice.Some? then Some(Cents(anchorPrice.value)) else None;
      ghost var all := M.Stale(State(), window);
      stale := {};
      var todo: set<int> := set k | k in placed :: k.level;
      assert forall k :: k in placed ==> k.level in todo;
      while todo != {}
        invariant stale == SetAside(all, todo)
        invariant todo <= set k | k in placed :: k.level
        decreases |todo|
      {
        var level :| level in todo;
        if level !in window && anchor != Some(level) && M.KeysAt(filled, level) == {} {
          stale := stale + M.KeysAt(placed, level);
        }
        todo := todo - {level};
      }
    }

    /** Stale keys are handed over for cancelling. */
    method RetractStalePlaced(window: seq<int>)
      modifies this`placed, this`pendingClose
      ensures State() == M.Retract(old(State()), window)
    {
      var stale := FindStale(window);
      pendingClose := pendingClose + stale;
      placed := placed - stale;
    }

    method QueueMissing(level: int, side: Side)
      modifies this`placed, this`signalQueue
      ensures State() == M.QueueMissing(config, old(State()), Key(level, side))
    {
      if Key(level, side) in filled || Key(level, side) in placed {
        return;
      }
      QueueSide(level, side, false);
    }

    /** Slides the resting window with price. */
    method MaintainGrid()
      modifies this`placed, this`signalQueue, this`pendingClose
      ensures State() == M.Maintain(config, old(State()))
    {
      if anchorPrice.None? {
        return;
      }
      var rising := currentPrice >= anchorPrice.value;
      var above := Take(LevelsAbove(levels, currentPrice), if rising then config.ahead else config.behind);
      var below := Take(LevelsBelow(levels, currentPrice), if rising then config.behind else config.ahead);
      var window := SortUnique(above + below);
      RetractStalePlaced(window);
      ghost var retracted := State();
      for i := 0 to |window|
        invariant State() == M.QueueLevels(config, retracted, window[..i])
        invariant retired == old(retired)
      {
        assert window[..i + 1][..i] == window[..i];
        if window[i] !in retired {
          QueueMissing(window[i], Long);
          QueueMissing(window[i], Short);
        }
      }
      assert window[..|window|] == window;
    }

    // ---- The trim

    method RetireLevel(level: int)
      modifies this`retired, this`pendingClose
      ensures State() == M.Retire(old(State()), level)
    {
      if level in retired {
        return;
      }
      retired := retired + {level};
      pendingClose := pendingClose + M.KeysAt(filled, level);
      pendingClose := pendingClose + M.KeysAt(placed, level);
    }

    method RetireBeyond(ranked: seq<int>)
      modifies this`retired, this`pendingClose
      ensures State() == M.RetireAll(old(State()), ranked)
    {
      for i := 0 to |ranked|
        invariant State() == M.RetireAll(old(State()), ranked[..i])
      {
        assert ranked[..i + 1][..i] == ranked[..i];
        RetireLevel(ranked[i]);
      }
      assert ranked[..|ranked|] == ranked;
    }

    method TrimActiveLevels()
      modifies this`retired, this`pendingClose
      ensures State() == M.Trim(config, old(State()))
    {
      if anchorPrice.None? {
        return;
      }
      var anchor := Cents(anchorPrice.value);
      var rising := currentPrice >= anchorPrice.value;
      var active := M.ActiveAmong(fillOrder, filled);
      var above := NearestFirst(M.Above(active, anchor), currentPrice);
      var below := NearestFirst(M.Below(active, anchor), currentPrice);
      RetireBeyond(Drop(above, if rising then config.ahead else config.behind));
      RetireBeyond(Drop(below, if rising then config.behind else config.ahead));
    }

    // ---- Callbacks of the engine

    method UpdateUnrealizedPnl(pnl: real)
      modifies this`sessionUnrealizedPnl
      ensures State() == M.UpdateUnrealized(old(State()), pnl)
    {
      sessionUnrealizedPnl := pnl;
    }

    method SetRealizedPnl(session: real, daily: real)
      modifies this`realizedAuthoritative, this`sessionRealizedPnl, this`dailyRealizedPnl
      ensures State() == M.SetRealized(old(State()), session, daily)
    {
      realizedAuthoritative := true;
      sessionRealizedPnl := session;
      dailyRealizedPnl := daily;
    }

    method ReportFill(key: Key)
      modifies this`placed, this`filled, this`fillOrder, this`stopped
      ensures State() == M.ReportFill(old(State()), key)
    {
      placed := placed - {key};
      if key.level !in fillOrder {
        fillOrder := fillOrder + [key.level];
      }
      filled := filled + {key};
      stopped := stopped - {key};
    }

    method ReportTradeClosed(key: Key, realizedPnl: real)
      modifies this`sessionRealizedPnl, this`dailyRealizedPnl, this`filled, this`placed, this`stopped
      ensures State() == M.ReportClosed(old(State()), key, realizedPnl)
    {
      if !realizedAuthoritative {
        sessionRealizedPnl := sessionRealizedPnl + realizedPnl;
        dailyRealizedPnl := dailyRealizedPnl + realizedPnl;
      }
      filled := filled - {key};
      if key.level in retired {
        placed := placed - {key};
        return;
      }
      stopped := stopped + {key};
    }

    method OnSignalRejected(key: Key)
      modifies this`signalQueue, this`placed
      ensures State() == M.OnRejected(old(State()), key)
    {
      var kept: seq<Signal> := [];
      for i := 0 to |signalQueue|
        invariant kept == M.WithoutKey(signalQueue[..i], key)
        invariant signalQueue == old(signalQueue)
      {
        assert signalQueue[..i + 1][..i] == signalQueue[..i];
        if !(signalQueue[i].Entry? && signalQueue[i].key == key) {
          kept := kept + [signalQueue[i]];
        }
      }
      assert signalQueue[..|signalQueue|] == signalQueue;
      signalQueue := kept;
      placed := placed - {key};
    }

    method GetLevelsToClose() returns (keys: seq<Key>)
      modifies this`pendingClose
      ensures keys == if old(pendingClose) == {} then [] else sortKeys(old(pendingClose))
      ensures State() == old(State()).(pendingClose := {})
    {
      if pendingClose == {} {
        return [];
      }
      keys := sortKeys(pendingClose);
      pendingClose := {};
    }

    // ---- Sessions

    /** Drops every side the strategy believed placed, filled or stopped. */
    method ForgetSides()
      modifies this`placed, this`filled, this`fillOrder, this`stopped
      ensures State() == old(State()).(placed := {}, filled := {}, fillOrder := [], stopped := {})
    {
      placed := {};
      filled := {};
      fillOrder := [];
      stopped := {};
    }

    /** Drops every signal, trim and floating result. */
    method ForgetPlans()
      modifies this`signalQueue, this`pendingClose, this`retired
      ensures State() == old(State()).(queue := [], pendingClose := {}, retired := {})
    {
      signalQueue := [];
      pendingClose := {};
      retired := {};
    }

    method ClearGridPositions()
      modifies this
      ensures State() == M.ClearPositions(old(State()))
    {
      ForgetPlans();
      ForgetSides();
      sessionUnrealizedPnl := 0.0;
      closeAllInProgress := false;
    }

    method RestartSession()
      modifies this
      ensures State() == M.Restart(old(State()))
    {
      ClearGridPositions();
      anchorPrice := None;
      levels := [];
      sessionRealizedPnl := 0.0;
      sessionCount := sessionCount + 1;
    }

    method TriggerCloseAll(reason: string)
      modifies this`closeReason, this`closeAllInProgress, this`signalQueue, this`sessionHistory
      ensures State() == M.TriggerCloseAll(old(State()), reason)
    {
      closeReason := reason;
      closeAllInProgress := true;
      signalQueue := [];
      sessionHistory := sessionHistory + [M.SessionRecord(sessionCount, reason, Round2(sessionRealizedPnl))];
    }

    method NotifyCloseAllComplete()
      modifies this
      ensures State() == M.NotifyComplete(old(State()))
    {
      closeAllInProgress := false;
      if sessionActive {
        RestartSession();
      } else {
        ClearGridPositions();
      }
    }

    // ---- The strategy cycle

    method PopSignal() returns (signal: Option<Signal>)
      modifies this`signalQueue
      ensures (State(), signal) == M.PopSignal(old(State()))
    {
      if signalQueue == [] {
        return None;
      }
      signal := Some(signalQueue[0]);
      signalQueue := signalQueue[1..];
    }

    method StartBar(bar: Bar)
      modifies this
      ensures State() == M.StartBar(old(State()), bar)
    {
      currentPrice := bar.close;
      if currentDate != "" && bar.date != currentDate {
        dailyRealizedPnl := 0.0;
        if !sessionActive && !closeAllInProgress {
          RestartSession();
        }
        sessionActive := true;
      }
      currentDate := bar.date;
    }

    method SetAnchor()
      modifies this`anchorPrice, this`levels
      ensures State() == old(State()).(anchor := Some(old(currentPrice)),
                                       levels := Ladder.BuildLadder(config.anchorGap, config.spacing,
                                                                    old(currentPrice)))
    {
      anchorPrice := Some(currentPrice);
      levels := BuildLadder(currentPrice);
    }

    method InitSession()
      modifies this
      ensures State() == M.InitSession(config, old(State()))
    {
      SetAnchor();
      PlaceAnchorPair();
      MaintainGrid();
    }

    method Generate(bars: seq<Bar>) returns (signal: Option<Signal>)
      modifies this
      ensures (State(), signal) == M.Generate(config, old(State()), bars)
    {
      if bars == [] {
        return None;
      }
      StartBar(bars[|bars|-1]);
      if signalQueue != [] {
        signal := PopSignal();
        return;
      }
      if closeAllInProgress {
        return Some(CloseAll(closeReason));
      }
      if !sessionActive {
        return None;
      }
      if dailyRealizedPnl + sessionUnrealizedPnl <= -config.dailyLimit {
        sessionActive := false;
        if anchorPrice.Some? {
          TriggerCloseAll("daily_loss_limit");
          return Some(CloseAll("daily_loss_limit"));
        }
        return None;
      }
      if anchorPrice.Some? {
        var total := sessionRealizedPnl + sessionUnrealizedPnl;
        if total >= config.profitTarget {
          TriggerCloseAll("session_profit_target");
          return Some(CloseAll("session_profit_target"));
        }
        if total <= -config.lossLimit {
          TriggerCloseAll("session_loss_limit");
          return Some(CloseAll("session_loss_limit"));
        }
      }
      if anchorPrice.None? {
        InitSession();
      } else {
        TrimActiveLevels();
        MaintainGrid();
      }
      signal := PopSignal();
    }
  }
}
