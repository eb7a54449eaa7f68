/**
 Every trade has one key: the runner's trade map stays injective in every run, with any settings and even when the
 drain drops signals, because broker ids are new each time.
 */
module TradeKeys {
  import opened Market
  import opened GridModel
  import opened BrokerModel
  import opened RunnerModel
  import opened MarketData

  /** No two keys share a trade, and no key holds an id that is still to be given out. */
  ghost predicate Keyed(w: World) {
    Injective(w.tm) && forall k :: k in w.tm ==> w.tm[k] < w.b.nextId
  }

  /** Fewer keys, and ids that only grew. */
  lemma FewerKeys(w: World, w': World)
    requires Keyed(w) && w'.b.nextId >= w.b.nextId
    requires forall k :: k in w'.tm ==> k in w.tm && w'.tm[k] == w.tm[k]
    ensures Keyed(w')
  {
  }

  // ---- The broker

  lemma {:induction false} StopOutsKeepIds(c: BrokerConfig, b: Broker, bar: Bar, ts: seq<OpenTrade>)
    ensures StopOuts(c, b, bar, ts).nextId == b.nextId
  {
    if ts != [] {
      StopOutsKeepIds(c, b, bar, ts[..|ts|-1]);
    }
  }

  /** Fills get consecutive new ids. */
  ghost predicate Numbered(fills: seq<OpenTrade>, first: nat) {
    forall i :: 0 <= i < |fills| ==> fills[i].id == first + i
  }

  lemma {:induction false} FillsAreNumbered(c: BrokerConfig, b: Broker, bar: Bar, ps: seq<PendingOrder>)
    ensures var b' := FillOrders(c, b, bar, ps);
      && b'.nextId == b.nextId + |ps| && |b'.openTrades| == |b.openTrades| + |ps|
      && b'.openTrades[..|b.openTrades|] == b.openTrades && Numbered(b'.openTrades[|b.openTrades|..], b.nextId)
  {
    if ps != [] {
      FillsAreNumbered(c, b, bar, ps[..|ps|-1]);
      var b1, b' := FillOrders(c, b, bar, ps[..|ps|-1]), FillOrders(c, b, bar, ps);
      assert b'.openTrades[..|b1.openTrades|] == b1.openTrades;
      assert b'.openTrades[..|b.openTrades|] == b'.openTrades[..|b1.openTrades|][..|b.openTrades|];
      assert b'.openTrades[|b.openTrades|..] == b1.openTrades[|b.openTrades|..] + [b'.openTrades[|b1.openTrades|]];
    }
  }

  lemma BarNumbersFills(c: BrokerConfig, b: Broker, bar: Bar)
    ensures Numbered(NewFills(c, b, bar), b.nextId)
    ensures ProcessBar(c, b, bar).nextId == b.nextId + |NewFills(c, b, bar)|
  {
    StopOutsKeepIds(c, b, bar, StoppedOut(b.openTrades, bar));
    var b1 := AfterStops(c, b, bar);
    FillsAreNumbered(c, b1, bar, Triggered(b1.pending, bar));
  }

  /** A close appends one result under the id that was asked for. */
  lemma CloseAppends(c: BrokerConfig, b: Broker, bar: Bar, id: nat)
    requires CloseTrade(c, b, bar, id).Some?
    ensures var b' := CloseTrade(c, b, bar, id).value;
      && b'.nextId == b.nextId
      && |b'.closed| == |b.closed| + 1 && b'.closed == b.closed + [b'.closed[|b.closed|]]
      && b'.closed[|b.closed|].id == id && Lookup(b'.closed, id) == Some(b'.closed[|b.closed|])
  {
  }

  // ---- The runner

  lemma {:induction false} FillsKeepKeyed(w: World, fills: seq<OpenTrade>, first: nat)
    requires Injective(w.tm) && (forall k :: k in w.tm ==> w.tm[k] < first) && Numbered(fills, first)
    ensures var w' := HandleFills(w, fills);
      && Injective(w'.tm) && (forall k :: k in w'.tm ==> w'.tm[k] < first + |fills|) && w'.b.nextId == w.b.nextId
  {
    if fills != [] {
      FillsKeepKeyed(w, fills[..|fills|-1], first);
    }
  }

  lemma BankKeepsKeyed(w: World, id: nat, pnl: real)
    requires Keyed(w)
    ensures Keyed(Bank(w, id, pnl)) && Bank(w, id, pnl).b == w.b
  {
    FewerKeys(w, Bank(w, id, pnl));
  }

  lemma CloseAndBankKeepsKeyed(rc: RunConfig, w: World, bar: Bar, id: nat)
    requires Keyed(w)
    ensures Keyed(CloseAndBank(rc, w, bar, id))
  {
    hide CloseTrade, Lookup, Bank;
    if CloseTrade(rc.broker, w.b, bar, id).Some? {
      CloseAppends(rc.broker, w.b, bar, id);
      var b1 := CloseTrade(rc.broker, w.b, bar, id).value;
      FewerKeys(w, w.(b := b1));
      BankKeepsKeyed(w.(b := b1), id, b1.closed[|w.b.closed|].pnl);
    }
  }

  lemma {:induction false} CloseEachKeepsKeyed(rc: RunConfig, w: World, bar: Bar, trades: seq<OpenTrade>)
    requires Keyed(w)
    ensures Keyed(CloseEach(rc, w, bar, trades))
  {
    if trades != [] {
      hide CloseAndBank, Keyed;
      CloseEachKeepsKeyed(rc, w, bar, trades[..|trades|-1]);
      CloseAndBankKeepsKeyed(rc, CloseEach(rc, w, bar, trades[..|trades|-1]), bar, trades[|trades|-1].id);
    }
  }

  lemma SignalKeepsKeyed(rc: RunConfig, w: World, bar: Bar, s: Signal)
    requires Keyed(w)
    ensures Keyed(ProcessSignal(rc, w, bar, s))
  {
    hide CloseEach, Stamp;
  }

  lemma TrimKeepsKeyed(rc: RunConfig, w: World, bar: Bar, k: Key)
    requires Keyed(w)
    ensures Keyed(TrimKey(rc, w, bar, k))
  {
    hide CloseTrade;
    var b1 := if k in w.om then w.b.(pending := RemoveById(w.b.pending, w.om[k])) else w.b;
    if k in w.tm && CloseTrade(rc.broker, b1, bar, w.tm[k]).Some? {
      CloseAppends(rc.broker, b1, bar, w.tm[k]);
    }
    FewerKeys(w, TrimKey(rc, w, bar, k));
  }

  lemma ReportKeepsKeyed(rc: RunConfig, w: World, bar: Bar)
    requires Keyed(w)
    ensures var w1 := HandleFills(w.(b := ProcessBar(rc.broker, w.b, bar)), NewFills(rc.broker, w.b, bar));
      Keyed(w1)
  {
    hide ProcessBar, NewFills, HandleFills;
    BarNumbersFills(rc.broker, w.b, bar);
    FillsKeepKeyed(w.(b := ProcessBar(rc.broker, w.b, bar)), NewFills(rc.broker, w.b, bar), w.b.nextId);
  }

  lemma {:induction false} ClosuresKeepKeyed(w: World, closures: seq<ClosedTrade>)
    requires Keyed(w)
    ensures Keyed(HandleClosures(w, closures))
  {
    if closures != [] {
      hide Bank, Keyed;
      var c := closures[|closures|-1];
      ClosuresKeepKeyed(w, closures[..|closures|-1]);
      BankKeepsKeyed(HandleClosures(w, closures[..|closures|-1]), c.id, c.pnl);
    }
  }

  lemma BeforeDrainKeepsKeyed(rc: RunConfig, w: World, bar: Bar)
    requires Keyed(w)
    ensures Keyed(BeforeDrain(rc, w, bar))
  {
    hide ProcessBar, NewFills, NewClosures, HandleFills, HandleClosures;
    ReportKeepsKeyed(rc, w, bar);
    ClosuresKeepKeyed(HandleFills(w.(b := ProcessBar(rc.broker, w.b, bar)), NewFills(rc.broker, w.b, bar)),
                      NewClosures(rc.broker, w.b, bar));
  }

  lemma AskKeepsKeyed(rc: RunConfig, w: World, bars: seq<Bar>)
    requires Keyed(w)
    ensures Keyed(Ask(rc, w, bars).0)
  {
    hide Generate;
  }

  lemma {:induction false} DrainKeepsKeyed(rc: RunConfig, w: World, bars: seq<Bar>, s: Option<Signal>, count: nat)
    requires bars != [] && Keyed(w)
    ensures Keyed(DrainFrom(rc, w, bars, s, count).w)
    decreases MAX_SIGNAL_DRAIN - count
  {
    hide ProcessSignal, Ask, Keyed, DrainFrom;
    DrainUnfolds(rc, w, bars, s, count);
    if s.Some? && count < MAX_SIGNAL_DRAIN {
      SignalKeepsKeyed(rc, w, bars[|bars|-1], s.value);
      var w1 := ProcessSignal(rc, w, bars[|bars|-1], s.value);
      AskKeepsKeyed(rc, w1, bars);
      DrainKeepsKeyed(rc, Ask(rc, w1, bars).0, bars, Ask(rc, w1, bars).1, count + 1);
    }
  }

  lemma {:induction false} TrimsKeepKeyed(rc: RunConfig, w: World, bar: Bar, keys: seq<Key>)
    requires Keyed(w)
    ensures Keyed(TrimKeys(rc, w, bar, keys))
  {
    if keys != [] {
      hide TrimKey, Keyed;
      TrimsKeepKeyed(rc, w, bar, keys[..|keys|-1]);
      TrimKeepsKeyed(rc, TrimKeys(rc, w, bar, keys[..|keys|-1]), bar, keys[|keys|-1]);
    }
  }

  lemma StepKeepsKeyed(rc: RunConfig, w: World, bars: seq<Bar>)
    requires bars != [] && Keyed(w)
    ensures Keyed(GridStep(rc, w, bars))
  {
    hide BeforeDrain, DrainFrom, TrimKeys, Generate;
    var bar := bars[|bars|-1];
    BeforeDrainKeepsKeyed(rc, w, bar);
    var (w1, s) := Ask(rc, BeforeDrain(rc, w, bar), bars);
    DrainKeepsKeyed(rc, w1, bars, s, 0);
    var w2 := Drain(rc, BeforeDrain(rc, w, bar), bars).w;
    TrimsKeepKeyed(rc, w2.(g := w2.g.(pendingClose := {})), bar, rc.enumerate(w2.g.pendingClose));
  }

  /** Main result: in every run, with any settings and however many signals are dropped, no two keys share a trade. */
  lemma {:induction false} RunIsKeyed(rc: RunConfig, capital: real, bars: seq<Bar>, count: nat, n: nat)
    requires 1 <= count && count + n <= |bars|
    ensures Keyed(Replay(rc, capital, bars, count, n))
  {
    if n > 0 {
      hide GridStep, Keyed;
      RunIsKeyed(rc, capital, bars, count, n - 1);
      StepKeepsKeyed(rc, Replay(rc, capital, bars, count, n - 1), Visible(bars, count + n - 1, count));
    }
  }
}
