/** Every trade pays exactly one commission, in every run, whatever the settings and the bars. */
module Commissions {
  import opened Market
  import opened GridModel
  import opened BrokerModel
  import opened RunnerModel
  import opened MarketData
  import opened StepAgreement
  import opened Banking

  /** The commission paid is the fee times the trades ever opened. */
  ghost predicate Charged(c: BrokerConfig, b: Broker) {
    b.commission == c.commissionPerTrade * (|b.openTrades| + |b.closed|) as real
  }

  lemma OneMoreFee(fee: real, n: nat)
    ensures fee * (n + 1) as real == fee * n as real + fee
  {
  }

  lemma {:induction false} RemoveLength<T>(s: seq<T>, x: T)
    requires x in s
    ensures |RemoveFirst(s, x)| == |s| - 1 && multiset(RemoveFirst(s, x)) == multiset(s) - multiset{x}
  {
    assert s == [s[0]] + s[1..];
    if s[0] != x {
      RemoveLength(s[1..], x);
    }
  }

  lemma {:induction false} StampLength<T>(es: seq<Booked<T>>, id: nat, k: Key)
    ensures |Stamp(es, id, k)| == |es|
  {
    if es != [] && es[0].id != id {
      StampLength(es[1..], id, k);
    }
  }

  // ---- The broker

  lemma SettleCharges(c: BrokerConfig, b: Broker, t: OpenTrade, price: real, reason: CloseReason)
    requires Charged(c, b) && t in b.openTrades
    ensures Charged(c, Settle(b, t, price, reason))
    ensures multiset(Settle(b, t, price, reason).openTrades) == multiset(b.openTrades) - multiset{t}
  {
    RemoveLength(b.openTrades, t);
  }

  lemma OpenCharges(c: BrokerConfig, b: Broker, side: OrderSide, quantity: real, price: real, stopLoss: real,
                    k: Option<Key>)
    requires Charged(c, b)
    ensures Charged(c, OpenAt(c, b, side, quantity, price, stopLoss, k))
  {
    OneMoreFee(c.commissionPerTrade, |b.openTrades| + |b.closed|);
  }

  lemma {:induction false} StoppedOutCounts(trades: seq<OpenTrade>, bar: Bar)
    ensures multiset(StoppedOut(trades, bar)) <= multiset(trades)
  {
    if trades != [] {
      StoppedOutCounts(trades[..|trades|-1], bar);
      assert trades == trades[..|trades|-1] + [trades[|trades|-1]];
    }
  }

  lemma {:induction false} StopOutsCharge(c: BrokerConfig, b: Broker, bar: Bar, ts: seq<OpenTrade>)
    requires Charged(c, b) && multiset(ts) <= multiset(b.openTrades)
    ensures var b' := StopOuts(c, b, bar, ts);
      Charged(c, b') && multiset(b'.openTrades) == multiset(b.openTrades) - multiset(ts)
  {
    if ts != [] {
      var init, t := ts[..|ts|-1], ts[|ts|-1];
      assert ts == init + [t];
      StopOutsCharge(c, b, bar, init);
      var b1 := StopOuts(c, b, bar, init);
      assert t in multiset(b1.openTrades);
      SettleCharges(c, b1, t, Friction(c, b1.draws, Opposite(t.terms.side), StopBase(t, bar)), StopLossHit);
    }
  }

  lemma {:induction false} FillOrdersCharge(c: BrokerConfig, b: Broker, bar: Bar, ps: seq<PendingOrder>)
    requires Charged(c, b)
    ensures Charged(c, FillOrders(c, b, bar, ps))
  {
    if ps != [] {
      var p := ps[|ps|-1];
      FillOrdersCharge(c, b, bar, ps[..|ps|-1]);
      var b1 := FillOrders(c, b, bar, ps[..|ps|-1]);
      OpenCharges(c, b1, p.terms.side, p.terms.quantity, Friction(c, b1.draws, p.terms.side, FillBase(p, bar)),
                  p.terms.stopLoss, p.gridKey);
    }
  }

  lemma BarCharges(c: BrokerConfig, b: Broker, bar: Bar)
    requires Charged(c, b)
    ensures Charged(c, ProcessBar(c, b, bar))
  {
    StoppedOutCounts(b.openTrades, bar);
    StopOutsCharge(c, b, bar, StoppedOut(b.openTrades, bar));
    var b1 := AfterStops(c, b, bar);
    FillOrdersCharge(c, b1, bar, Triggered(b1.pending, bar));
  }

  lemma CloseCharges(c: BrokerConfig, b: Broker, bar: Bar, id: nat)
    requires Charged(c, b)
    ensures CloseTrade(c, b, bar, id).Some? ==> Charged(c, CloseTrade(c, b, bar, id).value)
  {
    var found := FindTrade(b.openTrades, id);
    if found.Some? {
      SettleCharges(c, b, found.value, Friction(c, b.draws, Opposite(found.value.terms.side), bar.close), MarketClose);
    }
  }

  // ---- The runner

  lemma {:induction false} FillsCharge(c: BrokerConfig, w: World, fills: seq<OpenTrade>)
    requires Charged(c, w.b)
    ensures Charged(c, HandleFills(w, fills).b)
  {
    if fills != [] {
      FillsCharge(c, w, fills[..|fills|-1]);
      var w1, t := HandleFills(w, fills[..|fills|-1]), fills[|fills|-1];
      if t.gridKey.Some? {
        StampLength(w1.b.openTrades, t.id, t.gridKey.value);
      }
    }
  }

  lemma {:induction false} ClosuresLeaveBroker(w: World, closures: seq<ClosedTrade>)
    ensures HandleClosures(w, closures).b == w.b
  {
    if closures != [] {
      ClosuresLeaveBroker(w, closures[..|closures|-1]);
    }
  }

  lemma CloseAndBankCharges(rc: RunConfig, w: World, bar: Bar, id: nat)
    requires Charged(rc.broker, w.b)
    ensures Charged(rc.broker, CloseAndBank(rc, w, bar, id).b)
  {
    CloseCharges(rc.broker, w.b, bar, id);
  }

  lemma {:induction false} CloseEachCharges(rc: RunConfig, w: World, bar: Bar, trades: seq<OpenTrade>)
    requires Charged(rc.broker, w.b)
    ensures Charged(rc.broker, CloseEach(rc, w, bar, trades).b)
  {
    hide CloseAndBank;
    if trades != [] {
      CloseEachCharges(rc, w, bar, trades[..|trades|-1]);
      CloseAndBankCharges(rc, CloseEach(rc, w, bar, trades[..|trades|-1]), bar, trades[|trades|-1].id);
    }
  }

  lemma SignalCharges(rc: RunConfig, w: World, bar: Bar, s: Signal)
    requires Charged(rc.broker, w.b)
    ensures Charged(rc.broker, ProcessSignal(rc, w, bar, s).b)
  {
    hide CloseEach;
    if s.CloseAll? {
      CloseEachCharges(rc, CancelEverything(w), bar, w.b.openTrades);
    } else if s.orderType == OrderType.Market {
      var side := OrderSideOf(s.key.side);
      OpenCharges(rc.broker, w.b, side, s.units, Friction(rc.broker, w.b.draws, side, bar.close), s.stopLoss, None);
      StampLength(FillMarket(rc.broker, w.b, bar, side, s.units, s.stopLoss).openTrades, w.b.nextId, s.key);
    }
  }

  lemma {:induction false} DrainCharges(rc: RunConfig, w: World, bars: seq<Bar>, s: Option<Signal>, count: nat)
    requires bars != [] && Charged(rc.broker, w.b)
    ensures Charged(rc.broker, DrainFrom(rc, w, bars, s, count).w.b)
    decreases MAX_SIGNAL_DRAIN - count
  {
    hide ProcessSignal, Generate;
    if s.Some? && count < MAX_SIGNAL_DRAIN {
      SignalCharges(rc, w, bars[|bars|-1], s.value);
      var (w1, s1) := Ask(rc, ProcessSignal(rc, w, bars[|bars|-1], s.value), bars);
      DrainCharges(rc, w1, bars, s1, count + 1);
    }
  }

  lemma {:induction false} TrimsCharge(rc: RunConfig, w: World, bar: Bar, keys: seq<Key>)
    requires Charged(rc.broker, w.b)
    ensures Charged(rc.broker, TrimKeys(rc, w, bar, keys).b)
  {
    hide TrimKey;
    if keys != [] {
      TrimsCharge(rc, w, bar, keys[..|keys|-1]);
      TrimCharges(rc, TrimKeys(rc, w, bar, keys[..|keys|-1]), bar, keys[|keys|-1]);
    }
  }

  lemma TrimCharges(rc: RunConfig, w: World, bar: Bar, k: Key)
    requires Charged(rc.broker, w.b)
    ensures Charged(rc.broker, TrimKey(rc, w, bar, k).b)
  {
    hide CloseTrade;
    var b1 := if k in w.om then w.b.(pending := RemoveById(w.b.pending, w.om[k])) else w.b;
    if k in w.tm {
      CloseCharges(rc.broker, b1, bar, w.tm[k]);
    }
  }

  lemma StepCharges(rc: RunConfig, w: World, bars: seq<Bar>)
    requires bars != [] && Charged(rc.broker, w.b)
    ensures Charged(rc.broker, GridStep(rc, w, bars).b)
  {
    hide ProcessBar, HandleFills, HandleClosures, DrainFrom, TrimKeys, Generate;
    var bar := bars[|bars|-1];
    BarCharges(rc.broker, w.b, bar);
    var w1 := w.(b := ProcessBar(rc.broker, w.b, bar));
    FillsCharge(rc.broker, w1, NewFills(rc.broker, w.b, bar));
    var w2 := HandleFills(w1, NewFills(rc.broker, w.b, bar));
    ClosuresLeaveBroker(w2, NewClosures(rc.broker, w.b, bar));
    var w3 := BeforeDrain(rc, w, bar);
    var (w4, s) := Ask(rc, w3, bars);
    DrainCharges(rc, w4, bars, s, 0);
    var w5 := Drain(rc, w3, bars).w;
    TrimsCharge(rc, w5.(g := w5.g.(pendingClose := {})), bar, rc.enumerate(w5.g.pendingClose));
  }

  /**
   Main result: after every step of every run, even one that drops signals, the commission is the fee times the
   trades ever opened.
   */
  lemma {:induction false} OneFeePerTrade(rc: RunConfig, capital: real, bars: seq<Bar>, count: nat, n: nat)
    requires 1 <= count && count + n <= |bars|
    ensures Charged(rc.broker, Replay(rc, capital, bars, count, n).b)
  {
    hide GridStep;
    if n > 0 {
      OneFeePerTrade(rc, capital, bars, count, n - 1);
      StepCharges(rc, Replay(rc, capital, bars, count, n - 1), Visible(bars, count + n - 1, count));
    }
  }

  lemma {:induction false} FlattenCharges(rc: RunConfig, w: World, bar: Bar, trades: seq<OpenTrade>)
    requires Charged(rc.broker, w.b)
    ensures Charged(rc.broker, FlattenEach(rc, w, bar, trades).b)
  {
    hide CloseTrade;
    if trades != [] {
      FlattenCharges(rc, w, bar, trades[..|trades|-1]);
      CloseCharges(rc.broker, FlattenEach(rc, w, bar, trades[..|trades|-1]).b, bar, trades[|trades|-1].id);
    }
  }

  lemma {:induction false} AsManyPnls(closed: seq<ClosedTrade>)
    ensures |Pnls(closed)| == |closed|
  {
    if closed != [] {
      AsManyPnls(closed[..|closed|-1]);
    }
  }

  /** Main result: what a finished run earned is the sum of its booked results less one fee for each of them. */
  lemma RunEarnsItsLedger(rc: RunConfig, capital: real, bars: seq<Bar>, count: nat, n: nat, bar: Bar)
    requires 1 <= count && count + n <= |bars| && Enumerates(rc)
    ensures var w := FlattenAtEnd(rc, Replay(rc, capital, bars, count, n), bar);
      Equity(w.b, bar) - capital == Sum(w.pnls) - rc.broker.commissionPerTrade * |w.pnls| as real
  {
    hide Replay, FlattenEach, Equity, Pnls, Sum;
    var w := Replay(rc, capital, bars, count, n);
    FlattenedRunBalances(rc, capital, bars, count, n, bar);
    OneFeePerTrade(rc, capital, bars, count, n);
    FlattenCharges(rc, w, bar, w.b.openTrades);
    AsManyPnls(FlattenAtEnd(rc, w, bar).b.closed);
  }
}
