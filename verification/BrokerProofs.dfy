/** What one bar, one order or one close does to the simulated broker's books. */
module BrokerProofs {
  import opened Market
  import opened BrokerModel
  import opened Books

  ghost predicate DistinctClosed(cs: seq<ClosedTrade>) {
    forall i, j :: 0 <= i < j < |cs| ==> cs[i].id != cs[j].id
  }

  /** Every id is used once, and no trade is both open and closed. */
  ghost predicate BrokerOk(b: Broker) {
    && Distinct(b.openTrades) && Distinct(b.pending) && DistinctClosed(b.closed)
    && (forall t :: t in b.openTrades ==> t.id < b.nextId)
    && (forall p :: p in b.pending ==> p.id < b.nextId)
    && (forall c :: c in b.closed ==> c.id < b.nextId)
    && (forall t, c :: t in b.openTrades && c in b.closed ==> t.id != c.id)
  }

  /** Capital is what was paid in, plus every banked result, minus every commission. */
  ghost predicate Balanced(b: Broker, paidIn: real) {
    b.capital == paidIn + Sum(Pnls(b.closed)) - b.commission
  }

  lemma PnlsAppend(cs: seq<ClosedTrade>, c: ClosedTrade)
    ensures Pnls(cs + [c]) == Pnls(cs) + [c.pnl]
  {
  }

  lemma LookupLatest(cs: seq<ClosedTrade>, c: ClosedTrade)
    ensures Lookup(cs + [c], c.id) == Some(c)
  {
  }

  /** The books after a trade `t` was settled with the result `c`. */
  ghost predicate Realized(b: Broker, b': Broker, t: OpenTrade, c: ClosedTrade) {
    && c.id == t.id
    && b' == b.(capital := b.capital + c.pnl, closed := b.closed + [c],
                openTrades := RemoveFirst(b.openTrades, t), draws := b.draws + 1)
  }

  lemma RealizedKeeps(b: Broker, b': Broker, t: OpenTrade, c: ClosedTrade, paidIn: real)
    requires BrokerOk(b) && t in b.openTrades && Realized(b, b', t, c)
    ensures BrokerOk(b')
    ensures Balanced(b, paidIn) ==> Balanced(b', paidIn)
    ensures Tickets(b'.openTrades) == Tickets(b.openTrades) - {t.id}
    ensures Pnls(b'.closed) == Pnls(b.closed) + [c.pnl]
    ensures Lookup(b'.closed, t.id) == Some(c)
  {
    RemoveIsExact(b.openTrades, t);
    RemoveTickets(b.openTrades, t);
    PnlsAppend(b.closed, c);
    SumAppend(Pnls(b.closed), c.pnl);
    forall i, j | 0 <= i < j < |b'.closed| ensures b'.closed[i].id != b'.closed[j].id {
      assert b'.closed[i] in b.closed;
    }
  }

  lemma CloseTradeRealizes(c: BrokerConfig, b: Broker, bar: Bar, t: OpenTrade) returns (info: ClosedTrade)
    requires BrokerOk(b) && t in b.openTrades
    ensures CloseTrade(c, b, bar, t.id).Some? && Realized(b, CloseTrade(c, b, bar, t.id).value, t, info)
  {
    FindIsTheTrade(b.openTrades, t);
    var b' := CloseAtMarket(c, b, bar, t);
    info := b'.closed[|b'.closed|-1];
  }

  /** The books after a fill opened one trade with key `k`. */
  ghost predicate Opened(c: BrokerConfig, b: Broker, b': Broker, t: OpenTrade) {
    && t.id == b.nextId
    && b' == b.(openTrades := b.openTrades + [t], capital := b.capital - c.commissionPerTrade,
                commission := b.commission + c.commissionPerTrade, nextId := b.nextId + 1, draws := b.draws + 1)
  }

  lemma OpenedKeeps(c: BrokerConfig, b: Broker, b': Broker, t: OpenTrade, paidIn: real)
    requires BrokerOk(b) && Opened(c, b, b', t)
    ensures BrokerOk(b')
    ensures Balanced(b, paidIn) ==> Balanced(b', paidIn)
    ensures Tickets(b'.openTrades) == Tickets(b.openTrades)[t.id := t.gridKey]
    ensures t.id !in Tickets(b.openTrades)
  {
    TicketsAppend(b.openTrades, t);
    TicketsAre(b.openTrades);
    forall i, j | 0 <= i < j < |b'.openTrades| ensures b'.openTrades[i].id != b'.openTrades[j].id {
      assert b'.openTrades[i] in b.openTrades;
    }
  }

  /** A market order leaves the stamped trade as the last of the list. */
  lemma MarketFillOpens(c: BrokerConfig, b: Broker, bar: Bar, side: OrderSide, quantity: real, stop: real, k: Key)
    returns (t: OpenTrade)
    requires BrokerOk(b)
    ensures var b1 := FillMarket(c, b, bar, side, quantity, stop);
      t.gridKey == Some(k) && Opened(c, b, b1.(openTrades := Stamp(b1.openTrades, b.nextId, k)), t)
  {
    var b1 := FillMarket(c, b, bar, side, quantity, stop);
    var t1 := b1.openTrades[|b1.openTrades|-1];
    StampLast(b.openTrades, t1, k);
    t := t1.(gridKey := Some(k));
  }

  /** The books after one order was listed. */
  ghost predicate Listed(b: Broker, b': Broker, p: PendingOrder) {
    p.id == b.nextId && b' == b.(pending := b.pending + [p], nextId := b.nextId + 1)
  }

  lemma ListedKeeps(b: Broker, b': Broker, p: PendingOrder, paidIn: real)
    requires BrokerOk(b) && Listed(b, b', p)
    ensures BrokerOk(b')
    ensures Balanced(b, paidIn) ==> Balanced(b', paidIn)
    ensures p.id !in Tickets(b.pending)
    ensures Tickets(b'.pending) == Tickets(b.pending)[p.id := p.gridKey]
  {
    TicketsAppend(b.pending, p);
    TicketsAre(b.pending);
    forall i, j | 0 <= i < j < |b'.pending| ensures b'.pending[i].id != b'.pending[j].id {
      assert b'.pending[i] in b.pending;
    }
  }

  /** A resting order is listed under its key. */
  lemma PendingIsListed(b: Broker, side: OrderSide, quantity: real, price: real, stop: real, isStop: bool, k: Key)
    returns (p: PendingOrder)
    requires BrokerOk(b)
    ensures var b1 := PlacePending(b, side, quantity, price, stop, isStop);
      p.gridKey == Some(k) && Listed(b, b1.(pending := Stamp(b1.pending, b.nextId, k)), p)
  {
    var b1 := PlacePending(b, side, quantity, price, stop, isStop);
    var p1 := b1.pending[|b.pending|];
    StampLast(b.pending, p1, k);
    p := p1.(gridKey := Some(k));
  }

  lemma RemovePending(b: Broker, p: PendingOrder, paidIn: real)
    requires BrokerOk(b) && p in b.pending
    ensures var b' := b.(pending := RemoveFirst(b.pending, p));
      && BrokerOk(b') && (Balanced(b, paidIn) ==> Balanced(b', paidIn))
      && Tickets(b'.pending) == Tickets(b.pending) - {p.id}
    ensures RemoveById(b.pending, p.id) == RemoveFirst(b.pending, p)
  {
    RemoveIsExact(b.pending, p);
    RemoveTickets(b.pending, p);
  }

  // ---- One bar

  /** The trades stopped out by a bar are open trades, each once. */
  lemma {:induction false} StoppedOutAmong(ts: seq<OpenTrade>, bar: Bar)
    requires Distinct(ts)
    ensures Distinct(StoppedOut(ts, bar))
    ensures forall t :: t in StoppedOut(ts, bar) ==> t in ts
  {
    if ts != [] {
      var init, last := ts[..|ts|-1], ts[|ts|-1];
      StoppedOutAmong(init, bar);
      var s := StoppedOut(init, bar);
      forall t | t in s ensures t.id != last.id {
        var i :| 0 <= i < |init| && init[i] == t;
        assert ts[i].id != ts[|ts|-1].id;
      }
    }
  }

  lemma {:induction false} TriggeredAmong(ps: seq<PendingOrder>, bar: Bar)
    requires Distinct(ps)
    ensures Distinct(Triggered(ps, bar))
    ensures forall p :: p in Triggered(ps, bar) ==> p in ps
  {
    if ps != [] {
      var init, last := ps[..|ps|-1], ps[|ps|-1];
      TriggeredAmong(init, bar);
      var s := Triggered(init, bar);
      forall p | p in s ensures p.id != last.id {
        var i :| 0 <= i < |init| && init[i] == p;
        assert ps[i].id != ps[|ps|-1].id;
      }
    }
  }

  /** The books after the trades `ts` were closed, in order, as `closures`. */
  ghost predicate AfterClosing(b: Broker, b': Broker, ts: seq<OpenTrade>, closures: seq<ClosedTrade>, paidIn: real) {
    && BrokerOk(b') && Balanced(b', paidIn)
    && b'.pending == b.pending && b'.nextId == b.nextId
    && (forall x :: x in b.openTrades && x.id !in Ids(ts) ==> x in b'.openTrades)
    && Tickets(b'.openTrades) == Tickets(b.openTrades) - Ids(ts)
    && b'.closed == b.closed + closures
    && |closures| == |ts| && (forall i :: 0 <= i < |ts| ==> closures[i].id == ts[i].id)
  }

  lemma NoneClosed(b: Broker, paidIn: real)
    requires BrokerOk(b) && Balanced(b, paidIn)
    ensures AfterClosing(b, b, [], [], paidIn)
  {
  }

  lemma BooksAreDistinct(b: Broker)
    requires BrokerOk(b)
    ensures Distinct(b.openTrades) && Distinct(b.pending)
  {
  }

  /** What stood besides `gone` stands besides `gone` and `e` once `e` is removed. */
  lemma OthersStay<T>(es: seq<Booked<T>>, left: seq<Booked<T>>, gone: set<nat>, e: Booked<T>)
    requires Distinct(left) && e in left && forall x :: x in es && x.id !in gone ==> x in left
    ensures forall x :: x in es && x.id !in gone + {e.id} ==> x in RemoveFirst(left, e)
  {
    RemoveIsExact(left, e);
  }

  lemma OneMoreClosed(b: Broker, b1: Broker, b': Broker, init: seq<OpenTrade>, t: OpenTrade,
                      closures: seq<ClosedTrade>, info: ClosedTrade, paidIn: real)
    requires AfterClosing(b, b1, init, closures, paidIn) && Realized(b1, b', t, info)
    requires t in b.openTrades && t.id !in Ids(init)
    ensures AfterClosing(b, b', init + [t], closures + [info], paidIn)
  {
    hide BrokerOk, Balanced, Tickets, Ids, RemoveFirst;
    IdsAppend(Tickets(b.openTrades), init, t);
    assert b.closed + (closures + [info]) == b.closed + closures + [info];
    RealizedKeeps(b1, b', t, info, paidIn);
    BooksAreDistinct(b1);
    OthersStay(b.openTrades, b1.openTrades, Ids(init), t);
  }

  lemma StopOutAdds(c: BrokerConfig, b: Broker, b1: Broker, bar: Bar, init: seq<OpenTrade>, t: OpenTrade,
                    closures: seq<ClosedTrade>, paidIn: real)
    returns (info: ClosedTrade)
    requires AfterClosing(b, b1, init, closures, paidIn)
    requires t in b.openTrades && t.id !in Ids(init)
    ensures AfterClosing(b, StopOut(c, b1, bar, t), init + [t], closures + [info], paidIn)
  {
    var price := Friction(c, b1.draws, Opposite(t.terms.side), StopBase(t, bar));
    var b' := Settle(b1, t, price, StopLossHit);
    info := b'.closed[|b1.closed|];
    OneMoreClosed(b, b1, b', init, t, closures, info, paidIn);
  }

  lemma {:induction false} StopOutsEffect(c: BrokerConfig, b: Broker, bar: Bar, ts: seq<OpenTrade>, paidIn: real)
    returns (closures: seq<ClosedTrade>)
    requires BrokerOk(b) && Balanced(b, paidIn) && Distinct(ts)
    requires forall i :: 0 <= i < |ts| ==> ts[i] in b.openTrades
    ensures AfterClosing(b, StopOuts(c, b, bar, ts), ts, closures, paidIn)
  {
    if ts == [] {
      NoneClosed(b, paidIn);
      closures := [];
    } else {
      var init, t := ts[..|ts|-1], ts[|ts|-1];
      DistinctPrefix(ts);
      closures := StopOutsEffect(c, b, bar, init, paidIn);
      var info := StopOutAdds(c, b, StopOuts(c, b, bar, init), bar, init, t, closures, paidIn);
      closures := closures + [info];
    }
  }

  /** The books after the orders `ps` were filled, in order, as the trades `fills`. */
  ghost predicate AfterFilling(b: Broker, b': Broker, ps: seq<PendingOrder>, fills: seq<OpenTrade>, paidIn: real) {
    && BrokerOk(b') && Balanced(b', paidIn)
    && b'.closed == b.closed && b'.nextId >= b.nextId
    && b'.openTrades == b.openTrades + fills
    && |fills| == |ps| && (forall i :: 0 <= i < |ps| ==> fills[i].gridKey == ps[i].gridKey)
    && (forall i :: 0 <= i < |fills| ==> fills[i].id >= b.nextId)
    && (forall x :: x in b.pending && x.id !in Ids(ps) ==> x in b'.pending)
    && Tickets(b'.pending) == Tickets(b.pending) - Ids(ps)
  }

  /** The books after one order was filled. */
  ghost predicate Filled(c: BrokerConfig, b: Broker, b': Broker, p: PendingOrder, t: OpenTrade) {
    && t.gridKey == p.gridKey && p in b.pending
    && Opened(c, b, b'.(pending := b.pending), t)
    && b'.pending == RemoveFirst(b.pending, p)
  }

  lemma FilledKeeps(c: BrokerConfig, b: Broker, b': Broker, p: PendingOrder, t: OpenTrade, paidIn: real)
    requires BrokerOk(b) && Filled(c, b, b', p, t)
    ensures BrokerOk(b')
    ensures Balanced(b, paidIn) ==> Balanced(b', paidIn)
    ensures Tickets(b'.pending) == Tickets(b.pending) - {p.id}
  {
    var b2 := b'.(pending := b.pending);
    OpenedKeeps(c, b, b2, t, paidIn);
    RemovePending(b2, p, paidIn);
    assert b' == b2.(pending := RemoveFirst(b2.pending, p));
  }

  lemma OneMoreFilled(c: BrokerConfig, b: Broker, b1: Broker, b': Broker, init: seq<PendingOrder>, p: PendingOrder,
                      fills: seq<OpenTrade>, t: OpenTrade, paidIn: real)
    requires AfterFilling(b, b1, init, fills, paidIn) && Filled(c, b1, b', p, t)
    requires p in b.pending && p.id !in Ids(init)
    ensures AfterFilling(b, b', init + [p], fills + [t], paidIn)
  {
    hide BrokerOk, Balanced, Tickets, Ids, RemoveFirst;
    IdsAppend(Tickets(b.pending), init, p);
    assert b.openTrades + (fills + [t]) == b.openTrades + fills + [t];
    FilledKeeps(c, b1, b', p, t, paidIn);
    BooksAreDistinct(b1);
    OthersStay(b.pending, b1.pending, Ids(init), p);
  }

  lemma FillAdds(c: BrokerConfig, b: Broker, b1: Broker, bar: Bar, init: seq<PendingOrder>, p: PendingOrder,
                 fills: seq<OpenTrade>, paidIn: real)
    returns (t: OpenTrade)
    requires AfterFilling(b, b1, init, fills, paidIn)
    requires p in b.pending && p.id !in Ids(init)
    ensures AfterFilling(b, FillOrder(c, b1, bar, p), init + [p], fills + [t], paidIn)
  {
    var b' := FillOrder(c, b1, bar, p);
    t := b'.openTrades[|b1.openTrades|];
    OneMoreFilled(c, b, b1, b', init, p, fills, t, paidIn);
  }

  lemma NoneFilled(b: Broker, paidIn: real)
    requires BrokerOk(b) && Balanced(b, paidIn)
    ensures AfterFilling(b, b, [], [], paidIn)
  {
  }

  lemma {:induction false} FillOrdersEffect(c: BrokerConfig, b: Broker, bar: Bar, ps: seq<PendingOrder>, paidIn: real)
    returns (fills: seq<OpenTrade>)
    requires BrokerOk(b) && Balanced(b, paidIn) && Distinct(ps)
    requires forall i :: 0 <= i < |ps| ==> ps[i] in b.pending
    ensures AfterFilling(b, FillOrders(c, b, bar, ps), ps, fills, paidIn)
  {
    if ps == [] {
      NoneFilled(b, paidIn);
      fills := [];
    } else {
      var init, p := ps[..|ps|-1], ps[|ps|-1];
      DistinctPrefix(ps);
      fills := FillOrdersEffect(c, b, bar, init, paidIn);
      var t := FillAdds(c, b, FillOrders(c, b, bar, init), bar, init, p, fills, paidIn);
      fills := fills + [t];
    }
  }

  /** One bar: the trades `ts` stopped out as `closures`, then the orders `ps` filled as the trades `fills`. */
  ghost predicate BarOutcome(b: Broker, b': Broker, ts: seq<OpenTrade>, ps: seq<PendingOrder>,
                             fills: seq<OpenTrade>, closures: seq<ClosedTrade>, paidIn: real) {
    && BrokerOk(b') && Balanced(b', paidIn)
    && Distinct(ts) && Distinct(ps) && Distinct(fills)
    && (forall i :: 0 <= i < |ts| ==> ts[i].id in Tickets(b.openTrades))
    && (forall i :: 0 <= i < |ps| ==> ps[i].id in Tickets(b.pending) && Tickets(b.pending)[ps[i].id] == ps[i].gridKey)
    && |closures| == |ts| && (forall i :: 0 <= i < |ts| ==> closures[i].id == ts[i].id)
    && b'.closed == b.closed + closures
    && |fills| == |ps| && (forall i :: 0 <= i < |ps| ==> fills[i].gridKey == ps[i].gridKey)
    && (forall i :: 0 <= i < |fills| ==> fills[i] in b'.openTrades && fills[i].id !in Tickets(b.openTrades))
    && Tickets(b'.openTrades) == Tickets(b.openTrades) - Ids(ts) + Tickets(fills)
    && Tickets(b'.pending) == Tickets(b.pending) - Ids(ps)
  }

  lemma SuffixDistinct<T>(es: seq<Booked<T>>, fs: seq<Booked<T>>)
    requires Distinct(es + fs)
    ensures Distinct(fs)
  {
    forall i, j | 0 <= i < j < |fs| ensures fs[i].id != fs[j].id {
      assert (es + fs)[|es| + i] == fs[i] && (es + fs)[|es| + j] == fs[j];
    }
  }

  lemma AmongTickets<T>(es: seq<Booked<T>>, xs: seq<Booked<T>>)
    requires Distinct(es) && forall i :: 0 <= i < |xs| ==> xs[i] in es
    ensures forall i :: 0 <= i < |xs| ==> xs[i].id in Tickets(es) && Tickets(es)[xs[i].id] == xs[i].gridKey
  {
    TicketsAre(es);
  }

  lemma NewIdsAreNoTickets<T>(es: seq<Booked<T>>, xs: seq<Booked<T>>, next: nat)
    requires Distinct(es) && forall e :: e in es ==> e.id < next
    requires forall i :: 0 <= i < |xs| ==> xs[i].id >= next
    ensures forall i :: 0 <= i < |xs| ==> xs[i].id !in Tickets(es)
  {
  }

  lemma FillsAreOpen(before: seq<OpenTrade>, fills: seq<OpenTrade>)
    requires Distinct(before + fills)
    ensures Distinct(fills) && Tickets(before + fills) == Tickets(before) + Tickets(fills)
    ensures forall i :: 0 <= i < |fills| ==> fills[i] in before + fills
  {
    TicketsConcat(before, fills);
    SuffixDistinct(before, fills);
    hide Distinct, Tickets;
    forall i | 0 <= i < |fills| ensures fills[i] in before + fills {
      assert (before + fills)[|before| + i] == fills[i];
    }
  }

  lemma JoinBar(b: Broker, b1: Broker, b2: Broker, ts: seq<OpenTrade>, ps: seq<PendingOrder>,
                fills: seq<OpenTrade>, closures: seq<ClosedTrade>, paidIn: real)
    requires BrokerOk(b) && Distinct(ts) && Distinct(ps)
    requires AfterClosing(b, b1, ts, closures, paidIn) && AfterFilling(b1, b2, ps, fills, paidIn)
    requires forall i :: 0 <= i < |ts| ==> ts[i] in b.openTrades
    requires forall i :: 0 <= i < |ps| ==> ps[i] in b.pending
    ensures BarOutcome(b, b2, ts, ps, fills, closures, paidIn)
  {
    AmongTickets(b.openTrades, ts);
    AmongTickets(b.pending, ps);
    NewIdsAreNoTickets(b.openTrades, fills, b.nextId);
    FillsAreOpen(b1.openTrades, fills);
    hide Tickets, Ids, Balanced;
  }

  lemma ProcessBarOutcome(c: BrokerConfig, b: Broker, bar: Bar, paidIn: real)
    requires BrokerOk(b) && Balanced(b, paidIn)
    ensures BarOutcome(b, ProcessBar(c, b, bar), StoppedOut(b.openTrades, bar), Triggered(b.pending, bar),
                       NewFills(c, b, bar), NewClosures(c, b, bar), paidIn)
  {
    hide StoppedOut, Triggered, StopOuts, FillOrders, BarOutcome, Distinct;
    var ts, ps := StoppedOut(b.openTrades, bar), Triggered(b.pending, bar);
    StoppedOutAmong(b.openTrades, bar);
    TriggeredAmong(b.pending, bar);
    var closures := StopOutsEffect(c, b, bar, ts, paidIn);
    var b1 := AfterStops(c, b, bar);
    var fills := FillOrdersEffect(c, b1, bar, ps, paidIn);
    JoinBar(b, b1, FillOrders(c, b1, bar, ps), ts, ps, fills, closures, paidIn);
    assert NewFills(c, b, bar) == fills;
    assert NewClosures(c, b, bar) == closures;
  }
}
