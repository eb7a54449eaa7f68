/** Entries rest: every resting signal is clear of the price, and every stop is on its losing side. */
module RestingOrders {
  import opened Market
  import opened Rounding
  import opened Ladder
  import opened GridModel
  import opened DrainAgreement
  import opened HaltSafety
  import B = BrokerModel
  import E = EngineModel

  predicate IsResting(s: Signal) {
    s.Entry? && s.orderType != OrderType.Market
  }

  /** A long is stopped below its entry, a short above. */
  predicate StopLoses(s: Signal)
    requires s.Entry?
  {
    if s.key.side == Long then s.stopLoss < s.limitPrice else s.stopLoss > s.limitPrice
  }

  /** The order lies at least 2.0 from the price, on the side where its type does not fill at once. */
  predicate ClearOf(s: Signal, price: real)
    requires s.Entry?
  {
    var up := if s.key.side == Long then s.orderType == OrderType.Stop else s.orderType == OrderType.Limit;
    if up then s.limitPrice >= price + MIN_RESTING_DISTANCE
    else s.limitPrice <= price - MIN_RESTING_DISTANCE
         && (s.orderType == if s.key.side == Long then OrderType.Limit else OrderType.Stop)
  }

  /** What holds of a resting signal queued at a price. */
  predicate Good(s: Signal, price: Option<real>) {
    IsResting(s) ==> StopLoses(s) && (price.Some? ==> ClearOf(s, price.value))
  }

  /** The ladder is sorted and the queue holds only good signals; with a price, they were all queued at it. */
  ghost predicate Fit(g: Grid, price: Option<real>) {
    && Increasing(g.levels)
    && (price.Some? ==> g.price == price.value)
    && forall i :: 0 <= i < |g.queue| ==> Good(g.queue[i], price)
  }

  // ---- The prices of one leg

  /** Every stop is at least one cent beyond its entry on the losing side. */
  lemma StopIsOnLosingSide(c: GridConfig, levels: seq<int>, level: int, side: Side)
    requires Increasing(levels) && c.stopBuffer >= 0.0
    requires SideStopLoss(c, levels, level, side).Some?
    ensures var stop, entry := SideStopLoss(c, levels, level, side).value, SideEntry(c, level, side);
      if side == Long then stop < entry else stop > entry
  {
  }

  lemma EntryIsGood(c: GridConfig, g: Grid, k: Key, market: bool, price: Option<real>)
    requires Fit(g, price) && c.stopBuffer >= 0.0
    requires SideStopLoss(c, g.levels, k.level, k.side).Some? && (market || !Unplaceable(c, g, k))
    ensures Good(EntrySignal(c, g, k, market), price)
  {
  }

  // ---- Every change of the strategy keeps the queue good

  lemma QueueSideFits(c: GridConfig, g: Grid, k: Key, market: bool, price: Option<real>)
    requires Fit(g, price) && c.stopBuffer >= 0.0
    ensures Fit(QueueSide(c, g, k, market), price)
  {
    if SideStopLoss(c, g.levels, k.level, k.side).Some? && (market || !Unplaceable(c, g, k)) {
      EntryIsGood(c, g, k, market, price);
    }
  }

  lemma QueueLevelFits(c: GridConfig, g: Grid, level: int, price: Option<real>)
    requires Fit(g, price) && c.stopBuffer >= 0.0
    ensures Fit(QueueLevel(c, g, level), price)
  {
    hide Fit;
    QueueSideFits(c, g, Key(level, Long), false, price);
    QueueSideFits(c, QueueMissing(c, g, Key(level, Long)), Key(level, Short), false, price);
  }

  lemma {:induction false} QueueLevelsFit(c: GridConfig, g: Grid, levels: seq<int>, price: Option<real>)
    requires Fit(g, price) && c.stopBuffer >= 0.0
    ensures Fit(QueueLevels(c, g, levels), price)
  {
    hide Fit, QueueLevel;
    if levels != [] {
      QueueLevelsFit(c, g, levels[..|levels|-1], price);
      QueueLevelFits(c, QueueLevels(c, g, levels[..|levels|-1]), levels[|levels|-1], price);
    }
  }

  lemma MaintainFits(c: GridConfig, g: Grid, price: Option<real>)
    requires Fit(g, price) && c.stopBuffer >= 0.0
    ensures Fit(Maintain(c, g), price)
  {
    if g.anchor.Some? {
      assert Fit(Retract(g, Window(c, g)), price);
      QueueLevelsFit(c, Retract(g, Window(c, g)), Window(c, g), price);
    }
  }

  lemma InitFits(c: GridConfig, g: Grid, price: Option<real>)
    requires Fit(g, price) && c.stopBuffer >= 0.0
    ensures Fit(InitSession(c, g), price)
  {
    var levels := BuildLadder(c.anchorGap, c.spacing, g.price);
    LadderIncreases(c.anchorGap, c.spacing, g.price);
    var g0 := g.(anchor := Some(g.price), levels := levels);
    assert Fit(g0, price);
    var level := Cents(g.price);
    QueueSideFits(c, g0, Key(level, Long), true, price);
    QueueSideFits(c, QueueSide(c, g0, Key(level, Long), true), Key(level, Short), true, price);
    MaintainFits(c, PlaceAnchorPair(c, g0), price);
  }

  /** What a call may hand out, and what it leaves. */
  ghost predicate GoodAnswer(g: Grid, s: Option<Signal>, price: Option<real>) {
    Fit(g, price) && (s.Some? ==> Good(s.value, price))
  }

  lemma PopIsGood(g: Grid, price: Option<real>)
    requires Fit(g, price)
    ensures GoodAnswer(PopSignal(g).0, PopSignal(g).1, price)
  {
  }

  lemma DecideIsGood(c: GridConfig, g: Grid, price: Option<real>)
    requires Fit(g, price) && c.stopBuffer >= 0.0
    ensures GoodAnswer(Decide(c, g).0, Decide(c, g).1, price)
  {
    hide InitSession, Maintain, Trim;
    InitFits(c, g, price);
    PopIsGood(InitSession(c, g), price);
    TrimFrame(c, g);
    MaintainFits(c, Trim(c, g), price);
    PopIsGood(Maintain(c, Trim(c, g)), price);
  }

  lemma {:induction false} WithoutKeyKeeps(queue: seq<Signal>, k: Key, price: Option<real>)
    requires forall i :: 0 <= i < |queue| ==> Good(queue[i], price)
    ensures forall i :: 0 <= i < |WithoutKey(queue, k)| ==> Good(WithoutKey(queue, k)[i], price)
  {
    if queue != [] {
      WithoutKeyKeeps(queue[..|queue|-1], k, price);
    }
  }

  lemma GenerateIsGood(c: GridConfig, g: Grid, bars: seq<Bar>, price: Option<real>)
    requires bars != [] && Fit(StartBar(g, bars[|bars|-1]), price) && c.stopBuffer >= 0.0
    ensures GoodAnswer(Generate(c, g, bars).0, Generate(c, g, bars).1, price)
  {
    hide Decide;
    var g1 := StartBar(g, bars[|bars|-1]);
    DecideIsGood(c, g1, price);
    PopIsGood(g1, price);
  }

  /** Calls that leave the price alone: everything but asking at another price. */
  predicate AtPrice(call: Call, price: Option<real>) {
    call.AskFor? && call.bars != [] && price.Some? ==> call.bars[|call.bars|-1].close == price.value
  }

  lemma RespondIsGood(c: GridConfig, g: Grid, call: Call, price: Option<real>)
    requires Fit(g, price) && c.stopBuffer >= 0.0 && AtPrice(call, price)
    ensures GoodAnswer(Respond(c, g, call).0, Respond(c, g, call).1, price)
  {
    hide Generate;
    match call
    case AskFor(bars) =>
      if bars != [] {
        assert Fit(StartBar(g, bars[|bars|-1]), price);
        GenerateIsGood(c, g, bars, price);
      } else {
        EmptyAsk(c, g);
      }
    case Rejected(k) => WithoutKeyKeeps(g.queue, k, price);
    case _ =>
  }

  lemma EmptyAsk(c: GridConfig, g: Grid)
    ensures Generate(c, g, []) == (g, None)
  {
  }

  lemma {:induction false} AfterIsFit(c: GridConfig, g: Grid, calls: seq<Call>, price: Option<real>)
    requires Fit(g, price) && c.stopBuffer >= 0.0
    requires forall i :: 0 <= i < |calls| ==> AtPrice(calls[i], price)
    ensures Fit(After(c, g, calls), price)
  {
    if calls != [] {
      AfterIsFit(c, g, calls[..|calls|-1], price);
      RespondIsGood(c, After(c, g, calls[..|calls|-1]), calls[|calls|-1], price);
    }
  }

  // ---- Main results

  /**
   From the first call on, in every interleaving of calls, the stop of every resting entry is on its losing side, so
   the engine's guard never turns one away.
   */
  lemma StopsAreNeverTurnedAway(c: GridConfig, calls: seq<Call>, i: nat, close: real)
    requires c.stopBuffer >= 0.0 && i < |calls|
    ensures var s := Answer(c, InitialGrid, calls, i);
      s.Some? && IsResting(s.value) ==> !E.StopOnWrongSide(s.value, close)
  {
    AfterIsFit(c, InitialGrid, calls[..i], None);
    RespondIsGood(c, After(c, InitialGrid, calls[..i]), calls[i], None);
  }

  function OrderOf(s: Signal): B.PendingOrder
    requires s.Entry?
  {
    B.Booked(0, Some(s.key),
             B.OrderTerms(OrderSideOf(s.key.side), s.units, s.limitPrice, s.stopLoss, s.orderType == OrderType.Stop))
  }

  /** What is handed out rests clear of the price. */
  predicate ClearAnswer(s: Option<Signal>, price: real) {
    s.Some? && IsResting(s.value) ==> ClearOf(s.value, price)
  }

  /** Every signal left over from earlier prices is clear of this one. */
  predicate LeftoversClear(queue: seq<Signal>, price: real) {
    forall i :: 0 <= i < |queue| ==> ClearAnswer(Some(queue[i]), price)
  }

  /** Every answer within the bar is clear of its price, whatever callbacks come between. */
  ghost predicate BarIsClear(c: GridConfig, g: Grid, bars: seq<Bar>)
    requires bars != []
  {
    var price, (g1, s) := bars[|bars|-1].close, Generate(c, g, bars);
    && ClearAnswer(s, price)
    && forall calls, i: nat :: i < |calls| && (forall j :: 0 <= j < |calls| ==> AtPrice(calls[j], Some(price))) ==>
         ClearAnswer(Answer(c, g1, calls, i), price)
  }

  lemma StartFits(g: Grid, bar: Bar)
    requires Fit(g, None) && LeftoversClear(StartBar(g, bar).queue, bar.close)
    ensures Fit(StartBar(g, bar), Some(bar.close))
  {
    assert StartBar(g, bar).queue == g.queue || StartBar(g, bar).queue == [];
  }

  lemma ClearLeftoversSuffice(c: GridConfig, g: Grid, bars: seq<Bar>)
    requires bars != [] && c.stopBuffer >= 0.0 && Fit(g, None)
    requires LeftoversClear(StartBar(g, bars[|bars|-1]).queue, bars[|bars|-1].close)
    ensures BarIsClear(c, g, bars)
  {
    hide Generate, Respond, StartBar, Fit;
    var close := bars[|bars|-1].close;
    var g1 := Generate(c, g, bars).0;
    StartFits(g, bars[|bars|-1]);
    GenerateIsGood(c, g, bars, Some(close));
    forall calls, i: nat | i < |calls| && (forall j :: 0 <= j < |calls| ==> AtPrice(calls[j], Some(close)))
      ensures ClearAnswer(Answer(c, g1, calls, i), close)
    {
      AfterIsFit(c, g1, calls[..i], Some(close));
      RespondIsGood(c, After(c, g1, calls[..i]), calls[i], Some(close));
    }
  }

  function AskAgain(bars: seq<Bar>, n: nat): seq<Call> {
    seq(n, _ => AskFor(bars))
  }

  /** Asking again and again hands out what was left over, in order. */
  lemma {:induction false} LeftoversPop(c: GridConfig, g: Grid, bars: seq<Bar>, n: nat)
    requires bars != [] && n < |StartBar(g, bars[|bars|-1]).queue|
    ensures var g1 := StartBar(g, bars[|bars|-1]);
      After(c, Generate(c, g, bars).0, AskAgain(bars, n)) == g1.(queue := g1.queue[n + 1..])
  {
    hide Decide;
    var g1 := StartBar(g, bars[|bars|-1]);
    if n > 0 {
      LeftoversPop(c, g, bars, n - 1);
      assert AskAgain(bars, n)[..n-1] == AskAgain(bars, n - 1);
      var g2 := g1.(queue := g1.queue[n..]);
      assert StartBar(g2, bars[|bars|-1]) == g2;
      assert g2.queue[1..] == g1.queue[n + 1..];
    }
  }

  lemma LeftoverIsNext(c: GridConfig, g: Grid, bars: seq<Bar>)
    requires bars != [] && StartBar(g, bars[|bars|-1]) == g && g.queue != []
    ensures Respond(c, g, AskFor(bars)).1 == Some(g.queue[0])
  {
    hide Decide, StartBar;
  }

  lemma LeftoverIsAnswered(c: GridConfig, g: Grid, bars: seq<Bar>, n: nat)
    requires bars != [] && 0 < n < |StartBar(g, bars[|bars|-1]).queue|
    ensures Answer(c, Generate(c, g, bars).0, AskAgain(bars, n), n - 1) == Some(StartBar(g, bars[|bars|-1]).queue[n])
  {
    hide Generate, Respond;
    LeftoversPop(c, g, bars, n - 1);
    assert AskAgain(bars, n)[..n-1] == AskAgain(bars, n - 1);
    var g1 := StartBar(g, bars[|bars|-1]);
    var g2 := g1.(queue := g1.queue[n..]);
    assert StartBar(g2, bars[|bars|-1]) == g2;
    hide StartBar;
    LeftoverIsNext(c, g2, bars);
  }

  lemma UnclearLeftoverShows(c: GridConfig, g: Grid, bars: seq<Bar>, n: nat)
    requires bars != [] && n < |StartBar(g, bars[|bars|-1]).queue|
    requires !ClearAnswer(Some(StartBar(g, bars[|bars|-1]).queue[n]), bars[|bars|-1].close)
    ensures !BarIsClear(c, g, bars)
  {
    if n > 0 {
      LeftoverIsAnswered(c, g, bars, n);
      hide Generate, StartBar, ClearAnswer, Answer;
      var calls := AskAgain(bars, n);
      assert !ClearAnswer(Answer(c, Generate(c, g, bars).0, calls, n - 1), bars[|bars|-1].close);
    } else {
      FirstLeftover(c, g, bars);
      hide Generate, StartBar, ClearAnswer, Answer;
    }
  }

  lemma FirstLeftover(c: GridConfig, g: Grid, bars: seq<Bar>)
    requires bars != [] && StartBar(g, bars[|bars|-1]).queue != []
    ensures Generate(c, g, bars).1 == Some(StartBar(g, bars[|bars|-1]).queue[0])
  {
    hide Decide, StartBar;
  }

  /**
   Main result: all resting entries of a bar are handed out at least 2.0 from its price on their quiet side, whatever
   callbacks come between, if and only if those left over from earlier bars are.
   */
  lemma BarIsClearIff(c: GridConfig, g: Grid, bars: seq<Bar>)
    requires bars != [] && c.stopBuffer >= 0.0 && Fit(g, None)
    ensures BarIsClear(c, g, bars) <==> LeftoversClear(StartBar(g, bars[|bars|-1]).queue, bars[|bars|-1].close)
  {
    hide BarIsClear, StartBar, ClearAnswer, Fit;
    var queue, close := StartBar(g, bars[|bars|-1]).queue, bars[|bars|-1].close;
    if LeftoversClear(queue, close) {
      ClearLeftoversSuffice(c, g, bars);
    } else {
      var n :| 0 <= n < |queue| && !ClearAnswer(Some(queue[n]), close);
      UnclearLeftoverShows(c, g, bars, n);
    }
  }

  /** Such an entry is not filled by any bar that stays within 2.0 of that price. */
  lemma EntriesRest(c: GridConfig, g: Grid, bars: seq<Bar>, calls: seq<Call>, i: nat, bar: Bar)
    requires bars != [] && c.stopBuffer >= 0.0 && Fit(g, None) && i < |calls|
    requires var price := bars[|bars|-1].close;
      && LeftoversClear(StartBar(g, bars[|bars|-1]).queue, price)
      && (forall j :: 0 <= j < |calls| ==> AtPrice(calls[j], Some(price)))
      && price - MIN_RESTING_DISTANCE < bar.low <= bar.high < price + MIN_RESTING_DISTANCE
    ensures var s := Answer(c, Generate(c, g, bars).0, calls, i);
      s.Some? && IsResting(s.value) ==> !B.Touched(OrderOf(s.value), bar)
    ensures var s := Generate(c, g, bars).1; s.Some? && IsResting(s.value) ==> !B.Touched(OrderOf(s.value), bar)
  {
    hide Generate, Answer, StartBar, LeftoversClear;
    BarIsClearIff(c, g, bars);
    assert ClearAnswer(Generate(c, g, bars).1, bars[|bars|-1].close);
    assert ClearAnswer(Answer(c, Generate(c, g, bars).0, calls, i), bars[|bars|-1].close);
  }
}
