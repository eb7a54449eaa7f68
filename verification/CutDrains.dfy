/**
 What survives a drain that was cut short: the maps and the books in full, and of the strategy's sides all but those
 whose signals were dropped.
 */
module CutDrains {
  import opened Market
  import opened GridModel
  import opened BrokerModel
  import opened RunnerModel
  import opened MarketData
  import opened Agreement
  import opened DrainAgreement
  import opened StepAgreement
  import opened GridRun

  // ---- One call, one signal

  /** The invariant with a signal in hand. */
  ghost predicate Held(c: GridConfig, w: World, s: Option<Signal>, lost: set<Key>, paidIn: real) {
    Sound(w, paidIn) && lost !! w.om.Keys && Outcome(c, w.g, w.om.Keys + lost, s)
  }

  lemma ClosingAnswers(c: GridConfig, g: Grid, orders: set<Key>, bars: seq<Bar>)
    requires bars != [] && SidesOk(c, g, orders, g.queue) && Paced(g) && g.placed !! g.filled && g.closing
    requires BarFits(g, bars[|bars|-1])
    ensures var (g', s) := Generate(c, g, bars);
      && Outcome(c, g', orders, s) && g'.filled == g.filled
      && g'.price == bars[|bars|-1].close && g'.date == bars[|bars|-1].date
  {
    hide Decide;
    var bar := bars[|bars|-1];
    if g.pendingClose != {} {
      assert StartBar(g, bar) == g;
    }
  }

  lemma AskSurvives(rc: RunConfig, w: World, bars: seq<Bar>, lost: set<Key>, paidIn: real)
    requires bars != [] && Surviving(rc.grid, w, lost, paidIn) && BarFits(w.g, bars[|bars|-1])
    ensures var (w', s) := Ask(rc, w, bars);
      && Held(rc.grid, w', s, lost, paidIn)
      && w'.g.price == bars[|bars|-1].close && w'.g.date == bars[|bars|-1].date
  {
    var orders := w.om.Keys + lost;
    hide Generate, SidesOk, BarFits;
    if w.g.closing {
      ClosingAnswers(rc.grid, w.g, orders, bars);
    } else {
      GenerateKeeps(rc.grid, w.g, orders, bars);
    }
  }

  lemma EntrySurvives(rc: RunConfig, w: World, bar: Bar, s: Signal, lost: set<Key>, paidIn: real)
    requires Held(rc.grid, w, Some(s), lost, paidIn) && s.Entry?
    ensures var w' := ProcessSignal(rc, w, bar, s);
      Surviving(rc.grid, w', lost, paidIn) && w'.g.price == w.g.price && w'.g.date == w.g.date
  {
    hide FillMarket, Stamp, Sound, SidesOk;
    if s.orderType == OrderType.Market {
      MarketKeepsSides(rc.grid, w.g, w.om.Keys + lost, s);
      MarketIsSound(rc, w, bar, s, paidIn);
    } else {
      RestingKeepsSides(rc.grid, w.g, w.om.Keys + lost, s);
      RestingIsSound(w, s, paidIn);
      assert w.om.Keys + {s.key} + lost == w.om.Keys + lost + {s.key};
    }
  }

  /** A liquidation forgets the lost sides. */
  lemma ProcessSurvives(rc: RunConfig, w: World, bar: Bar, s: Signal, lost: set<Key>, paidIn: real)
    returns (left: set<Key>)
    requires Held(rc.grid, w, Some(s), lost, paidIn)
    ensures var w' := ProcessSignal(rc, w, bar, s);
      Surviving(rc.grid, w', left, paidIn) && w'.g.price == w.g.price && w'.g.date == w.g.date && left <= lost
  {
    if s.Entry? {
      left := lost;
      EntrySurvives(rc, w, bar, s, lost, paidIn);
    } else {
      left := {};
      CloseAllKeeps(rc, w, bar, paidIn);
      var w' := CloseAllTrades(rc, w, bar);
      assert w'.om.Keys + {} == w'.om.Keys;
      hide CloseAllTrades, Sound, SidesOk, SessionOk;
    }
  }

  /** A side whose signal was dropped counts as ordered from then on. */
  lemma EntryDropped(c: GridConfig, w: World, s: Signal, lost: set<Key>, paidIn: real)
    requires Held(c, w, Some(s), lost, paidIn) && s.Entry?
    ensures Surviving(c, w, lost + {s.key}, paidIn) && s.key !in w.g.pendingClose
  {
    QueueBehind(w.g, w.om.Keys + lost, s, w.g.queue);
    RestingKeepsSides(c, w.g, w.om.Keys + lost, s);
    assert w.om.Keys + (lost + {s.key}) == w.om.Keys + lost + {s.key};
    hide Sound, SidesOk, SessionOk;
  }

  lemma DropSurvives(c: GridConfig, w: World, s: Signal, lost: set<Key>, paidIn: real) returns (left: set<Key>)
    requires Held(c, w, Some(s), lost, paidIn)
    ensures Surviving(c, w, left, paidIn) && |left| <= |lost| + 1
    ensures w.g.closing || exists k :: k in left && k !in w.g.pendingClose
  {
    hide Sound, SidesOk, SessionOk, GridOk;
    if s.Entry? {
      left := lost + {s.key};
      EntryDropped(c, w, s, lost, paidIn);
      assert s.key in left;
    } else {
      left := lost;
    }
  }

  // ---- One drain, one step

  /** What a drain leaves: nothing over when it was not cut, and one more lost side, or a close-all, when it was. */
  ghost predicate DrainLeaves(w: World, dropped: bool, lost: set<Key>, left: set<Key>) {
    if dropped then |left| <= |lost| + 1 && (w.g.closing || exists k :: k in left && k !in w.g.pendingClose)
    else left <= lost && |left| <= |lost| && w.g.queue == [] && !w.g.closing
  }

  lemma FewerLost(w: World, dropped: bool, lost: set<Key>, fewer: set<Key>, left: set<Key>)
    requires fewer <= lost && DrainLeaves(w, dropped, fewer, left)
    ensures DrainLeaves(w, dropped, lost, left)
  {
    SubsetSize(fewer, lost);
  }

  lemma {:induction false} DrainSurvives(rc: RunConfig, w: World, bars: seq<Bar>, s: Option<Signal>, count: nat,
                                         lost: set<Key>, paidIn: real) returns (left: set<Key>)
    requires bars != [] && Held(rc.grid, w, s, lost, paidIn)
    requires w.g.price == bars[|bars|-1].close && w.g.date == bars[|bars|-1].date
    ensures var d := DrainFrom(rc, w, bars, s, count);
      Surviving(rc.grid, d.w, left, paidIn) && DrainLeaves(d.w, d.dropped, lost, left)
    decreases MAX_SIGNAL_DRAIN - count
  {
    hide DrainFrom, Ask, ProcessSignal, Held, Surviving, DrainLeaves;
    DrainUnfolds(rc, w, bars, s, count);
    if s.None? {
      left := lost;
      NothingDropped(rc.grid, w, lost, paidIn);
    } else if count >= MAX_SIGNAL_DRAIN {
      left := DropSurvives(rc.grid, w, s.value, lost, paidIn);
      OneDropped(w, lost, left);
    } else {
      var fewer := ProcessSurvives(rc, w, bars[|bars|-1], s.value, lost, paidIn);
      var w1 := ProcessSignal(rc, w, bars[|bars|-1], s.value);
      AskSurvives(rc, w1, bars, fewer, paidIn);
      var (w2, s2) := Ask(rc, w1, bars);
      left := DrainSurvives(rc, w2, bars, s2, count + 1, fewer, paidIn);
      var d := DrainFrom(rc, w, bars, s, count);
      FewerLost(d.w, d.dropped, lost, fewer, left);
    }
  }

  lemma NothingDropped(c: GridConfig, w: World, lost: set<Key>, paidIn: real)
    requires Held(c, w, None, lost, paidIn)
    ensures Surviving(c, w, lost, paidIn) && DrainLeaves(w, false, lost, lost)
  {
    hide Sound, SidesOk;
  }

  lemma OneDropped(w: World, lost: set<Key>, left: set<Key>)
    requires |left| <= |lost| + 1 && (w.g.closing || exists k :: k in left && k !in w.g.pendingClose)
    ensures DrainLeaves(w, true, lost, left)
  {
  }

  /** The drain of the step after `w` loses a signal to its cap. */
  ghost predicate CutShort(rc: RunConfig, w: World, bars: seq<Bar>)
    requires bars != []
  {
    Drain(rc, BeforeDrain(rc, w, bars[|bars|-1]), bars).dropped
  }

  /** What holds between the steps of every run. */
  ghost predicate BetweenSteps(c: GridConfig, w: World, lost: set<Key>, paidIn: real) {
    Surviving(c, w, lost, paidIn) && w.g.pendingClose == {}
  }

  lemma BarSurvives(rc: RunConfig, w: World, bars: seq<Bar>, lost: set<Key>, paidIn: real)
    requires bars != [] && BetweenSteps(rc.grid, w, lost, paidIn)
    ensures var (w', s) := Ask(rc, BeforeDrain(rc, w, bars[|bars|-1]), bars);
      && Held(rc.grid, w', s, lost, paidIn)
      && w'.g.price == bars[|bars|-1].close && w'.g.date == bars[|bars|-1].date
  {
    BeforeDrainSurvives(rc, w, bars[|bars|-1], lost, paidIn);
    hide BeforeDrain, Ask, Surviving, Held;
    AskSurvives(rc, BeforeDrain(rc, w, bars[|bars|-1]), bars, lost, paidIn);
  }

  lemma TrimLeaves(w: World, w': World, dropped: bool, lost: set<Key>, left: set<Key>)
    requires DrainLeaves(w, dropped, lost, left) && SameCourse(w.g, w'.g) && w'.g.pendingClose == {}
    ensures DrainLeaves(w', dropped, lost, left - w.g.pendingClose)
  {
    SubsetSize(left - w.g.pendingClose, left);
    if dropped && !w.g.closing {
      var k :| k in left && k !in w.g.pendingClose;
      assert k in left - w.g.pendingClose;
    }
  }

  lemma StepSurvives(rc: RunConfig, w: World, bars: seq<Bar>, lost: set<Key>, paidIn: real) returns (left: set<Key>)
    requires bars != [] && BetweenSteps(rc.grid, w, lost, paidIn) && Enumerates(rc)
    ensures var w' := GridStep(rc, w, bars);
      BetweenSteps(rc.grid, w', left, paidIn) && DrainLeaves(w', CutShort(rc, w, bars), lost, left)
  {
    hide BeforeDrain, Ask, DrainFrom, HandleLevelsToClose, Surviving, Held;
    var bar := bars[|bars|-1];
    BarSurvives(rc, w, bars, lost, paidIn);
    var (w1, s) := Ask(rc, BeforeDrain(rc, w, bar), bars);
    var open := DrainSurvives(rc, w1, bars, s, 0, lost, paidIn);
    var w2 := Drain(rc, BeforeDrain(rc, w, bar), bars).w;
    TrimSurvives(rc, w2, bar, open, paidIn);
    left := open - w2.g.pendingClose;
    TrimLeaves(w2, HandleLevelsToClose(rc, w2, bar), CutShort(rc, w, bars), lost, open);
  }

  // ---- Runs

  /** How many of the first `n` drains of a run were cut short. */
  ghost function Cuts(rc: RunConfig, capital: real, bars: seq<Bar>, count: nat, n: nat): nat
    requires 1 <= count && count + n <= |bars|
  {
    if n == 0 then 0
    else
      Cuts(rc, capital, bars, count, n - 1)
      + if CutShort(rc, Replay(rc, capital, bars, count, n - 1), Visible(bars, count + n - 1, count)) then 1 else 0
  }

  lemma StartSurvives(c: GridConfig, capital: real)
    ensures BetweenSteps(c, InitialWorld(capital), {}, capital)
  {
    StartTheorem(c, capital);
    InStepSurvives(c, InitialWorld(capital), capital);
    hide Surviving, InStep;
  }

  lemma {:induction false} RunSurvives(rc: RunConfig, capital: real, bars: seq<Bar>, count: nat, n: nat)
    returns (lost: set<Key>)
    requires 1 <= count && count + n <= |bars| && Enumerates(rc)
    ensures BetweenSteps(rc.grid, Replay(rc, capital, bars, count, n), lost, capital)
    ensures |lost| <= Cuts(rc, capital, bars, count, n)
  {
    hide GridStep, CutShort, BetweenSteps, Enumerates;
    if n == 0 {
      lost := {};
      StartSurvives(rc.grid, capital);
    } else {
      var before := RunSurvives(rc, capital, bars, count, n - 1);
      lost := StepSurvives(rc, Replay(rc, capital, bars, count, n - 1), Visible(bars, count + n - 1, count), before,
                           capital);
    }
  }

  /** The sides believed placed, at levels that are not retired, without an order and with no signal waiting. */
  ghost function LostSides(w: World): set<Key> {
    set k | k in w.g.placed && k !in w.om && !Queued(w.g.queue, k) && k.level !in w.g.retired
  }

  /** Between steps those are exactly the sides whose signals were dropped. */
  lemma LostAreLost(c: GridConfig, w: World, lost: set<Key>, paidIn: real)
    requires BetweenSteps(c, w, lost, paidIn)
    ensures LostSides(w) == lost
  {
    hide Sound, SessionOk, Window;
    forall k | k in lost ensures k in LostSides(w) {
      assert k in w.om.Keys + lost;
    }
  }

  /**
   Main result: after every step of every run, with any settings and however many drains were cut short, the two maps
   are bijections onto the broker's lists, at most one side was lost for every drain that was cut, and the three copies
   agree if and only if no side is lost, no signal is left over and no close-all waits.
   */
  lemma WhatADropCosts(rc: RunConfig, capital: real, bars: seq<Bar>, count: nat, n: nat)
    requires 1 <= count && count + n <= |bars| && Enumerates(rc)
    ensures var w := Replay(rc, capital, bars, count, n);
      && MapsAgree(w) && |LostSides(w)| <= Cuts(rc, capital, bars, count, n)
      && (ThreeWay(w) <==> LostSides(w) == {} && w.g.queue == [] && !w.g.closing)
  {
    hide Replay, Cuts, Surviving, MapsAgree;
    var lost := RunSurvives(rc, capital, bars, count, n);
    var w := Replay(rc, capital, bars, count, n);
    SurvivingMapsAgree(rc.grid, w, lost, capital);
    LostAreLost(rc.grid, w, lost, capital);
    if LostSides(w) == {} && w.g.queue == [] {
      forall k | k in w.g.placed && k !in w.om ensures k.level in w.g.retired {
        assert k !in LostSides(w);
      }
    }
  }
}
