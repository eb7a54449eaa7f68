/** Every call that a backtest run makes on the strategy, from the first bar to the last. */
module RunCalls {
  import opened Market
  import opened GridModel
  import opened BrokerModel
  import opened RunnerModel
  import opened MarketData
  import opened EveryRun
  import opened RetiredLevels

  /** One call: the state in which the strategy is asked, the state after it, and the answer. */
  datatype Exchange = Exchange(before: World, after: World, answer: Option<Signal>)

  ghost function ExchangeAt(rc: RunConfig, w: World, bars: seq<Bar>): Exchange {
    var (w', s) := Ask(rc, w, bars);
    Exchange(w, w', s)
  }

  /** The calls of a drain, the first of them in `w` after `count` signals. */
  ghost function DrainCalls(rc: RunConfig, w: World, bars: seq<Bar>, count: nat): seq<Exchange>
    requires bars != []
    decreases MAX_SIGNAL_DRAIN - count
  {
    var e := ExchangeAt(rc, w, bars);
    [e] + if e.answer.None? || count >= MAX_SIGNAL_DRAIN then []
          else DrainCalls(rc, ProcessSignal(rc, e.after, bars[|bars|-1], e.answer.value), bars, count + 1)
  }

  /** The calls of the first `n` steps. */
  ghost function Calls(rc: RunConfig, capital: real, bars: seq<Bar>, count: nat, n: nat): seq<Exchange>
    requires 1 <= count && count + n <= |bars|
  {
    if n == 0 then []
    else
      var seen := Visible(bars, count + n - 1, count);
      Calls(rc, capital, bars, count, n - 1)
      + StepCalls(rc, Replay(rc, capital, bars, count, n - 1), seen)
  }

  lemma DrainCallsUnfold(rc: RunConfig, w: World, bars: seq<Bar>, count: nat)
    requires bars != []
    ensures var e := ExchangeAt(rc, w, bars);
      DrainCalls(rc, w, bars, count) ==
      [e] + if e.answer.None? || count >= MAX_SIGNAL_DRAIN then []
            else DrainCalls(rc, ProcessSignal(rc, e.after, bars[|bars|-1], e.answer.value), bars, count + 1)
  {
  }

  /** The calls of the step after `w`. */
  ghost function StepCalls(rc: RunConfig, w: World, seen: seq<Bar>): seq<Exchange>
    requires seen != []
  {
    DrainCalls(rc, BeforeDrain(rc, w, seen[|seen|-1]), seen, 0)
  }

  lemma CallsUnfold(rc: RunConfig, capital: real, bars: seq<Bar>, count: nat, n: nat)
    requires 1 <= count && count + n < |bars|
    ensures Calls(rc, capital, bars, count, 0) == []
    ensures var w, seen := Replay(rc, capital, bars, count, n), Visible(bars, count + n, count);
      && Calls(rc, capital, bars, count, n + 1) == Calls(rc, capital, bars, count, n) + StepCalls(rc, w, seen)
      && Replay(rc, capital, bars, count, n + 1) == GridStep(rc, w, seen)
  {
    hide StepCalls, GridStep;
  }

  // ---- A call is safe

  /** A session opens only over a flat broker, and no entry is for a retired level. */
  ghost predicate Safe(e: Exchange) {
    && (LaysAnchor(e.before.g, e.after.g) ==> e.before.b.openTrades == [] && e.before.b.pending == [])
    && (e.answer.Some? && e.answer.value.Entry? ==> e.answer.value.key.level !in e.after.g.retired)
  }

  ghost predicate AllSafe(es: seq<Exchange>) {
    forall e :: e in es ==> Safe(e)
  }

  lemma {:induction false} DrainIsSafe(rc: RunConfig, w: World, bars: seq<Bar>, count: nat)
    requires bars != [] && Orderly(w)
    ensures AllSafe(DrainCalls(rc, w, bars, count))
    decreases MAX_SIGNAL_DRAIN - count
  {
    hide Ask, ProcessSignal, Orderly, InHand, LaysAnchor, DrainCalls;
    AskKeepsOrder(rc, w, bars);
    DrainCallsUnfold(rc, w, bars, count);
    var e := ExchangeAt(rc, w, bars);
    if e.answer.Some? && count < MAX_SIGNAL_DRAIN {
      ProcessKeepsOrder(rc, e.after, bars[|bars|-1], e.answer.value);
      DrainIsSafe(rc, ProcessSignal(rc, e.after, bars[|bars|-1], e.answer.value), bars, count + 1);
    }
  }

  lemma StepIsSafe(rc: RunConfig, w: World, seen: seq<Bar>)
    requires seen != [] && Orderly(w)
    ensures AllSafe(StepCalls(rc, w, seen))
  {
    hide BeforeDrain, DrainCalls, Safe, Orderly;
    BarKeepsOrder(rc, w, seen[|seen|-1]);
    DrainIsSafe(rc, BeforeDrain(rc, w, seen[|seen|-1]), seen, 0);
  }

  lemma AllSafeJoin(es: seq<Exchange>, fs: seq<Exchange>)
    requires AllSafe(es) && AllSafe(fs)
    ensures AllSafe(es + fs)
  {
    hide Safe;
  }

  lemma OneMoreSafeStep(rc: RunConfig, capital: real, bars: seq<Bar>, count: nat, n: nat)
    requires 1 <= count && count + n < |bars|
    requires AllSafe(Calls(rc, capital, bars, count, n))
    ensures AllSafe(Calls(rc, capital, bars, count, n + 1))
  {
    hide Replay, AllSafe, StepCalls, GridStep, Calls, Orderly;
    CallsUnfold(rc, capital, bars, count, n);
    RunIsOrderly(rc, capital, bars, count, n);
    var w, seen := Replay(rc, capital, bars, count, n), Visible(bars, count + n, count);
    StepIsSafe(rc, w, seen);
    AllSafeJoin(Calls(rc, capital, bars, count, n), StepCalls(rc, w, seen));
  }

  /**
   Main result: every call of every run is safe, in the middle of a drain as between bars, with any settings and whether
   or not signals are dropped.
   */
  lemma {:induction false} EveryCallIsSafe(rc: RunConfig, capital: real, bars: seq<Bar>, count: nat, n: nat)
    requires 1 <= count && count + n <= |bars|
    ensures AllSafe(Calls(rc, capital, bars, count, n))
  {
    if n > 0 {
      hide AllSafe, Calls;
      EveryCallIsSafe(rc, capital, bars, count, n - 1);
      OneMoreSafeStep(rc, capital, bars, count, n - 1);
    }
  }

  // ---- Retired levels from call to call

  /** Each call, and what happens between two calls, keeps the retired levels or clears the grid. */
  ghost predicate Chained(es: seq<Exchange>) {
    && (forall i :: 0 <= i < |es| ==> RetiredOrCleared(es[i].before.g, es[i].after.g))
    && (forall i :: 0 < i < |es| ==> RetiredOrCleared(es[i-1].after.g, es[i].before.g))
  }

  lemma ProcessKeepsRetired(rc: RunConfig, w: World, bar: Bar, s: Signal)
    ensures RetiredOrCleared(w.g, ProcessSignal(rc, w, bar, s).g)
  {
    hide CloseEach, FillMarket, PlacePending, Stamp;
  }

  lemma CallKeepsRetired(rc: RunConfig, w: World, bars: seq<Bar>)
    ensures var e := ExchangeAt(rc, w, bars); RetiredOrCleared(e.before.g, e.after.g)
  {
    GenerateKeepsRetired(rc.grid, w.g, bars);
    hide Generate;
  }

  lemma ChainsJoin(es: seq<Exchange>, fs: seq<Exchange>)
    requires Chained(es) && Chained(fs)
    requires es != [] && fs != [] ==> RetiredOrCleared(es[|es|-1].after.g, fs[0].before.g)
    ensures Chained(es + fs)
  {
    hide RetiredOrCleared;
  }

  lemma {:induction false} DrainIsChained(rc: RunConfig, w: World, bars: seq<Bar>, count: nat)
    requires bars != []
    ensures var es := DrainCalls(rc, w, bars, count);
      && Chained(es) && es != [] && es[0].before == w
      && es[|es|-1].after == DrainFrom(rc, Ask(rc, w, bars).0, bars, Ask(rc, w, bars).1, count).w
    decreases MAX_SIGNAL_DRAIN - count
  {
    hide Ask, ProcessSignal, RetiredOrCleared, DrainCalls, DrainFrom;
    DrainCallsUnfold(rc, w, bars, count);
    DrainUnfolds(rc, Ask(rc, w, bars).0, bars, Ask(rc, w, bars).1, count);
    CallKeepsRetired(rc, w, bars);
    var e := ExchangeAt(rc, w, bars);
    if e.answer.Some? && count < MAX_SIGNAL_DRAIN {
      var w1 := ProcessSignal(rc, e.after, bars[|bars|-1], e.answer.value);
      ProcessKeepsRetired(rc, e.after, bars[|bars|-1], e.answer.value);
      DrainIsChained(rc, w1, bars, count + 1);
      ChainsJoin([e], DrainCalls(rc, w1, bars, count + 1));
    }
  }

  /** Where the calls of a step leave the retired levels, the next step finds them. */
  lemma StepIsChained(rc: RunConfig, w: World, seen: seq<Bar>)
    requires seen != []
    ensures var es := StepCalls(rc, w, seen);
      && Chained(es) && es != [] && es[0].before.g.retired == w.g.retired
      && GridStep(rc, w, seen).g.retired == es[|es|-1].after.g.retired
  {
    var bar := seen[|seen|-1];
    BarKeepsCourse(rc, w, bar);
    DrainIsChained(rc, BeforeDrain(rc, w, bar), seen, 0);
    StepEndKeepsCourse(rc, Drain(rc, BeforeDrain(rc, w, bar), seen).w, bar);
    hide RetiredOrCleared, DrainCalls, BeforeDrain, DrainFrom, HandleLevelsToClose, Chained;
  }

  /** The calls so far are chained up to the state after step `n`. */
  ghost predicate ChainedTo(es: seq<Exchange>, w: World) {
    Chained(es) && (es != [] ==> w.g.retired == es[|es|-1].after.g.retired)
  }

  lemma OneMoreChainedStep(rc: RunConfig, capital: real, bars: seq<Bar>, count: nat, n: nat)
    requires 1 <= count && count + n < |bars|
    requires ChainedTo(Calls(rc, capital, bars, count, n), Replay(rc, capital, bars, count, n))
    ensures ChainedTo(Calls(rc, capital, bars, count, n + 1), Replay(rc, capital, bars, count, n + 1))
  {
    hide Chained, StepCalls, GridStep, Calls, Replay;
    CallsUnfold(rc, capital, bars, count, n);
    var w, seen := Replay(rc, capital, bars, count, n), Visible(bars, count + n, count);
    StepIsChained(rc, w, seen);
    JoinRetired(Calls(rc, capital, bars, count, n), StepCalls(rc, w, seen));
  }

  lemma {:induction false} RunIsChained(rc: RunConfig, capital: real, bars: seq<Bar>, count: nat, n: nat)
    requires 1 <= count && count + n <= |bars|
    ensures ChainedTo(Calls(rc, capital, bars, count, n), Replay(rc, capital, bars, count, n))
  {
    if n > 0 {
      hide ChainedTo, Calls, Replay;
      RunIsChained(rc, capital, bars, count, n - 1);
      OneMoreChainedStep(rc, capital, bars, count, n - 1);
    }
  }

  lemma JoinRetired(es: seq<Exchange>, fs: seq<Exchange>)
    requires Chained(es) && Chained(fs)
    requires es != [] && fs != [] ==> fs[0].before.g.retired == es[|es|-1].after.g.retired
    ensures Chained(es + fs)
  {
    ChainsJoin(es, fs);
  }

  /** The grid was not cleared from the end of call `i` to the end of call `j`. */
  ghost predicate Uncleared(es: seq<Exchange>, i: nat, j: nat) {
    i <= j < |es| && forall m :: i < m <= j ==> es[m].before.g.retired != {} && es[m].after.g.retired != {}
  }

  lemma {:induction false} RetiredThrough(es: seq<Exchange>, i: nat, j: nat, x: int)
    requires Chained(es) && Uncleared(es, i, j) && x in es[i].after.g.retired
    ensures x in es[j].after.g.retired
    decreases j
  {
    if i < j {
      RetiredThrough(es, i, j - 1, x);
    }
  }

  /** Main result: once a run has retired a level, no call hands out an entry for it until the grid is cleared. */
  lemma RetiredUntilTheGridIsCleared(rc: RunConfig, capital: real, bars: seq<Bar>, count: nat, n: nat, i: nat, j: nat,
                                     x: int)
    requires 1 <= count && count + n <= |bars|
    requires var es := Calls(rc, capital, bars, count, n); Uncleared(es, i, j) && x in es[i].after.g.retired
    ensures var s := Calls(rc, capital, bars, count, n)[j].answer; s.Some? && s.value.Entry? ==> s.value.key.level != x
  {
    hide Calls, Chained;
    var es := Calls(rc, capital, bars, count, n);
    RunIsChained(rc, capital, bars, count, n);
    EveryCallIsSafe(rc, capital, bars, count, n);
    RetiredThrough(es, i, j, x);
    assert es[j] in es;
  }
}
