/** Exactly when the three copies still agree after a bar, and, with positive exits, how many signals that allows. */
module AgreementIff {
  import opened Market
  import opened GridModel
  import opened RunnerModel
  import opened MarketData
  import opened Agreement
  import opened DrainAgreement
  import opened StepAgreement
  import opened Quiescence
  import opened GridRun
  import opened CutDrains

  // ---- At every setting

  /** After a step from agreement the three copies agree if and only if its drain was not cut short. */
  lemma UncutAgreesIff(rc: RunConfig, w: World, bars: seq<Bar>, paidIn: real)
    requires bars != [] && InStep(rc.grid, w, paidIn) && Enumerates(rc)
    ensures ThreeWay(GridStep(rc, w, bars)) <==> !CutShort(rc, w, bars)
    ensures ThreeWay(GridStep(rc, w, bars)) ==> InStep(rc.grid, GridStep(rc, w, bars), paidIn)
  {
    hide InStep, GridStep, CutShort, Surviving;
    InStepSurvives(rc.grid, w, paidIn);
    var left := StepSurvives(rc, w, bars, {}, paidIn);
    var w' := GridStep(rc, w, bars);
    LostAreLost(rc.grid, w', left, paidIn);
    if CutShort(rc, w, bars) {
      LostIsNoAgreement(w');
    } else {
      assert left == {};
      InStepSurvives(rc.grid, w', paidIn);
      AgreementIsThreeWay(rc.grid, w', paidIn);
    }
  }

  lemma LostIsNoAgreement(w: World)
    requires w.g.closing || LostSides(w) != {}
    ensures !ThreeWay(w)
  {
    if k :| k in LostSides(w) {
      assert k in w.g.placed && k !in w.om && k.level !in w.g.retired;
    }
    hide MapsAgree;
  }

  lemma OneMoreUncut(rc: RunConfig, capital: real, bars: seq<Bar>, count: nat, n: nat)
    requires 1 <= count && count + n < |bars| && Enumerates(rc)
    ensures Cuts(rc, capital, bars, count, n) <= Cuts(rc, capital, bars, count, n + 1)
    ensures InStep(rc.grid, Replay(rc, capital, bars, count, n), capital) ==>
      var w := Replay(rc, capital, bars, count, n + 1);
      && (ThreeWay(w) <==> Cuts(rc, capital, bars, count, n + 1) == Cuts(rc, capital, bars, count, n))
      && (ThreeWay(w) ==> InStep(rc.grid, w, capital))
  {
    hide InStep, ThreeWay, CutShort, GridStep, Enumerates;
    if InStep(rc.grid, Replay(rc, capital, bars, count, n), capital) {
      UncutAgreesIff(rc, Replay(rc, capital, bars, count, n), Visible(bars, count + n, count), capital);
    }
  }

  /** Main result: at every setting a run agrees after each of its steps if and only if no drain was cut short. */
  lemma {:induction false} RunAgreesUncut(rc: RunConfig, capital: real, bars: seq<Bar>, count: nat, n: nat)
    requires 1 <= count && count + n <= |bars| && Enumerates(rc)
    ensures (forall m: nat :: m <= n ==> ThreeWay(Replay(rc, capital, bars, count, m)))
       <==> Cuts(rc, capital, bars, count, n) == 0
    ensures Cuts(rc, capital, bars, count, n) == 0 ==> InStep(rc.grid, Replay(rc, capital, bars, count, n), capital)
  {
    hide InStep, ThreeWay, Cuts, Replay, Enumerates;
    if n == 0 {
      StartAgrees(rc, capital, bars, count);
      NoCuts(rc, capital, bars, count);
    } else {
      RunAgreesUncut(rc, capital, bars, count, n - 1);
      OneMoreUncut(rc, capital, bars, count, n - 1);
    }
  }

  lemma NoCuts(rc: RunConfig, capital: real, bars: seq<Bar>, count: nat)
    requires 1 <= count <= |bars|
    ensures Cuts(rc, capital, bars, count, 0) == 0
  {
  }

  lemma StartAgrees(rc: RunConfig, capital: real, bars: seq<Bar>, count: nat)
    requires 1 <= count <= |bars|
    ensures var w := Replay(rc, capital, bars, count, 0); InStep(rc.grid, w, capital) && ThreeWay(w)
  {
    StartTheorem(rc.grid, capital);
    AgreementIsThreeWay(rc.grid, InitialWorld(capital), capital);
    hide InStep, ThreeWay;
  }

  // ---- With positive exits

  /**
   How many signals wait in the drain of the step after `w`: a close-all, if the bar opens with one, and the queue.
   */
  ghost function WaitingIn(rc: RunConfig, w: World, bars: seq<Bar>): nat
    requires bars != []
  {
    var bar := bars[|bars|-1];
    var (w1, s) := Ask(rc, BeforeDrain(rc, w, bar), bars);
    if s.Some? && s.value.CloseAll? then
      var (w2, s2) := Ask(rc, ProcessSignal(rc, w1, bar, s.value), bars);
      1 + |Waiting(s2)| + |w2.g.queue|
    else |Waiting(s)| + |w1.g.queue|
  }

  /** The first answer of a drain is a close-all, or the head of what a settled grid has to say. */
  lemma FirstAnswer(rc: RunConfig, w: World, bars: seq<Bar>, paidIn: real)
    requires bars != [] && InStep(rc.grid, w, paidIn) && Positive(rc.grid)
    requires w.g.anchor.None? ==> w.g.sessionUnrealized == 0.0
    ensures var (w1, s) := Ask(rc, w, bars);
      if s.Some? && s.value.CloseAll? then
        Asked(rc.grid, w1, s, paidIn) && w1.g.price == bars[|bars|-1].close && w1.g.date == bars[|bars|-1].date
      else Draining(rc.grid, w1, s, bars[|bars|-1], paidIn)
  {
    hide Ask, InStep, Draining, Asked, Positive, StartBar;
    var w1 := w.(g := StartBar(w.g, bars[|bars|-1]));
    AskStartsBar(rc, w, bars, paidIn);
    AskAtBar(rc, w1, bars, paidIn);
  }

  /** From agreement a drain is cut short if and only if more than 50 signals wait in it. */
  lemma CutIff(rc: RunConfig, w: World, bars: seq<Bar>, paidIn: real)
    requires bars != [] && InStep(rc.grid, w, paidIn) && Positive(rc.grid)
    ensures CutShort(rc, w, bars) <==> WaitingIn(rc, w, bars) > MAX_SIGNAL_DRAIN
  {
    hide BeforeDrain, Ask, ProcessSignal, InStep, Asked, Draining, DrainFrom, Lost, Positive, Waiting;
    var bar := bars[|bars|-1];
    BeforeDrainKeepsAgreement(rc, w, bar, paidIn);
    var w0 := BeforeDrain(rc, w, bar);
    FirstAnswer(rc, w0, bars, paidIn);
    var (w1, s) := Ask(rc, w0, bars);
    if s.Some? && s.value.CloseAll? {
      CloseAllSettles(rc, w1, bars, s.value, paidIn);
      var (w2, s2) := Ask(rc, ProcessSignal(rc, w1, bar, s.value), bars);
      DrainUnfolds(rc, w1, bars, s, 0);
      DrainDropsIff(rc, w2, bars, s2, 1, paidIn);
    } else {
      DrainDropsIff(rc, w1, bars, s, 0, paidIn);
    }
  }

  /** After a step from agreement the three copies agree if and only if at most 50 signals waited in its drain. */
  lemma StepAgreesIff(rc: RunConfig, w: World, bars: seq<Bar>, paidIn: real)
    requires bars != [] && InStep(rc.grid, w, paidIn) && Positive(rc.grid) && Enumerates(rc)
    ensures ThreeWay(GridStep(rc, w, bars)) <==> WaitingIn(rc, w, bars) <= MAX_SIGNAL_DRAIN
  {
    hide InStep, ThreeWay, CutShort, GridStep, WaitingIn;
    UncutAgreesIff(rc, w, bars, paidIn);
    CutIff(rc, w, bars, paidIn);
  }

  /** At most 50 signals wait in the drain of the step after the `m`-th. */
  ghost predicate FewWait(rc: RunConfig, capital: real, bars: seq<Bar>, count: nat, m: nat)
    requires 1 <= count && count + m < |bars|
  {
    WaitingIn(rc, Replay(rc, capital, bars, count, m), Visible(bars, count + m, count)) <= MAX_SIGNAL_DRAIN
  }

  lemma OneMoreFew(rc: RunConfig, capital: real, bars: seq<Bar>, count: nat, n: nat)
    requires 1 <= count && count + n < |bars| && Positive(rc.grid) && Enumerates(rc)
    requires InStep(rc.grid, Replay(rc, capital, bars, count, n), capital)
    ensures Cuts(rc, capital, bars, count, n + 1) == Cuts(rc, capital, bars, count, n)
       <==> FewWait(rc, capital, bars, count, n)
  {
    hide InStep, CutShort, GridStep, WaitingIn, Replay, Positive, Enumerates;
    CutIff(rc, Replay(rc, capital, bars, count, n), Visible(bars, count + n, count), capital);
  }

  lemma {:induction false} UncutIffFewWait(rc: RunConfig, capital: real, bars: seq<Bar>, count: nat, n: nat)
    requires 1 <= count && count + n <= |bars| && Positive(rc.grid) && Enumerates(rc)
    ensures Cuts(rc, capital, bars, count, n) == 0
       <==> (forall m: nat :: m < n ==> FewWait(rc, capital, bars, count, m))
  {
    hide InStep, ThreeWay, Cuts, Replay, FewWait, Positive, Enumerates;
    if n == 0 {
      NoCuts(rc, capital, bars, count);
    } else {
      UncutIffFewWait(rc, capital, bars, count, n - 1);
      RunAgreesUncut(rc, capital, bars, count, n - 1);
      OneMoreUncut(rc, capital, bars, count, n - 1);
      if Cuts(rc, capital, bars, count, n - 1) == 0 {
        OneMoreFew(rc, capital, bars, count, n - 1);
      }
    }
  }

  /** Main result: a run agrees after each of its steps if and only if at most 50 signals waited in each drain. */
  lemma RunAgreesIff(rc: RunConfig, capital: real, bars: seq<Bar>, count: nat, n: nat)
    requires 1 <= count && count + n <= |bars| && Positive(rc.grid) && Enumerates(rc)
    ensures (forall m: nat :: m <= n ==> ThreeWay(Replay(rc, capital, bars, count, m)))
       <==> (forall m: nat :: m < n ==> FewWait(rc, capital, bars, count, m))
  {
    hide *;
    RunAgreesUncut(rc, capital, bars, count, n);
    UncutIffFewWait(rc, capital, bars, count, n);
  }

  /** Main result: with positive exits and at most 23 levels ahead and behind no drain of any run is cut short. */
  lemma {:induction false} FewLevelsAreUncut(rc: RunConfig, capital: real, bars: seq<Bar>, count: nat, n: nat)
    requires 1 <= count && count + n <= |bars| && Enumerates(rc) && Sane(rc.grid)
    ensures Cuts(rc, capital, bars, count, n) == 0
  {
    hide InStep, Exposure, Sane, Enumerates, Drain, BeforeDrain, GridStep;
    if n > 0 {
      FewLevelsAreUncut(rc, capital, bars, count, n - 1);
      RunTheorem(rc, capital, bars, count, n - 1);
      StepTheorem(rc, Replay(rc, capital, bars, count, n - 1), Visible(bars, count + n - 1, count), capital);
    }
  }
}
