/** What the strategy may say after a halt, whatever callbacks arrive in between. */
module HaltSafety {
  import opened Market
  import opened GridModel
  import opened DrainAgreement

  /** Every call an engine can make on the strategy. */
  datatype Call =
    | AskFor(bars: seq<Bar>)
    | Filled(key: Key)
    | Closed(key: Key, pnl: real)
    | Rejected(key: Key)
    | Floating(pnl: real)
    | Realized(session: real, daily: real)
    | TakeTrims
    | CloseAllDone

  function Respond(c: GridConfig, g: Grid, call: Call): (Grid, Option<Signal>) {
    match call
    case AskFor(bars) => Generate(c, g, bars)
    case Filled(k) => (ReportFill(g, k), None)
    case Closed(k, pnl) => (ReportClosed(g, k, pnl), None)
    case Rejected(k) => (OnRejected(g, k), None)
    case Floating(pnl) => (UpdateUnrealized(g, pnl), None)
    case Realized(session, daily) => (SetRealized(g, session, daily), None)
    case TakeTrims => (g.(pendingClose := {}), None)
    case CloseAllDone => (NotifyComplete(g), None)
  }

  function After(c: GridConfig, g: Grid, calls: seq<Call>): Grid {
    if calls == [] then g else Respond(c, After(c, g, calls[..|calls|-1]), calls[|calls|-1]).0
  }

  /** The answer to the i-th call. */
  function Answer(c: GridConfig, g: Grid, calls: seq<Call>, i: nat): Option<Signal>
    requires i < |calls|
  {
    Respond(c, After(c, g, calls[..i]), calls[i]).1
  }

  // ---- The daily-loss halt

  ghost predicate Halted(g: Grid, day: string) {
    !g.active && g.queue == [] && g.date == day
  }

  /** A call that does not belong to another day. */
  predicate OnDay(call: Call, day: string) {
    call.AskFor? && call.bars != [] ==> call.bars[|call.bars|-1].date == day
  }

  lemma HaltedStays(c: GridConfig, g: Grid, call: Call, day: string)
    requires Halted(g, day) && OnDay(call, day)
    ensures Halted(Respond(c, g, call).0, day)
    ensures var s := Respond(c, g, call).1; s.None? || s.value.CloseAll?
  {
  }

  lemma {:induction false} HaltedThroughout(c: GridConfig, g: Grid, calls: seq<Call>, day: string)
    requires Halted(g, day) && forall i :: 0 <= i < |calls| ==> OnDay(calls[i], day)
    ensures Halted(After(c, g, calls), day)
  {
    if calls != [] {
      HaltedThroughout(c, g, calls[..|calls|-1], day);
      HaltedStays(c, After(c, g, calls[..|calls|-1]), calls[|calls|-1], day);
    }
  }

  /** Main result: once the daily limit trips, no entry is handed out that day, in any interleaving. */
  lemma NoEntryAfterTrip(c: GridConfig, g: Grid, bars: seq<Bar>, calls: seq<Call>, i: nat)
    requires bars != [] && i < |calls|
    requires var g1 := StartBar(g, bars[|bars|-1]);
      g1.queue == [] && !g1.closing && g1.active && DailyTripped(c, g1)
    requires forall j :: 0 <= j < |calls| ==> OnDay(calls[j], bars[|bars|-1].date)
    ensures var s := Answer(c, Generate(c, g, bars).0, calls, i); s.None? || s.value.CloseAll?
  {
    var g2, day := Generate(c, g, bars).0, bars[|bars|-1].date;
    assert Halted(g2, day);
    HaltedThroughout(c, g2, calls[..i], day);
    HaltedStays(c, After(c, g2, calls[..i]), calls[i], day);
  }

  // ---- The close-all that is under way

  ghost predicate Liquidating(g: Grid, reason: string) {
    g.closing && g.queue == [] && g.reason == reason
  }

  lemma LiquidatingStays(c: GridConfig, g: Grid, call: Call, reason: string)
    requires Liquidating(g, reason) && call != CloseAllDone
    ensures Liquidating(Respond(c, g, call).0, reason)
    ensures call.AskFor? && call.bars != [] ==> Respond(c, g, call).1 == Some(CloseAll(reason))
  {
  }

  lemma {:induction false} LiquidatingThroughout(c: GridConfig, g: Grid, calls: seq<Call>, reason: string)
    requires Liquidating(g, reason) && CloseAllDone !in calls
    ensures Liquidating(After(c, g, calls), reason)
  {
    if calls != [] {
      LiquidatingThroughout(c, g, calls[..|calls|-1], reason);
      LiquidatingStays(c, After(c, g, calls[..|calls|-1]), calls[|calls|-1], reason);
    }
  }

  /** Main result: until completion is notified, every cycle asks for the same liquidation, even across midnight. */
  lemma CloseAllIsRepeated(c: GridConfig, g: Grid, reason: string, calls: seq<Call>, i: nat)
    requires Liquidating(g, reason)
    requires i < |calls| && CloseAllDone !in calls[..i] && calls[i].AskFor? && calls[i].bars != []
    ensures Answer(c, g, calls, i) == Some(CloseAll(reason))
  {
    LiquidatingThroughout(c, g, calls[..i], reason);
    LiquidatingStays(c, After(c, g, calls[..i]), calls[i], reason);
  }

  /** Every exit of the strategy starts such a liquidation. */
  lemma ExitsLiquidate(c: GridConfig, g: Grid)
    requires g.active && g.anchor.Some? && (DailyTripped(c, g) || SessionExit(c, g).Some?)
    ensures var (g', s) := Decide(c, g);
      && s.Some? && s.value.CloseAll? && Liquidating(g', s.value.reason)
      && s.value.reason == (if DailyTripped(c, g) then "daily_loss_limit" else SessionExit(c, g).value)
      && (g'.active <==> !DailyTripped(c, g))
  {
  }

  // ---- Entries and the anchor

  /** Nothing waits without an anchor. */
  ghost predicate QueuesAnchored(g: Grid) {
    g.anchor.None? ==> g.queue == []
  }

  lemma DecidesAnchored(c: GridConfig, g: Grid)
    requires QueuesAnchored(g)
    ensures var (g', s) := Decide(c, g); QueuesAnchored(g') && (s.Some? && s.value.Entry? ==> g'.anchor.Some?)
  {
    hide InitSession, Trim, Maintain, DailyTripped, SessionExit;
    InitFrame(c, g);
    TrimFrame(c, g);
    MaintainFrame(c, Trim(c, g));
  }

  lemma GeneratesAnchored(c: GridConfig, g: Grid, bars: seq<Bar>)
    requires QueuesAnchored(g)
    ensures var (g', s) := Generate(c, g, bars); QueuesAnchored(g') && (s.Some? && s.value.Entry? ==> g'.anchor.Some?)
  {
    if bars != [] {
      var g1 := StartBar(g, bars[|bars|-1]);
      assert QueuesAnchored(g1);
      DecidesAnchored(c, g1);
      hide Decide, StartBar;
    }
  }

  lemma RespondsAnchored(c: GridConfig, g: Grid, call: Call)
    requires QueuesAnchored(g)
    ensures var (g', s) := Respond(c, g, call);
      QueuesAnchored(g') && (s.Some? && s.value.Entry? ==> g'.anchor.Some?)
  {
    hide Generate;
    if call.AskFor? {
      GeneratesAnchored(c, g, call.bars);
    }
  }

  lemma {:induction false} AfterIsAnchored(c: GridConfig, g: Grid, calls: seq<Call>)
    requires QueuesAnchored(g)
    ensures QueuesAnchored(After(c, g, calls))
  {
    if calls != [] {
      hide Respond, QueuesAnchored;
      AfterIsAnchored(c, g, calls[..|calls|-1]);
      RespondsAnchored(c, After(c, g, calls[..|calls|-1]), calls[|calls|-1]);
    }
  }

  /** In every interleaving of calls an entry is handed out only by a strategy that has an anchor by then. */
  lemma EntriesComeAnchored(c: GridConfig, calls: seq<Call>, i: nat)
    requires i < |calls|
    ensures var s := Answer(c, InitialGrid, calls, i);
      s.Some? && s.value.Entry? ==> After(c, InitialGrid, calls[..i + 1]).anchor.Some?
  {
    hide Respond;
    AfterIsAnchored(c, InitialGrid, calls[..i]);
    RespondsAnchored(c, After(c, InitialGrid, calls[..i]), calls[i]);
    assert calls[..i + 1][..i] == calls[..i];
  }
}
