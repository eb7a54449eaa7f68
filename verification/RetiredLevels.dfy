/**
 A retired level is handed no entry until the grid is cleared, and the anchor is never retired, in any interleaving of
 calls and with any settings.
 */
module RetiredLevels {
  import opened Market
  import opened Rounding
  import opened GridModel
  import opened DrainAgreement
  import opened HaltSafety

  // ---- Retired until cleared

  ghost predicate RetiredOrCleared(g: Grid, g': Grid) {
    g.retired <= g'.retired || g'.retired == {}
  }

  lemma DecideKeepsRetired(c: GridConfig, g: Grid)
    ensures RetiredOrCleared(g, Decide(c, g).0)
  {
    hide InitSession, Trim, Maintain, DailyTripped, SessionExit;
    InitFrame(c, g);
    RetiredGrows(c, g);
    MaintainFrame(c, Trim(c, g));
  }

  lemma GenerateKeepsRetired(c: GridConfig, g: Grid, bars: seq<Bar>)
    ensures RetiredOrCleared(g, Generate(c, g, bars).0)
  {
    if bars != [] {
      var g1 := StartBar(g, bars[|bars|-1]);
      assert g1.retired == g.retired || (g1.retired == {} && g1.anchor.None?);
      DecideKeepsRetired(c, g1);
      if g1.anchor.None? {
        InitFrame(c, g1);
      }
      hide InitSession, Trim, Maintain, StartBar;
    }
  }

  /** A retired level stays retired until the grid is cleared, when none is. */
  lemma RetiredUntilCleared(c: GridConfig, g: Grid, call: Call)
    ensures RetiredOrCleared(g, Respond(c, g, call).0)
  {
    hide Generate;
    if call.AskFor? {
      GenerateKeepsRetired(c, g, call.bars);
    }
  }

  lemma RetiredGrows(c: GridConfig, g: Grid)
    ensures g.retired <= Trim(c, g).retired
  {
    if g.anchor.Some? {
      RetireAllGrows(g, Drop(ActiveAbove(g), CapAbove(c, g)));
      RetireAllGrows(RetireAll(g, Drop(ActiveAbove(g), CapAbove(c, g))), Drop(ActiveBelow(g), CapBelow(c, g)));
    }
  }

  lemma {:induction false} RetireAllGrows(g: Grid, levels: seq<int>)
    ensures g.retired <= RetireAll(g, levels).retired
  {
    if levels != [] {
      RetireAllGrows(g, levels[..|levels|-1]);
    }
  }

  // ---- What waits in the queue

  ghost predicate NoneRetired(sigs: seq<Signal>, retired: set<int>) {
    forall s :: s in sigs && s.Entry? ==> s.key.level !in retired
  }

  /** No entry waits for a retired level, the anchor is not retired, and without an anchor no level is. */
  ghost predicate Purged(g: Grid) {
    && NoneRetired(g.queue, g.retired)
    && if g.anchor.None? then g.retired == {} else Cents(g.anchor.value) !in g.retired
  }

  lemma QueueSidePurged(c: GridConfig, g: Grid, k: Key, market: bool)
    requires NoneRetired(g.queue, g.retired) && k.level !in g.retired
    ensures var g' := QueueSide(c, g, k, market); NoneRetired(g'.queue, g'.retired)
  {
  }

  lemma QueueLevelPurged(c: GridConfig, g: Grid, level: int)
    requires NoneRetired(g.queue, g.retired)
    ensures var g' := QueueLevel(c, g, level); NoneRetired(g'.queue, g'.retired)
  {
    if level !in g.retired {
      QueueSidePurged(c, g, Key(level, Long), false);
      QueueSidePurged(c, QueueMissing(c, g, Key(level, Long)), Key(level, Short), false);
      hide QueueSide, NoneRetired;
    }
  }

  lemma {:induction false} QueueLevelsPurged(c: GridConfig, g: Grid, levels: seq<int>)
    requires NoneRetired(g.queue, g.retired)
    ensures var g' := QueueLevels(c, g, levels); NoneRetired(g'.queue, g'.retired)
  {
    if levels != [] {
      QueueLevelsPurged(c, g, levels[..|levels|-1]);
      QueueLevelPurged(c, QueueLevels(c, g, levels[..|levels|-1]), levels[|levels|-1]);
      hide QueueLevel, NoneRetired;
    }
  }

  lemma MaintainPurged(c: GridConfig, g: Grid)
    requires NoneRetired(g.queue, g.retired)
    ensures var g' := Maintain(c, g); NoneRetired(g'.queue, g'.retired)
  {
    if g.anchor.Some? {
      QueueLevelsPurged(c, Retract(g, Window(c, g)), Window(c, g));
      hide QueueLevels, Window, NoneRetired;
    }
  }

  lemma InitPurged(c: GridConfig, g: Grid)
    requires g.queue == [] && g.retired == {}
    ensures Purged(InitSession(c, g))
  {
    InitFrame(c, g);
    hide InitSession;
  }

  lemma SlidePurged(c: GridConfig, g: Grid)
    requires Purged(g) && g.queue == [] && g.anchor.Some?
    ensures Purged(Maintain(c, Trim(c, g)))
  {
    TrimFrame(c, g);
    TrimRetiresNoAnchor(c, g);
    MaintainFrame(c, Trim(c, g));
    hide Trim, Maintain;
    MaintainPurged(c, Trim(c, g));
  }

  lemma PopPurged(g: Grid)
    requires Purged(g)
    ensures var (g', s) := PopSignal(g); Purged(g') && (s.Some? && s.value.Entry? ==> s.value.key.level !in g'.retired)
  {
  }

  lemma DecidePurged(c: GridConfig, g: Grid)
    requires Purged(g) && g.queue == []
    ensures var (g', s) := Decide(c, g); Purged(g') && (s.Some? && s.value.Entry? ==> s.value.key.level !in g'.retired)
  {
    hide InitSession, Trim, Maintain, PopSignal, DailyTripped, SessionExit;
    if g.anchor.None? {
      InitPurged(c, g);
      PopPurged(InitSession(c, g));
    } else {
      SlidePurged(c, g);
      PopPurged(Maintain(c, Trim(c, g)));
    }
  }

  lemma GeneratePurged(c: GridConfig, g: Grid, bars: seq<Bar>)
    requires Purged(g)
    ensures var (g', s) := Generate(c, g, bars);
      Purged(g') && (s.Some? && s.value.Entry? ==> s.value.key.level !in g'.retired)
  {
    if bars != [] {
      var g1 := StartBar(g, bars[|bars|-1]);
      assert Purged(g1);
      if g1.queue == [] {
        DecidePurged(c, g1);
      } else {
        PopPurged(g1);
      }
      hide Decide, StartBar, PopSignal, Purged;
    }
  }

  lemma {:induction false} WithoutKeyAmong(queue: seq<Signal>, k: Key)
    ensures forall s :: s in WithoutKey(queue, k) ==> s in queue
  {
    if queue != [] {
      WithoutKeyAmong(queue[..|queue|-1], k);
    }
  }

  lemma RespondPurged(c: GridConfig, g: Grid, call: Call)
    requires Purged(g)
    ensures var (g', s) := Respond(c, g, call);
      Purged(g') && (s.Some? && s.value.Entry? ==> s.value.key.level !in g'.retired)
  {
    hide Generate;
    if call.AskFor? {
      GeneratePurged(c, g, call.bars);
    } else if call.Rejected? {
      WithoutKeyAmong(g.queue, call.key);
    }
  }

  lemma {:induction false} AfterPurged(c: GridConfig, calls: seq<Call>)
    ensures Purged(After(c, InitialGrid, calls))
  {
    if calls != [] {
      hide Respond, Purged;
      AfterPurged(c, calls[..|calls|-1]);
      RespondPurged(c, After(c, InitialGrid, calls[..|calls|-1]), calls[|calls|-1]);
    }
  }

  /** Main result: in any interleaving of calls the anchor's own level is never retired. */
  lemma AnchorIsNeverRetired(c: GridConfig, calls: seq<Call>)
    ensures var g := After(c, InitialGrid, calls); g.anchor.Some? ==> Cents(g.anchor.value) !in g.retired
  {
    AfterPurged(c, calls);
  }

  // ---- Runs

  /** The levels retired after the first `m` calls. */
  function RetiredAfter(c: GridConfig, calls: seq<Call>, m: nat): set<int>
    requires m <= |calls|
  {
    After(c, InitialGrid, calls[..m]).retired
  }

  lemma RetiredNext(c: GridConfig, calls: seq<Call>, m: nat)
    requires m < |calls|
    ensures RetiredAfter(c, calls, m) <= RetiredAfter(c, calls, m + 1) || RetiredAfter(c, calls, m + 1) == {}
  {
    assert calls[..m + 1][..m] == calls[..m];
    RetiredUntilCleared(c, After(c, InitialGrid, calls[..m]), calls[m]);
    hide Respond;
  }

  lemma {:induction false} StaysRetired(c: GridConfig, calls: seq<Call>, i: nat, j: nat, x: int)
    requires i <= j <= |calls| && x in RetiredAfter(c, calls, i)
    requires forall m :: i <= m <= j ==> RetiredAfter(c, calls, m) != {}
    ensures x in RetiredAfter(c, calls, j)
    decreases j
  {
    hide RetiredAfter;
    if i < j {
      StaysRetired(c, calls, i, j - 1, x);
      RetiredNext(c, calls, j - 1);
    }
  }

  /**
   Main result: from the call that retires a level on, no call answers with an entry for it until the grid is
   cleared.
   */
  lemma RetiredGetNoEntry(c: GridConfig, calls: seq<Call>, i: nat, j: nat, x: int)
    requires i <= j < |calls| && x in RetiredAfter(c, calls, i)
    requires forall m :: i <= m <= j + 1 ==> RetiredAfter(c, calls, m) != {}
    ensures var s := Answer(c, InitialGrid, calls, j); s.Some? && s.value.Entry? ==> s.value.key.level != x
  {
    StaysRetired(c, calls, i, j + 1, x);
    AfterPurged(c, calls[..j]);
    RespondPurged(c, After(c, InitialGrid, calls[..j]), calls[j]);
    assert calls[..j + 1][..j] == calls[..j];
    hide Respond, Purged;
  }
}
