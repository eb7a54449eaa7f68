/** What a replay has recorded so far does not depend on the bars still to come. */
module NoLookAhead {
  import opened Market
  import opened MarketData
  import opened RunnerModel

  /** The visible window of a cut-off history is the visible window of the whole one. */
  lemma SameWindow(bars: seq<Bar>, k: nat, cursor: nat, count: nat)
    requires cursor <= k <= |bars|
    ensures Visible(bars[..k], cursor, count) == Visible(bars, cursor, count)
    ensures 1 <= count && 1 <= cursor ==>
      var w := Visible(bars, cursor, count); w != [] && w[|w| - 1] == bars[cursor - 1]
  {
  }

  lemma {:induction false} SameReplay(rc: RunConfig, capital: real, bars: seq<Bar>, k: nat, count: nat, n: nat)
    requires 1 <= count && count + n <= k <= |bars|
    ensures Replay(rc, capital, bars[..k], count, n) == Replay(rc, capital, bars, count, n)
  {
    hide GridStep;
    if n > 0 {
      SameReplay(rc, capital, bars, k, count, n - 1);
      SameWindow(bars, k, count + n - 1, count);
    }
  }

  lemma {:induction false} SameCurve(rc: RunConfig, capital: real, bars: seq<Bar>, k: nat, count: nat, n: nat)
    requires 1 <= count && count + n <= k <= |bars|
    ensures EquityCurve(rc, capital, bars[..k], count, n) == EquityCurve(rc, capital, bars, count, n)
  {
    hide Replay;
    if n > 0 {
      SameReplay(rc, capital, bars, k, count, n);
      SameCurve(rc, capital, bars, k, count, n - 1);
    }
  }

  lemma {:induction false} CurveGrows(rc: RunConfig, capital: real, bars: seq<Bar>, count: nat, m: nat, n: nat)
    requires 1 <= count && m <= n && count + n <= |bars|
    ensures EquityCurve(rc, capital, bars, count, m) <= EquityCurve(rc, capital, bars, count, n)
  {
    hide Replay;
    if m < n {
      CurveGrows(rc, capital, bars, count, m, n - 1);
    }
  }

  /** Main result: cutting the history at `k` leaves the curve up to there as it was. */
  lemma CurveOfPrefixIsPrefix(rc: RunConfig, capital: real, bars: seq<Bar>, k: nat, count: nat)
    requires 1 <= count <= k <= |bars|
    ensures EquityCurve(rc, capital, bars[..k], count, k - count) <= EquityCurve(rc, capital, bars, count,
          |bars| - count)
  {
    hide EquityCurve;
    SameCurve(rc, capital, bars, k, count, k - count);
    CurveGrows(rc, capital, bars, count, k - count, |bars| - count);
  }

  /** The last bar of the data is never replayed: any other bar in its place gives the same run. */
  lemma LastBarIsIgnored(rc: RunConfig, capital: real, bars: seq<Bar>, count: nat, other: Bar)
    requires 1 <= count < |bars|
    ensures RunResult(rc, capital, bars, count) == RunResult(rc, capital, bars[|bars| - 1 := other], count)
  {
    hide Replay, EquityCurve, FlattenAtEnd;
    var k, steps := |bars| - 1, |bars| - count;
    var bars' := bars[k := other];
    assert bars'[..k] == bars[..k];
    SameReplay(rc, capital, bars, k, count, steps - 1);
    SameReplay(rc, capital, bars', k, count, steps - 1);
    SameCurve(rc, capital, bars, k, count, steps - 1);
    SameCurve(rc, capital, bars', k, count, steps - 1);
    LastStepSame(rc, capital, bars, bars', count, steps);
  }

  lemma LastStepSame(rc: RunConfig, capital: real, bars: seq<Bar>, bars': seq<Bar>, count: nat, steps: nat)
    requires 1 <= count && 1 <= steps && count + steps == |bars| == |bars'|
    requires bars[..|bars| - 1] == bars'[..|bars| - 1]
    requires Replay(rc, capital, bars, count, steps - 1) == Replay(rc, capital, bars', count, steps - 1)
    requires EquityCurve(rc, capital, bars, count, steps - 1) == EquityCurve(rc, capital, bars', count, steps - 1)
    ensures Replay(rc, capital, bars, count, steps) == Replay(rc, capital, bars', count, steps)
    ensures EquityCurve(rc, capital, bars, count, steps) == EquityCurve(rc, capital, bars', count, steps)
  {
    hide GridStep;
    var cursor := |bars| - 1;
    SameWindow(bars, cursor, cursor, count);
    SameWindow(bars', cursor, cursor, count);
    assert bars[cursor - 1] == bars[..cursor][cursor - 1] == bars'[..cursor][cursor - 1];
  }

  /** The current bar is settled by the bars up to the cursor exactly when the cursor has passed one bar. */
  lemma CurrentBarLooksBackIff(cursor: nat)
    ensures (forall bars: seq<Bar>, other: seq<Bar> ::
              bars != [] && other != [] && cursor <= |bars| && cursor <= |other| && bars[..cursor] == other[..cursor]
              ==> CurrentBarAt(bars, cursor) == CurrentBarAt(other, cursor))
        <==> cursor >= 1
  {
    var a, b := Bar("", 1.0, 1.0, 1.0, 1.0), Bar("", 2.0, 2.0, 2.0, 2.0);
    if cursor == 0 {
      assert [a][..cursor] == [b][..cursor];
      assert CurrentBarAt([a], cursor) != CurrentBarAt([b], cursor);
    } else {
      forall bars: seq<Bar>, other: seq<Bar>
        | bars != [] && other != [] && cursor <= |bars| && cursor <= |other| && bars[..cursor] == other[..cursor]
        ensures CurrentBarAt(bars, cursor) == CurrentBarAt(other, cursor)
      {
        assert bars[cursor - 1] == bars[..cursor][cursor - 1] == other[..cursor][cursor - 1];
      }
    }
  }
}
