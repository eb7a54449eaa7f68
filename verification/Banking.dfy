/** Money over whole runs, with any settings and however many signals are dropped. */
module Banking {
  import opened Market
  import opened BrokerModel
  import opened RunnerModel
  import opened BrokerProofs
  import opened Agreement
  import opened StepAgreement
  import opened CutDrains

  /** The ledger, the closed trades and the capital of a run. */
  lemma BooksAreSound(rc: RunConfig, capital: real, bars: seq<Bar>, count: nat, n: nat)
    requires 1 <= count && count + n <= |bars| && Enumerates(rc)
    ensures Sound(Replay(rc, capital, bars, count, n), capital)
  {
    hide Replay, Cuts, Sound;
    var _ := RunSurvives(rc, capital, bars, count, n);
  }

  /**
   Main result: in every run every closed trade is banked exactly once, in order, and capital is exactly accounted for.
   */
  lemma ExactlyOnceBanking(rc: RunConfig, capital: real, bars: seq<Bar>, count: nat, n: nat)
    requires 1 <= count && count + n <= |bars| && Enumerates(rc)
    ensures var w := Replay(rc, capital, bars, count, n);
      && w.pnls == Pnls(w.b.closed) && DistinctClosed(w.b.closed)
      && (forall t, c :: t in w.b.openTrades && c in w.b.closed ==> t.id != c.id)
      && w.b.capital == capital + Sum(w.pnls) - w.b.commission
  {
    hide Replay;
    BooksAreSound(rc, capital, bars, count, n);
  }

  /** The runner's ledger and the broker's books while the end-of-data liquidation runs. */
  ghost predicate Flattening(w: World, left: seq<OpenTrade>, paidIn: real) {
    && BrokerOk(w.b) && Balanced(w.b, paidIn) && w.pnls == Pnls(w.b.closed) && w.b.openTrades == left
  }

  lemma FlattenFirst(rc: RunConfig, w: World, bar: Bar, left: seq<OpenTrade>, paidIn: real)
    requires left != [] && Flattening(w, left, paidIn)
    ensures CloseTrade(rc.broker, w.b, bar, left[0].id).Some?
    ensures Flattening(FlattenOne(rc, w, bar, left[0].id), left[1..], paidIn)
  {
    var info := CloseTradeRealizes(rc.broker, w.b, bar, left[0]);
    var b1 := CloseTrade(rc.broker, w.b, bar, left[0].id).value;
    RealizedKeeps(w.b, b1, left[0], info, paidIn);
    assert RemoveFirst(left, left[0]) == left[1..];
  }

  lemma {:induction false} FlattenKeeps(rc: RunConfig, w: World, bar: Bar, trades: seq<OpenTrade>, n: nat, paidIn: real)
    requires n <= |trades| && Flattening(w, trades, paidIn)
    ensures Flattening(FlattenEach(rc, w, bar, trades[..n]), trades[n..], paidIn)
  {
    hide FlattenOne;
    if n == 0 {
      assert trades[..n] == [] && trades[n..] == trades;
    } else {
      FlattenKeeps(rc, w, bar, trades, n - 1, paidIn);
      assert trades[..n][..n-1] == trades[..n-1] && trades[n-1..][1..] == trades[n..];
      FlattenFirst(rc, FlattenEach(rc, w, bar, trades[..n-1]), bar, trades[n-1..], paidIn);
    }
  }

  /** Main result: after the liquidation at the end of the data the broker is flat and equity is exact. */
  lemma FlattenedRunBalances(rc: RunConfig, capital: real, bars: seq<Bar>, count: nat, n: nat, bar: Bar)
    requires 1 <= count && count + n <= |bars| && Enumerates(rc)
    ensures var w := FlattenAtEnd(rc, Replay(rc, capital, bars, count, n), bar);
      && w.b.openTrades == [] && w.tm == map[]
      && w.pnls == Pnls(w.b.closed) && DistinctClosed(w.b.closed)
      && Equity(w.b, bar) - capital == Sum(w.pnls) - w.b.commission
  {
    hide Replay, FlattenEach;
    BooksAreSound(rc, capital, bars, count, n);
    var w := Replay(rc, capital, bars, count, n);
    FlattenKeeps(rc, w, bar, w.b.openTrades, |w.b.openTrades|, capital);
    assert w.b.openTrades[..|w.b.openTrades|] == w.b.openTrades;
  }
}
