/** Cursor-based replay of historical bars. */
module MarketData {
  import opened Market

  /** The window of at most `count` bars that ends at the cursor. */
  function Visible(bars: seq<Bar>, cursor: nat, count: nat): seq<Bar>
    requires cursor <= |bars|
  {
    bars[(if cursor <= count then 0 else cursor - count)..cursor]
  }

  /** The bar before the cursor; as a Python index, -1 at cursor 0 means the last bar of all. */
  function CurrentBarAt(bars: seq<Bar>, cursor: nat): Bar
    requires bars != [] && cursor <= |bars|
  {
    if cursor == 0 then bars[|bars| - 1] else bars[cursor - 1]
  }

  class HistoricalMarketDataAdapter {
    const bars: seq<Bar>
    const barCount: nat
    var cursor: nat

    ghost predicate Valid()
      reads this
    {
      barCount <= cursor <= |bars|
    }

    /** The cursor starts after the first full window. */
    constructor Start(bars: seq<Bar>, barCount: nat)
      requires barCount <= |bars|
      ensures Valid() && this.bars == bars && this.barCount == barCount && cursor == barCount
    {
      this.bars := bars;
      this.barCount := barCount;
      cursor := barCount;
    }

    /** None is the error for fewer bars than one window. */
    static method Create(bars: seq<Bar>, barCount: nat) returns (adapter: Option<HistoricalMarketDataAdapter>)
      ensures adapter.None? <==> |bars| < barCount
      ensures adapter.Some? ==> fresh(adapter.value) && adapter.value.Valid() && adapter.value.cursor == barCount
      ensures adapter.Some? ==> adapter.value.bars == bars && adapter.value.barCount == barCount
    {
      if |bars| < barCount {
        return None;
      }
      var a := new HistoricalMarketDataAdapter.Start(bars, barCount);
      return Some(a);
    }

    method GetLatestBars(count: nat) returns (window: seq<Bar>)
      requires Valid()
      ensures window == Visible(bars, cursor, count)
      ensures count > 0 && cursor > 0 ==> window != [] && window[|window|-1] == CurrentBarAt(bars, cursor)
    {
      var start := if cursor <= count then 0 else cursor - count;
      window := bars[start..cursor];
    }

    method Advance() returns (moved: bool)
      requires Valid()
      modifies this
      ensures Valid()
      ensures moved <==> old(cursor) < |bars|
      ensures cursor == if moved then old(cursor) + 1 else old(cursor)
    {
      if cursor >= |bars| {
        return false;
      }
      cursor := cursor + 1;
      return true;
    }

    predicate IsExhausted()
      reads this
    {
      cursor >= |bars|
    }

    /** The most recent visible bar. */
    function CurrentBar(): Bar
      requires Valid() && bars != []
      reads this
    {
      CurrentBarAt(bars, cursor)
    }
  }
}
