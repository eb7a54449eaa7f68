/** Which fill goes to which key: the greedy nearest-price matching of the live engine, and exactly when it is right. */
module LiveMatching {
  import opened Market
  import opened Rounding
  import opened EngineModel

  /** The choice of one key: the least distance on its side, and the earliest of equals. */
  lemma {:induction false} NearestIsFirstLeast(trades: seq<LiveTrade>, side: OrderSide, price: real)
    ensures var r := Nearest(trades, side, price);
      if r.None? then forall t :: t in trades ==> t.side != side
      else forall j | 0 <= j < |trades| && trades[j].side == side ::
             if j < r.value then Distance(trades[r.value], price) < Distance(trades[j], price)
             else Distance(trades[r.value], price) <= Distance(trades[j], price)
    ensures var r := Nearest(trades, side, price); r.Some? ==> trades[r.value] in trades
  {
    if trades != [] {
      var init := trades[..|trades|-1];
      NearestIsFirstLeast(init, side, price);
      assert trades == init + [trades[|trades|-1]];
    }
  }

  // ---- The truth behind a poll

  /** `all` are the open trades that no key is mapped to. */
  ghost predicate Unmatched(d: Desk, all: set<LiveTrade>) {
    && (forall t1, t2 :: t1 in all && t2 in all && t1.id == t2.id ==> t1 == t2)
    && (forall t :: t in all ==> t.id != NO_ID && t.id !in d.trades.Values)
  }

  /** These vanished keys were filled by these trades; the other vanished keys, and the other trades, stand alone. */
  ghost predicate Own(fills: map<Key, LiveTrade>, all: set<LiveTrade>) {
    Injective(fills) && forall k :: k in fills ==> fills[k] in all && fills[k].side == OrderSideOf(k.side)
  }

  /** The snapshot lists these trades, in some order. */
  ghost predicate Lists(trades: seq<LiveTrade>, all: set<LiveTrade>) {
    NoRepeats(trades) && forall t :: t in trades <==> t in all
  }

  ghost predicate Walk(keys: seq<Key>, gone: set<Key>) {
    NoRepeats(keys) && Elements(keys) == gone
  }

  function HomeDistance(fills: map<Key, LiveTrade>, k: Key): real
    requires k in fills
  {
    Distance(fills[k], Price(k.level))
  }

  /** Every filled key is nearer to its own fill than to any other unmatched trade of its side. */
  ghost predicate NearestToOwn(fills: map<Key, LiveTrade>, all: set<LiveTrade>) {
    forall k, t :: k in fills && t in all && t != fills[k] && t.side == fills[k].side ==>
      HomeDistance(fills, k) < Distance(t, Price(k.level))
  }

  /** No vanished key without a fill has the side of an unmatched trade. */
  ghost predicate NoRival(fills: map<Key, LiveTrade>, gone: set<Key>, all: set<LiveTrade>) {
    forall k, t :: k in gone && k !in fills && t in all ==> t.side != OrderSideOf(k.side)
  }

  /** Every fill lies within less than half the distance from its level to any other filled level of its side. */
  ghost predicate WithinHalfTheGap(fills: map<Key, LiveTrade>) {
    forall k1, k2 :: k1 in fills && k2 in fills && k1 != k2 && k1.side == k2.side ==>
      2.0 * HomeDistance(fills, k1) < AbsReal(Price(k1.level) - Price(k2.level))
  }

  lemma HalfTheGapIsEnough(fills: map<Key, LiveTrade>)
    requires Own(fills, fills.Values) && WithinHalfTheGap(fills)
    ensures NearestToOwn(fills, fills.Values)
  {
    forall k, t | k in fills && t in fills.Values && t != fills[k] && t.side == fills[k].side
      ensures HomeDistance(fills, k) < Distance(t, Price(k.level))
    {
      var k2 :| k2 in fills && fills[k2] == t;
      assert 2.0 * HomeDistance(fills, k) < AbsReal(Price(k.level) - Price(k2.level));
      assert 2.0 * HomeDistance(fills, k2) < AbsReal(Price(k2.level) - Price(k.level));
    }
  }

  /** The opposite leg of a fill never goes to one of the keys being matched. */
  ghost predicate LegsElsewhere(d: Desk, gone: set<Key>) {
    forall k :: k in d.meta && d.meta[k].opposite.Some? ==> d.meta[k].opposite.value.key !in gone
  }

  predicate SameTrade(d: Desk, d': Desk, k: Key) {
    (k in d.trades <==> k in d'.trades) && (k in d.trades ==> d'.trades[k] == d.trades[k])
  }

  /** A filled key holds its own fill and was reported at its price; any other is rejected and holds what it held. */
  ghost predicate RightFor(fills: map<Key, LiveTrade>, d: Desk, d': Desk, k: Key) {
    if k in fills then k in d'.trades && d'.trades[k] == fills[k].id && TellFilled(k, fills[k].openPrice) in d'.trace
    else SameTrade(d, d', k) && TellRejected(k) in d'.trace
  }

  ghost predicate Right(fills: map<Key, LiveTrade>, gone: set<Key>, d: Desk, d': Desk) {
    forall k :: k in gone ==> RightFor(fills, d, d', k)
  }

  // ---- One key

  lemma WithoutMembers<T>(s: seq<T>, i: nat)
    requires i < |s| && NoRepeats(s)
    ensures NoRepeats(Without(s, i)) && forall x :: x in Without(s, i) <==> x in s && x != s[i]
  {
    var r := Without(s, i);
    forall x | x in s && x != s[i] ensures x in r {
      var j :| 0 <= j < |s| && s[j] == x;
      assert s[j] == if j < i then r[j] else r[j - 1];
    }
    forall j | 0 <= j < |r| ensures r[j] in s && r[j] != s[i] {
      assert r[j] == if j < i then s[j] else s[j + 1];
    }
  }

  /** The key picks its own fill. */
  lemma PicksOwn(fills: map<Key, LiveTrade>, all: set<LiveTrade>, left: set<LiveTrade>, unclaimed: seq<LiveTrade>,
                 k: Key)
    requires Own(fills, all) && NearestToOwn(fills, all) && k in fills
    requires Lists(unclaimed, left) && left <= all && fills[k] in left
    ensures var r := Nearest(unclaimed, OrderSideOf(k.side), Price(k.level));
      r.Some? && unclaimed[r.value] == fills[k]
  {
    NearestIsFirstLeast(unclaimed, OrderSideOf(k.side), Price(k.level));
    var own :| 0 <= own < |unclaimed| && unclaimed[own] == fills[k];
    var r := Nearest(unclaimed, OrderSideOf(k.side), Price(k.level)).value;
    assert unclaimed[r] in all;
  }

  /** What the opposite leg of a fill leaves as it was. */
  lemma OppositeKeeps(c: EngineConfig, d: Desk, k: Key, leg: OrderAnswer, gone: set<Key>)
    requires LegsElsewhere(d, gone)
    ensures var d' := PlaceOpposite(c, d, k, leg);
      && LegsElsewhere(d', gone) && (forall x :: x in gone ==> SameTrade(d, d', x))
      && (forall e :: e in d.trace ==> e in d'.trace)
  {
  }

  /** What resolving one key leaves as it was. */
  ghost predicate OnlyResolves(d: Desk, d': Desk, k: Key, gone: set<Key>) {
    && LegsElsewhere(d', gone) && (forall x :: x in gone && x != k ==> SameTrade(d, d', x))
    && (forall e :: e in d.trace ==> e in d'.trace)
  }

  /** A key that finds no trade of its side is rejected; one that does takes the trade it picked. */
  lemma MatchOneResolves(c: EngineConfig, m: Matching, k: Key, leg: OrderAnswer, gone: set<Key>)
    requires LegsElsewhere(m.desk, gone) && k in gone && forall t :: t in m.unclaimed ==> t.id != NO_ID
    ensures var m', r := MatchOne(c, m, k, leg), Nearest(m.unclaimed, OrderSideOf(k.side), Price(k.level));
      && OnlyResolves(m.desk, m'.desk, k, gone)
      && (if r.None? then m'.unclaimed == m.unclaimed && SameTrade(m.desk, m'.desk, k)
          && TellRejected(k) in m'.desk.trace
          else m'.unclaimed == Without(m.unclaimed, r.value)
               && k in m'.desk.trades && m'.desk.trades[k] == m.unclaimed[r.value].id
               && TellFilled(k, m.unclaimed[r.value].openPrice) in m'.desk.trace)
  {
    var d := m.desk.(orders := m.desk.orders - {k});
    var r := Nearest(m.unclaimed, OrderSideOf(k.side), Price(k.level));
    if r.Some? {
      var t := m.unclaimed[r.value];
      assert t in m.unclaimed;
      OppositeKeeps(c, Log(Mapped(d, t.id, EntryFor(d, k, t)), TellFilled(k, t.openPrice)), k, leg, gone);
    }
  }

  // ---- Right whenever the condition holds

  function Claimed(fills: map<Key, LiveTrade>, done: set<Key>): set<LiveTrade> {
    set k | k in done && k in fills :: fills[k]
  }

  /**
   The keys of `done` came out right, the other vanished keys are untouched, and the rest of the trades is unclaimed.
   */
  ghost predicate Delivered(fills: map<Key, LiveTrade>, gone: set<Key>, all: set<LiveTrade>, d: Desk, m: Matching,
                            done: set<Key>) {
    && LegsElsewhere(m.desk, gone) && Lists(m.unclaimed, all - Claimed(fills, done))
    && (forall k :: k in done ==> RightFor(fills, d, m.desk, k))
    && (forall k :: k in gone - done ==> SameTrade(d, m.desk, k))
  }

  lemma MatchOneDelivers(c: EngineConfig, fills: map<Key, LiveTrade>, gone: set<Key>, all: set<LiveTrade>, d: Desk,
                         m: Matching, done: set<Key>, k: Key, leg: OrderAnswer)
    requires Unmatched(d, all) && Own(fills, all) && NearestToOwn(fills, all) && NoRival(fills, gone, all)
    requires Delivered(fills, gone, all, d, m, done) && done <= gone && k in gone && k !in done
    ensures Delivered(fills, gone, all, d, MatchOne(c, m, k, leg), done + {k})
  {
    hide MatchOne, Distance;
    var left := all - Claimed(fills, done);
    MatchOneResolves(c, m, k, leg, gone);
    var r := Nearest(m.unclaimed, OrderSideOf(k.side), Price(k.level));
    if k in fills {
      assert fills[k] in left;
      PicksOwn(fills, all, left, m.unclaimed, k);
      WithoutMembers(m.unclaimed, r.value);
      assert Claimed(fills, done + {k}) == Claimed(fills, done) + {fills[k]};
    } else {
      assert Claimed(fills, done + {k}) == Claimed(fills, done);
      NearestIsFirstLeast(m.unclaimed, OrderSideOf(k.side), Price(k.level));
      assert r.None?;
    }
    var m' := MatchOne(c, m, k, leg);
    assert Lists(m'.unclaimed, all - Claimed(fills, done + {k}));
    RightStays(fills, gone, d, m.desk, m'.desk, done, k);
    assert k in gone - done && SameTrade(d, m.desk, k);
    forall x | x in gone - (done + {k}) ensures SameTrade(d, m'.desk, x) {
      assert SameTrade(d, m.desk, x) && SameTrade(m.desk, m'.desk, x);
    }
  }

  lemma RightStays(fills: map<Key, LiveTrade>, gone: set<Key>, d: Desk, d1: Desk, d2: Desk, done: set<Key>, k: Key)
    requires OnlyResolves(d1, d2, k, gone) && done <= gone && k !in done
    requires forall x :: x in done ==> RightFor(fills, d, d1, x)
    ensures forall x :: x in done ==> RightFor(fills, d, d2, x)
  {
  }

  /**
   Greedy matching is right, whatever the order of the keys and of the snapshot: when every filled key is nearest to
   its own fill and no other vanished key has the side of an unmatched trade, every key gets its own fill and every
   other vanished key is rejected.
   */
  lemma {:induction false} GreedyIsRight(c: EngineConfig, fills: map<Key, LiveTrade>, gone: set<Key>,
                                         all: set<LiveTrade>,
                                         d: Desk, open: seq<LiveTrade>, keys: seq<Key>, legs: Key -> OrderAnswer)
    requires Unmatched(d, all) && Own(fills, all) && LegsElsewhere(d, gone) && Lists(open, all)
    requires NearestToOwn(fills, all) && NoRival(fills, gone, all)
    requires NoRepeats(keys) && Elements(keys) <= gone
    ensures Delivered(fills, gone, all, d, MatchAll(c, Matching(d, open), keys, legs), Elements(keys))
  {
    hide Unmatched, Own, NearestToOwn, NoRival, MatchOne;
    if keys == [] {
      assert Elements(keys) == {} && all - Claimed(fills, {}) == all;
    } else {
      hide Delivered, LegsElsewhere, Lists;
      var init, k := keys[..|keys|-1], keys[|keys|-1];
      LastIsNew(keys);
      GreedyIsRight(c, fills, gone, all, d, open, init, legs);
      MatchOneDelivers(c, fills, gone, all, d, MatchAll(c, Matching(d, open), init, legs), Elements(init), k, legs(k));
    }
  }

  // ---- And right in every order only then

  lemma {:induction false} Enumeration<T>(s: set<T>) returns (r: seq<T>)
    ensures NoRepeats(r) && Elements(r) == s
    decreases |s|
  {
    if s == {} {
      r := [];
    } else {
      var x :| x in s;
      var rest := Enumeration(s - {x});
      r := Ahead(x, rest);
    }
  }

  lemma Ahead<T>(x: T, rest: seq<T>) returns (r: seq<T>)
    requires NoRepeats(rest) && x !in Elements(rest)
    ensures r == [x] + rest && NoRepeats(r) && Elements(r) == {x} + Elements(rest)
  {
    r := [x] + rest;
    forall i, j | 0 <= i < j < |r| ensures r[i] != r[j] {
      assert r[j] == rest[j - 1] && rest[j - 1] in rest;
    }
  }

  lemma ElementsListed(trades: seq<LiveTrade>, all: set<LiveTrade>)
    requires NoRepeats(trades) && Elements(trades) == all
    ensures Lists(trades, all)
  {
    forall t ensures t in trades <==> t in all {
      assert t in Elements(trades) <==> t in trades;
    }
  }

  /** What the first key of a walk takes, it keeps. */
  lemma {:induction false} FirstKeeps(c: EngineConfig, m: Matching, keys: seq<Key>, legs: Key -> OrderAnswer,
                                      gone: set<Key>)
    requires keys != [] && NoRepeats(keys) && Elements(keys) <= gone && LegsElsewhere(m.desk, gone)
    requires forall t :: t in m.unclaimed ==> t.id != NO_ID
    ensures var first, m' := MatchOne(c, m, keys[0], legs(keys[0])), MatchAll(c, m, keys, legs);
      && SameTrade(first.desk, m'.desk, keys[0]) && LegsElsewhere(m'.desk, gone)
      && forall t :: t in m'.unclaimed ==> t.id != NO_ID
  {
    var init, k := keys[..|keys|-1], keys[|keys|-1];
    LastIsNew(keys);
    assert k in Elements(keys);
    if init == [] {
      MatchOneResolves(c, m, k, legs(k), gone);
    } else {
      FirstKeeps(c, m, init, legs, gone);
      MatchOneResolves(c, MatchAll(c, m, init, legs), k, legs(k), gone);
      assert keys[0] == init[0] && init[0] in Elements(init);
    }
    hide MatchOne;
  }

  /** Right in every order of the walk and of the snapshot. */
  ghost predicate AlwaysRight(c: EngineConfig, d: Desk, fills: map<Key, LiveTrade>, gone: set<Key>, all: set<LiveTrade>,
                              legs: Key -> OrderAnswer) {
    forall keys, open :: Walk(keys, gone) && Lists(open, all) ==>
      Right(fills, gone, d, MatchAll(c, Matching(d, open), keys, legs).desk)
  }

  /** A walk that begins with a key, over a snapshot, where that key takes a trade that is not its own. */
  lemma FirstGoesAstray(c: EngineConfig, d: Desk, fills: map<Key, LiveTrade>, gone: set<Key>, all: set<LiveTrade>,
                        legs: Key -> OrderAnswer, k: Key, open: seq<LiveTrade>)
    requires Unmatched(d, all) && LegsElsewhere(d, gone) && Lists(open, all) && k in gone
    requires var r := Nearest(open, OrderSideOf(k.side), Price(k.level));
      r.Some? && (k in fills ==> open[r.value].id != fills[k].id)
    ensures !AlwaysRight(c, d, fills, gone, all, legs)
  {
    var rest := Enumeration(gone - {k});
    var keys := Ahead(k, rest);
    var m := Matching(d, open);
    FirstKeeps(c, m, keys, legs, gone);
    MatchOneResolves(c, m, k, legs(k), gone);
    var r := Nearest(open, OrderSideOf(k.side), Price(k.level)).value;
    assert open[r] in all;
    assert !RightFor(fills, d, MatchAll(c, m, keys, legs).desk, k);
    assert Walk(keys, gone);
  }

  lemma RivalsAreWrong(c: EngineConfig, d: Desk, fills: map<Key, LiveTrade>, gone: set<Key>, all: set<LiveTrade>,
                       legs: Key -> OrderAnswer)
    requires Unmatched(d, all) && LegsElsewhere(d, gone) && !NoRival(fills, gone, all)
    ensures !AlwaysRight(c, d, fills, gone, all, legs)
  {
    var k, t :| k in gone && k !in fills && t in all && t.side == OrderSideOf(k.side);
    var open := Enumeration(all);
    ElementsListed(open, all);
    NearestIsFirstLeast(open, OrderSideOf(k.side), Price(k.level));
    FirstGoesAstray(c, d, fills, gone, all, legs, k, open);
  }

  lemma StrangersAreWrong(c: EngineConfig, d: Desk, fills: map<Key, LiveTrade>, gone: set<Key>, all: set<LiveTrade>,
                          legs: Key -> OrderAnswer)
    requires Unmatched(d, all) && Own(fills, all) && fills.Keys <= gone && LegsElsewhere(d, gone)
      && !NearestToOwn(fills, all)
    ensures !AlwaysRight(c, d, fills, gone, all, legs)
  {
    var k, t :| k in fills && t in all && t != fills[k] && t.side == fills[k].side
      && HomeDistance(fills, k) >= Distance(t, Price(k.level));
    var rest := Enumeration(all - {t});
    var open := Ahead(t, rest);
    assert Elements(open) == all;
    ElementsListed(open, all);
    assert fills[k] in Elements(open);
    var own :| 0 <= own < |open| && open[own] == fills[k];
    NearestIsFirstLeast(open, OrderSideOf(k.side), Price(k.level));
    var r := Nearest(open, OrderSideOf(k.side), Price(k.level)).value;
    assert open[0] == t && r != own;
    assert open[r] in Elements(open) && open[r] != open[own];
    FirstGoesAstray(c, d, fills, gone, all, legs, k, open);
  }

  /**
   The matching of a poll is right in every order if and only if every filled key is nearer to its own fill than to
   any other unmatched trade of its side, and no vanished key that was cancelled, or filled after the snapshot, has
   the side of an unmatched trade.
   */
  lemma MatchingIsRightIff(c: EngineConfig, d: Desk, fills: map<Key, LiveTrade>, gone: set<Key>, all: set<LiveTrade>,
                           legs: Key -> OrderAnswer)
    requires Unmatched(d, all) && Own(fills, all) && fills.Keys <= gone && LegsElsewhere(d, gone)
    ensures AlwaysRight(c, d, fills, gone, all, legs) <==> NearestToOwn(fills, all) && NoRival(fills, gone, all)
  {
    if !NoRival(fills, gone, all) {
      RivalsAreWrong(c, d, fills, gone, all, legs);
    } else if !NearestToOwn(fills, all) {
      StrangersAreWrong(c, d, fills, gone, all, legs);
    } else {
      forall keys, open | Walk(keys, gone) && Lists(open, all)
        ensures Right(fills, gone, d, MatchAll(c, Matching(d, open), keys, legs).desk)
      {
        GreedyIsRight(c, fills, gone, all, d, open, keys, legs);
      }
    }
  }

  const CHEAP: Key := Key(10000, Long)
  const DEAR: Key := Key(10100, Long)

  /** A witness: of two vanished orders one was cancelled, and takes the other's fill. */
  lemma CancelledOrderCanStealAFill(c: EngineConfig, d: Desk, legs: Key -> OrderAnswer)
    requires d.meta == map[] && d.trades == map[]
    ensures var t := LiveTrade(7, Buy, 101.0);
      !AlwaysRight(c, d, map[DEAR := t], {CHEAP, DEAR}, {t}, legs)
  {
    var t := LiveTrade(7, Buy, 101.0);
    assert CHEAP in {CHEAP, DEAR} && t in {t};
    MatchingIsRightIff(c, d, map[DEAR := t], {CHEAP, DEAR}, {t}, legs);
  }

  // ---- A whole poll

  /** A dictionary walk meets every key once. */
  ghost predicate WalksOnce(c: EngineConfig) {
    forall s: set<Key> :: NoRepeats(c.order(s)) && Elements(c.order(s)) == s
  }

  lemma MatchOneOrders(c: EngineConfig, m: Matching, k: Key, leg: OrderAnswer)
    ensures MatchOne(c, m, k, leg).desk.orders == m.desk.orders - {k}
  {
    hide Nearest;
  }

  lemma {:induction false} MatchAllOrders(c: EngineConfig, m: Matching, keys: seq<Key>, legs: Key -> OrderAnswer)
    requires NoRepeats(keys)
    ensures MatchAll(c, m, keys, legs).desk.orders == m.desk.orders - Elements(keys)
  {
    hide MatchOne;
    if keys == [] {
      assert Elements(keys) == {};
      assert m.desk.orders - {} == m.desk.orders;
    } else {
      var init, k := keys[..|keys|-1], keys[|keys|-1];
      LastIsNew(keys);
      MatchAllOrders(c, m, init, legs);
      MatchOneOrders(c, MatchAll(c, m, init, legs), k, legs(k));
      assert m.desk.orders - Elements(init) - {k} == m.desk.orders - (Elements(init) + {k});
    }
  }

  /**
   Under that condition a poll maps each filled key to its own trade, rejects every other vanished key, and leaves the
   orders that still rest alone. A key whose fill came after the snapshot is among the rejected; its trade stays
   unmatched, and another key of its side can take it in a later poll.
   */
  lemma FillsReachTheirKeys(c: EngineConfig, d: Desk, open: seq<LiveTrade>, resting: set<nat>, legs: Key -> OrderAnswer,
                            fills: map<Key, LiveTrade>, all: set<LiveTrade>)
    requires var gone := Gone(d.orders, resting);
      && fills.Keys <= gone && LegsElsewhere(d, gone) && NoRival(fills, gone, all)
    requires WalksOnce(c) && Lists(Unmapped(open, d.trades.Values), all)
    requires Unmatched(d, all) && Own(fills, all) && NearestToOwn(fills, all)
    ensures var d' := CheckLimitFills(c, d, open, Some(resting), legs);
      && d'.orders == d.orders - Gone(d.orders, resting) && Right(fills, Gone(d.orders, resting), d, d')
  {
    var gone := Gone(d.orders, resting);
    var keys := c.order(gone);
    assert NoRepeats(keys) && Elements(keys) == gone;
    if d.orders != map[] {
      var d1, seen := Log(d, ReadOrders), Unmapped(open, d.trades.Values);
      GreedyIsRight(c, fills, gone, all, d1, seen, keys, legs);
      MatchAllOrders(c, Matching(d1, seen), keys, legs);
    } else {
      assert gone == {} && d.orders - {} == d.orders;
    }
  }
}
