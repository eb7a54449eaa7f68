/** The ledger of realized results of the live engine: every broker trade is counted once. */
module LiveLedger {
  import opened Market
  import opened Rounding
  import opened EngineModel
  import opened LiveMatching

  function LedgerIds(ledger: seq<Row>): set<nat> {
    set r | r in ledger :: r.id
  }

  ghost predicate CountedOnce(ledger: seq<Row>) {
    forall i, j :: 0 <= i < j < |ledger| ==> ledger[i].id != ledger[j].id
  }

  /** No two keys hold one trade, every held trade has its entry, and nothing that was counted is still held. */
  ghost predicate Clean(d: Desk) {
    && Injective(d.trades)
    && (forall k :: k in d.trades ==> d.trades[k] in d.entries && d.entries[d.trades[k]].key == k)
    && d.trades.Values !! LedgerIds(d.ledger)
    && CountedOnce(d.ledger)
  }

  function Known(d: Desk): set<nat> {
    d.trades.Values + LedgerIds(d.ledger)
  }

  // ---- What an honest broker answers

  /** An accepted order gets an id that was never seen. */
  predicate NewId(known: set<nat>, a: OrderAnswer) {
    a.Accepted? ==> a.id != NO_ID && a.id !in known
  }

  ghost predicate NewLegs(known: set<nat>, legs: Key -> OrderAnswer) {
    && (forall k: Key :: NewId(known, legs(k)))
    && (forall k1, k2 :: k1 != k2 && legs(k1).Accepted? && legs(k2).Accepted? ==> legs(k1).id != legs(k2).id)
  }

  ghost predicate DistinctIds(open: seq<LiveTrade>) {
    forall i, j :: 0 <= i < j < |open| ==> open[i].id != open[j].id
  }

  /** A snapshot shows every open trade once and none that was closed before. */
  ghost predicate HonestSnapshot(d: Desk, open: seq<LiveTrade>) {
    DistinctIds(open) && OpenIds(open) !! LedgerIds(d.ledger)
  }

  ghost predicate HonestPoll(d: Desk, p: PollAnswers) {
    p.open.Some? ==> HonestSnapshot(d, p.open.value) && NewLegs(Known(d) + OpenIds(p.open.value), p.legs)
  }

  ghost predicate HonestAttempt(d: Desk, a: Attempt) {
    a.open.Some? ==> HonestSnapshot(d, a.open.value)
  }

  ghost predicate Honest(d: Desk, m: Move) {
    match m
    case Poll(p) => HonestPoll(d, p)
    case Begin(_) => true
    case Handle(w, a) =>
      if w.signal.CloseAll? then HonestAttempt(d, a.attempt)
      else NewId(Known(d), a.answer) && NewId(Known(d), a.leg)
           && (a.answer.Accepted? && a.leg.Accepted? ==> a.answer.id != a.leg.id)
  }

  // ---- One row or one mapping more

  lemma MappingKeepsClean(d: Desk, id: nat, e: TradeEntry)
    requires Clean(d) && id !in Known(d) && id != NO_ID
    ensures Clean(Mapped(d, id, e))
    ensures Mapped(d, id, e).trades.Values <= d.trades.Values + {id}
  {
  }

  lemma RowAdds(ledger: seq<Row>, row: Row)
    requires CountedOnce(ledger) && row.id !in LedgerIds(ledger)
    ensures CountedOnce(ledger + [row])
    ensures LedgerIds(ledger + [row]) == LedgerIds(ledger) + {row.id}
  {
  }

  /** A held trade leaves the map and enters the ledger. */
  lemma CountingKeepsClean(d: Desk, k: Key, row: Row, d': Desk)
    requires Clean(d) && k in d.trades && row.id == d.trades[k]
    requires d'.trades == d.trades - {k} && d'.entries == d.entries - {row.id} && d'.ledger == d.ledger + [row]
    ensures Clean(d')
  {
    RowAdds(d.ledger, row);
    forall x | x in d'.trades ensures d'.trades[x] != row.id && d'.trades[x] in d.trades.Values {
      assert d'.trades[x] == d.trades[x];
    }
  }

  // ---- Fills

  /** How far the matching of a poll has come. */
  ghost predicate Matched(d0: Desk, open: seq<LiveTrade>, legs: Key -> OrderAnswer, m: Matching, done: set<Key>) {
    && Clean(m.desk) && m.desk.ledger == d0.ledger
    && DistinctIds(m.unclaimed)
    && (forall t :: t in m.unclaimed ==> t in open && t.id !in m.desk.trades.Values && t.id !in d0.trades.Values)
    && (forall id :: id in d0.trades.Values ==>
          id in d0.entries && id in m.desk.entries && m.desk.entries[id] == d0.entries[id])
    && (forall id :: id in m.desk.trades.Values ==>
          id in d0.trades.Values || id in OpenIds(open)
            || (exists k :: k in done && legs(k).Accepted? && legs(k).id == id))
  }

  lemma WithoutIsDistinct(open: seq<LiveTrade>, i: nat)
    requires DistinctIds(open) && i < |open|
    ensures DistinctIds(Without(open, i))
    ensures forall t :: t in Without(open, i) ==> t in open && t.id != open[i].id
  {
  }

  lemma OppositeKeepsClean(c: EngineConfig, d: Desk, k: Key, leg: OrderAnswer)
    requires Clean(d) && NewId(Known(d), leg)
    ensures var d' := PlaceOpposite(c, d, k, leg);
      && Clean(d') && d'.ledger == d.ledger
      && d'.trades.Values <= d.trades.Values + (if leg.Accepted? then {leg.id} else {})
      && (forall id :: id in d.entries && !(leg.Accepted? && id == leg.id) ==>
            id in d'.entries && d'.entries[id] == d.entries[id])
  {
    if k in d.meta && d.meta[k].opposite.Some? && leg.Accepted? {
      var o := d.meta[k].opposite.value;
      MappingKeepsClean(d, leg.id, TradeEntry(o.key, o.side, Capped(c, d.meta[k].units), leg.price, o.stop));
    }
  }

  lemma MatchOneKeepsClean(c: EngineConfig, d0: Desk, open: seq<LiveTrade>, legs: Key -> OrderAnswer, m: Matching,
                           done: set<Key>, k: Key)
    requires Matched(d0, open, legs, m, done) && k !in done
    requires HonestSnapshot(d0, open) && NewLegs(Known(d0) + OpenIds(open), legs)
    ensures Matched(d0, open, legs, MatchOne(c, m, k, legs(k)), done + {k})
  {
    var d := m.desk.(orders := m.desk.orders - {k});
    var found := Nearest(m.unclaimed, OrderSideOf(k.side), Price(k.level));
    if found.Some? {
      var t, rest := m.unclaimed[found.value], Without(m.unclaimed, found.value);
      WithoutIsDistinct(m.unclaimed, found.value);
      assert t in m.unclaimed && t.id in OpenIds(open);
      if t.id != NO_ID {
        ClaimKeepsClean(c, d0, open, legs, m, done, k, found.value);
      }
    }
  }

  lemma ClaimKeepsClean(c: EngineConfig, d0: Desk, open: seq<LiveTrade>, legs: Key -> OrderAnswer, m: Matching,
                        done: set<Key>, k: Key, i: nat)
    requires Matched(d0, open, legs, m, done) && k !in done
    requires HonestSnapshot(d0, open) && NewLegs(Known(d0) + OpenIds(open), legs)
    requires i < |m.unclaimed| && m.unclaimed[i].id != NO_ID
    ensures var t, d := m.unclaimed[i], m.desk.(orders := m.desk.orders - {k});
      var d1 := Log(Mapped(d, t.id, EntryFor(d, k, t)), TellFilled(k, t.openPrice));
      Matched(d0, open, legs, Matching(PlaceOpposite(c, d1, k, legs(k)), Without(m.unclaimed, i)), done + {k})
  {
    var t, rest, d := m.unclaimed[i], Without(m.unclaimed, i), m.desk.(orders := m.desk.orders - {k});
    WithoutIsDistinct(m.unclaimed, i);
    assert t in m.unclaimed && t.id in OpenIds(open);
    MappingKeepsClean(d, t.id, EntryFor(d, k, t));
    var d1 := Log(Mapped(d, t.id, EntryFor(d, k, t)), TellFilled(k, t.openPrice));
    var leg := legs(k);
    assert NewId(Known(d0) + OpenIds(open), leg);
    assert NewId(Known(d1), leg);
    OppositeKeepsClean(c, d1, k, leg);
    var d2 := PlaceOpposite(c, d1, k, leg);
    forall id | id in d2.trades.Values
      ensures id in d0.trades.Values || id in OpenIds(open)
        || (exists x :: x in done + {k} && legs(x).Accepted? && legs(x).id == id)
    {
      if leg.Accepted? && id == leg.id {
        assert k in done + {k};
      } else if id != t.id {
        assert id in m.desk.trades.Values;
        if id !in d0.trades.Values && id !in OpenIds(open) {
          var x :| x in done && legs(x).Accepted? && legs(x).id == id;
          assert x in done + {k};
        }
      }
    }
    forall x | x in rest ensures x in open && x.id !in d2.trades.Values && x.id !in d0.trades.Values {
      assert x in m.unclaimed && x.id in OpenIds(open);
    }
  }

  lemma {:induction false} MatchAllKeepsClean(c: EngineConfig, d0: Desk, open: seq<LiveTrade>, legs: Key -> OrderAnswer,
                                              m: Matching, keys: seq<Key>)
    requires Matched(d0, open, legs, m, {}) && NoRepeats(keys)
    requires HonestSnapshot(d0, open) && NewLegs(Known(d0) + OpenIds(open), legs)
    ensures Matched(d0, open, legs, MatchAll(c, m, keys, legs), Elements(keys))
  {
    hide MatchOne, Matched, HonestSnapshot, NewLegs;
    if keys == [] {
      assert Elements(keys) == {};
    } else {
      var init, k := keys[..|keys|-1], keys[|keys|-1];
      LastIsNew(keys);
      MatchAllKeepsClean(c, d0, open, legs, m, init);
      MatchOneKeepsClean(c, d0, open, legs, MatchAll(c, m, init, legs), Elements(init), k);
    }
  }

  lemma {:induction false} UnmappedAre(open: seq<LiveTrade>, known: set<nat>)
    requires DistinctIds(open)
    ensures DistinctIds(Unmapped(open, known))
    ensures forall t :: t in Unmapped(open, known) <==> t in open && t.id !in known
  {
    if open != [] {
      var init, last := open[..|open|-1], open[|open|-1];
      assert open == init + [last];
      UnmappedAre(init, known);
      var r := Unmapped(init, known);
      forall i | 0 <= i < |r| ensures r[i].id != last.id {
        assert r[i] in init;
        var j :| 0 <= j < |init| && init[j] == r[i];
        assert open[j].id != open[|open|-1].id;
      }
    }
  }

  /** The fills of a poll keep the key-to-trade map injective, opposite legs included. */
  lemma FillsKeepClean(c: EngineConfig, d: Desk, open: seq<LiveTrade>, resting: Option<set<nat>>,
                       legs: Key -> OrderAnswer)
    requires WalksOnce(c) && Clean(d) && HonestSnapshot(d, open) && NewLegs(Known(d) + OpenIds(open), legs)
    ensures var d' := CheckLimitFills(c, d, open, resting, legs);
      && Clean(d') && d'.ledger == d.ledger
      && (forall id :: id in d.trades.Values ==> id in d.entries && id in d'.entries && d'.entries[id] == d.entries[id])
      && (forall id :: id in d'.trades.Values ==>
            id in d.trades.Values || id in OpenIds(open) || exists k :: legs(k).Accepted? && legs(k).id == id)
  {
    if d.orders != map[] && resting.Some? {
      UnmappedAre(open, d.trades.Values);
      var m := Matching(Log(d, ReadOrders), Unmapped(open, d.trades.Values));
      assert Matched(d, open, legs, m, {});
      MatchAllKeepsClean(c, d, open, legs, m, c.order(Gone(d.orders, resting.value)));
    }
  }

  // ---- Fills over a ledger that already counts a held trade

  lemma LegIgnoresLedger(d: Desk, leg: OppositeLeg, units: real, answer: OrderAnswer, ledger: seq<Row>)
    ensures var d' := FillOpposite(d, leg, units, answer);
      FillOpposite(d.(ledger := ledger), leg, units, answer) == d'.(ledger := ledger) && d'.ledger == d.ledger
  {
    match answer
    case Refused =>
    case Accepted(id, price, _) =>
      var entry := TradeEntry(leg.key, leg.side, units, price, leg.stop);
      assert id == NO_ID || Mapped(d.(ledger := ledger), id, entry) == Mapped(d, id, entry).(ledger := ledger);
  }

  lemma OppositeIgnoresLedger(c: EngineConfig, d: Desk, k: Key, leg: OrderAnswer, ledger: seq<Row>)
    ensures var d' := PlaceOpposite(c, d, k, leg);
      PlaceOpposite(c, d.(ledger := ledger), k, leg) == d'.(ledger := ledger) && d'.ledger == d.ledger
  {
    hide Capped, FillOpposite;
    if k in d.meta && d.meta[k].opposite.Some? {
      LegIgnoresLedger(d.(meta := d.meta - {k}), d.meta[k].opposite.value, Capped(c, d.meta[k].units), leg, ledger);
    }
  }

  lemma MatchIgnoresLedger(c: EngineConfig, m: Matching, k: Key, leg: OrderAnswer, ledger: seq<Row>)
    ensures var m' := m.(desk := m.desk.(ledger := ledger));
      var r := MatchOne(c, m, k, leg);
      MatchOne(c, m', k, leg) == r.(desk := r.desk.(ledger := ledger)) && r.desk.ledger == m.desk.ledger
  {
    hide Nearest, Without, PlaceOpposite, EntryFor;
    var d := m.desk.(orders := m.desk.orders - {k});
    var found := Nearest(m.unclaimed, OrderSideOf(k.side), Price(k.level));
    if found.Some? {
      var t := m.unclaimed[found.value];
      assert EntryFor(d.(ledger := ledger), k, t) == EntryFor(d, k, t) by {
        EntryIgnoresLedger(d, k, t, ledger);
      }
      OppositeIgnoresLedger(c, Log(Mapped(d, t.id, EntryFor(d, k, t)), TellFilled(k, t.openPrice)), k, leg, ledger);
    }
  }

  lemma EntryIgnoresLedger(d: Desk, k: Key, t: LiveTrade, ledger: seq<Row>)
    ensures EntryFor(d.(ledger := ledger), k, t) == EntryFor(d, k, t)
  {
  }

  lemma {:induction false} MatchesIgnoreLedger(c: EngineConfig, m: Matching, keys: seq<Key>, legs: Key -> OrderAnswer,
                                               ledger: seq<Row>)
    ensures var m' := m.(desk := m.desk.(ledger := ledger));
      var r := MatchAll(c, m, keys, legs);
      MatchAll(c, m', keys, legs) == r.(desk := r.desk.(ledger := ledger)) && r.desk.ledger == m.desk.ledger
  {
    if keys != [] {
      hide MatchOne;
      MatchesIgnoreLedger(c, m, keys[..|keys|-1], legs, ledger);
      MatchIgnoresLedger(c, MatchAll(c, m, keys[..|keys|-1], legs), keys[|keys|-1], legs(keys[|keys|-1]), ledger);
    }
  }

  /** The fills neither read nor write the ledger. */
  lemma FillsIgnoreLedger(c: EngineConfig, d: Desk, open: seq<LiveTrade>, resting: Option<set<nat>>,
                          legs: Key -> OrderAnswer, ledger: seq<Row>)
    ensures var d' := CheckLimitFills(c, d, open, resting, legs);
      && CheckLimitFills(c, d.(ledger := ledger), open, resting, legs) == d'.(ledger := ledger)
      && d'.ledger == d.ledger
  {
    hide MatchAll, Unmapped, Gone;
    if d.orders != map[] && resting.Some? {
      var m := Matching(Log(d, ReadOrders), Unmapped(open, d.trades.Values));
      MatchesIgnoreLedger(c, m, c.order(Gone(d.orders, resting.value)), legs, ledger);
    }
  }

  /** Clean but for trades that are held although they were counted. */
  ghost predicate CleanBut(d: Desk) {
    Clean(d.(ledger := [])) && CountedOnce(d.ledger)
  }

  /** A trade that was counted is held, and its key is not taken over by the fills. */
  ghost predicate HeldOver(d: Desk, d1: Desk) {
    exists k :: k in d.trades && d.trades[k] in LedgerIds(d.ledger) && k in d1.trades && d1.trades[k] == d.trades[k]
  }

  lemma CleanIsCleanBut(d: Desk)
    requires Clean(d)
    ensures CleanBut(d)
  {
  }

  /** After the fills the books are clean unless a counted trade is still held. */
  lemma FillsClean(c: EngineConfig, d: Desk, open: seq<LiveTrade>, resting: Option<set<nat>>,
                   legs: Key -> OrderAnswer)
    requires WalksOnce(c) && CleanBut(d) && HonestSnapshot(d, open) && NewLegs(Known(d) + OpenIds(open), legs)
    ensures var d1 := CheckLimitFills(c, d, open, resting, legs);
      d1.ledger == d.ledger && (HeldOver(d, d1) || Clean(d1))
  {
    var d0 := d.(ledger := []);
    var d1 := CheckLimitFills(c, d, open, resting, legs);
    FillsIgnoreLedger(c, d, open, resting, legs, []);
    NewLegsFor(Known(d) + OpenIds(open), Known(d0) + OpenIds(open), legs);
    FillsKeepClean(c, d0, open, resting, legs);
    hide CheckLimitFills, NewLegs;
    if !HeldOver(d, d1) {
      forall id | id in d1.trades.Values ensures id !in LedgerIds(d.ledger) {
        NewIdsAreUncounted(d, open, legs, id);
      }
    }
  }

  lemma NewLegsFor(known: set<nat>, fewer: set<nat>, legs: Key -> OrderAnswer)
    requires NewLegs(known, legs) && fewer <= known
    ensures NewLegs(fewer, legs)
  {
    forall k: Key ensures NewId(fewer, legs(k)) {
      assert NewId(known, legs(k));
    }
  }

  lemma NewIdsAreUncounted(d: Desk, open: seq<LiveTrade>, legs: Key -> OrderAnswer, id: nat)
    requires HonestSnapshot(d, open) && NewLegs(Known(d) + OpenIds(open), legs)
    ensures id in OpenIds(open) || (exists k :: legs(k).Accepted? && legs(k).id == id) ==> id !in LedgerIds(d.ledger)
  {
    if k :| legs(k).Accepted? && legs(k).id == id {
      assert NewId(Known(d) + OpenIds(open), legs(k));
    }
  }

  // ---- Closures

  lemma {:induction false} CloseOutAllKeepsClean(d: Desk, keys: seq<Key>, lastPrice: Option<real>)
    requires Clean(d)
    ensures Clean(CloseOutAll(d, keys, lastPrice))
  {
    if keys != [] {
      var d1, k := CloseOutAll(d, keys[..|keys|-1], lastPrice), keys[|keys|-1];
      CloseOutAllKeepsClean(d, keys[..|keys|-1], lastPrice);
      if k in d1.trades {
        CountingKeepsClean(d1, k, StopOutRow(d1, k, d1.trades[k], lastPrice), CloseOut(d1, k, lastPrice));
      }
    }
  }

  /** The rows of a round of stop-outs: one for each key, each valued from the entry of that very trade. */
  ghost function StopOutRows(d: Desk, keys: seq<Key>, lastPrice: Option<real>): (rows: seq<Row>)
    requires Elements(keys) <= d.trades.Keys
    ensures |rows| == |keys|
  {
    if keys == [] then []
    else
      assert keys[|keys|-1] in Elements(keys);
      assert Elements(keys[..|keys|-1]) <= Elements(keys);
      StopOutRows(d, keys[..|keys|-1], lastPrice) + [StopOutRow(d, keys[|keys|-1], d.trades[keys[|keys|-1]], lastPrice)]
  }

  lemma {:induction false} StopOutRowAt(d: Desk, keys: seq<Key>, lastPrice: Option<real>, i: nat)
    requires Elements(keys) <= d.trades.Keys && i < |keys|
    ensures keys[i] in d.trades
      && StopOutRows(d, keys, lastPrice)[i] == StopOutRow(d, keys[i], d.trades[keys[i]], lastPrice)
  {
    assert keys[i] in Elements(keys);
    if i < |keys| - 1 {
      assert Elements(keys[..|keys|-1]) <= Elements(keys);
      StopOutRowAt(d, keys[..|keys|-1], lastPrice, i);
    }
  }

  /** The entries of trades that are still held. */
  ghost predicate EntriesStand(d: Desk, d': Desk) {
    forall k :: k in d'.trades ==>
      (k in d.trades && d'.trades[k] == d.trades[k]
       && d.trades[k] in d.entries && d.trades[k] in d'.entries && d'.entries[d.trades[k]] == d.entries[d.trades[k]])
  }

  lemma CloseOutStep(d: Desk, d1: Desk, k: Key, lastPrice: Option<real>)
    requires Clean(d) && EntriesStand(d, d1) && k in d1.trades
    ensures var d2 := CloseOut(d1, k, lastPrice);
      && EntriesStand(d, d2) && d2.trades == d1.trades - {k}
      && d2.ledger == d1.ledger + [StopOutRow(d, k, d.trades[k], lastPrice)]
  {
  }

  lemma StopOutRowsUnfold(d: Desk, keys: seq<Key>, lastPrice: Option<real>)
    requires keys != [] && Elements(keys) <= d.trades.Keys
    ensures Elements(keys[..|keys|-1]) <= d.trades.Keys && keys[|keys|-1] in d.trades
    ensures StopOutRows(d, keys, lastPrice) == StopOutRows(d, keys[..|keys|-1], lastPrice)
              + [StopOutRow(d, keys[|keys|-1], d.trades[keys[|keys|-1]], lastPrice)]
  {
    assert Elements(keys[..|keys|-1]) <= Elements(keys);
    assert keys[|keys|-1] in Elements(keys);
  }

  lemma {:induction false} StopOutsAreCounted(d: Desk, keys: seq<Key>, lastPrice: Option<real>)
    requires Clean(d) && NoRepeats(keys) && Elements(keys) <= d.trades.Keys
    ensures var d' := CloseOutAll(d, keys, lastPrice);
      && EntriesStand(d, d') && d'.trades == d.trades - Elements(keys)
      && d'.ledger == d.ledger + StopOutRows(d, keys, lastPrice)
  {
    if keys == [] {
      assert Elements(keys) == {};
      assert d.trades - {} == d.trades;
    } else {
      var init, k := keys[..|keys|-1], keys[|keys|-1];
      LastIsNew(keys);
      StopOutRowsUnfold(d, keys, lastPrice);
      hide Clean, CloseOut, EntriesStand, Elements, NoRepeats, StopOutRows, StopOutRow;
      StopOutsAreCounted(d, init, lastPrice);
      assert k in Elements(keys);
      CloseOutStep(d, CloseOutAll(d, init, lastPrice), k, lastPrice);
      assert d.trades - Elements(init) - {k} == d.trades - Elements(keys);
    }
  }

  // ---- Which rows a poll adds

  /** No market leg is to follow a fill. */
  ghost predicate NoLegs(d: Desk) {
    forall k :: k in d.meta ==> d.meta[k].opposite.None?
  }

  /** Resting orders and opposite legs concern only keys that hold no trade. */
  ghost predicate Separate(d: Desk) {
    && d.orders.Keys !! d.trades.Keys
    && forall k :: k in d.meta && d.meta[k].opposite.Some? ==> d.meta[k].opposite.value.key !in d.trades
  }

  ghost predicate StillHeld(trades: map<Key, nat>, d: Desk) {
    && (forall k :: k in trades ==> k in d.trades && d.trades[k] == trades[k])
    && forall k :: k in d.meta && d.meta[k].opposite.Some? ==> d.meta[k].opposite.value.key !in trades
  }

  lemma {:induction false} FillsKeepHeld(c: EngineConfig, trades: map<Key, nat>, m: Matching, keys: seq<Key>,
                                         legs: Key -> OrderAnswer)
    requires StillHeld(trades, m.desk) && Elements(keys) !! trades.Keys
    ensures StillHeld(trades, MatchAll(c, m, keys, legs).desk)
    ensures MatchAll(c, m, keys, legs).desk.ledger == m.desk.ledger
  {
    if keys != [] {
      hide MatchOne, StillHeld;
      var init, k := keys[..|keys|-1], keys[|keys|-1];
      assert keys == init + [k];
      assert Elements(keys) == Elements(init) + {k};
      FillsKeepHeld(c, trades, m, init, legs);
      FillKeepsHeld(c, trades, MatchAll(c, m, init, legs), k, legs(k));
    }
  }

  lemma FillKeepsHeld(c: EngineConfig, trades: map<Key, nat>, m: Matching, k: Key, leg: OrderAnswer)
    requires StillHeld(trades, m.desk) && k !in trades
    ensures StillHeld(trades, MatchOne(c, m, k, leg).desk) && MatchOne(c, m, k, leg).desk.ledger == m.desk.ledger
  {
    var d := m.desk.(orders := m.desk.orders - {k});
    var found := Nearest(m.unclaimed, OrderSideOf(k.side), Price(k.level));
    if found.Some? && m.unclaimed[found.value].id != NO_ID {
      var t := m.unclaimed[found.value];
      OppositeKeepsHeld(c, trades, Log(Mapped(d, t.id, EntryFor(d, k, t)), TellFilled(k, t.openPrice)), k, leg);
    }
  }

  lemma OppositeKeepsHeld(c: EngineConfig, trades: map<Key, nat>, d: Desk, k: Key, leg: OrderAnswer)
    requires StillHeld(trades, d)
    ensures StillHeld(trades, PlaceOpposite(c, d, k, leg)) && PlaceOpposite(c, d, k, leg).ledger == d.ledger
  {
  }

  /** The fill step leaves trades with their keys while no order and no leg is under those, and counts nothing. */
  lemma CheckLimitFillsKeepsHeld(c: EngineConfig, d: Desk, trades: map<Key, nat>, open: seq<LiveTrade>,
                                 resting: Option<set<nat>>, legs: Key -> OrderAnswer)
    requires WalksOnce(c) && StillHeld(trades, d) && d.orders.Keys !! trades.Keys
    ensures var d' := CheckLimitFills(c, d, open, resting, legs);
      StillHeld(trades, d') && d'.ledger == d.ledger
  {
    if d.orders != map[] && resting.Some? {
      var m := Matching(Log(d, ReadOrders), Unmapped(open, d.trades.Values));
      var keys := c.order(Gone(d.orders, resting.value));
      assert Elements(keys) <= d.orders.Keys;
      FillsKeepHeld(c, trades, m, keys, legs);
    }
  }

  lemma ValuesOf(trades: map<Key, nat>, k: Key)
    requires k in trades
    ensures trades[k] in trades.Values
  {
  }

  /**
   A stop-out is counted only for a trade that was held before the poll and that the snapshot no longer shows; never
   for a leg placed in the same poll.
   */
  lemma StopOutsWereHeld(c: EngineConfig, d: Desk, open: seq<LiveTrade>, lastPrice: Option<real>, p: PollAnswers,
                         i: nat)
    requires WalksOnce(c) && Clean(d) && HonestSnapshot(d, open) && NewLegs(Known(d) + OpenIds(open), p.legs)
    requires |d.ledger| <= i < |Reconcile(c, d, open, lastPrice, p).ledger|
    ensures var row := Reconcile(c, d, open, lastPrice, p).ledger[i];
      && row.kind == StopOut && row.id in d.trades.Values && row.id !in OpenIds(open)
      && row.id in d.entries && row.pnl == RealizedFromEntry(d.entries[row.id], lastPrice)
  {
    hide CheckLimitFills, CloseOutAll, StopOutRows, Clean, NewLegs, HonestSnapshot, RealizedFromEntry;
    var d1 := CheckLimitFills(c, d, open, p.resting, p.legs);
    FillsKeepClean(c, d, open, p.resting, p.legs);
    var skip := d1.trades.Values - d.trades.Values;
    var gone := Vanished(d1.trades, OpenIds(open), skip);
    var keys := c.order(gone);
    assert NoRepeats(keys) && Elements(keys) == gone;
    StopOutsAreCounted(d1, keys, lastPrice);
    var j := i - |d.ledger|;
    StopOutRowAt(d1, keys, lastPrice, j);
    assert keys[j] in gone;
    ValuesOf(d1.trades, keys[j]);
  }

  /** A new row of the poll counts the trade with this id. */
  ghost predicate CountedBy(ledger: seq<Row>, ledger': seq<Row>, id: nat) {
    && |ledger| <= |ledger'| && ledger'[..|ledger|] == ledger
    && exists i :: |ledger| <= i < |ledger'| && ledger'[i].id == id
  }

  /** A vanished trade that its key still holds after the fills is counted. */
  lemma HeldIsCounted(c: EngineConfig, d: Desk, open: seq<LiveTrade>, lastPrice: Option<real>, p: PollAnswers, k: Key)
    requires WalksOnce(c) && k in d.trades && d.trades[k] !in OpenIds(open)
    requires var d1 := CheckLimitFills(c, d, open, p.resting, p.legs);
      d1.ledger == d.ledger && k in d1.trades && d1.trades[k] == d.trades[k]
    ensures CountedBy(d.ledger, Reconcile(c, d, open, lastPrice, p).ledger, d.trades[k])
  {
    hide CheckLimitFills;
    var d1 := CheckLimitFills(c, d, open, p.resting, p.legs);
    ValuesOf(d.trades, k);
    var gone := Vanished(d1.trades, OpenIds(open), d1.trades.Values - d.trades.Values);
    var keys := c.order(gone);
    assert NoRepeats(keys) && Elements(keys) == gone;
    assert k in gone;
    KeyIsCounted(d1, keys, lastPrice, k);
  }

  /** A vanished trade is counted in the same poll if and only if no fill of that poll took its key over. */
  lemma VanishedTradeIsCountedIff(c: EngineConfig, d: Desk, open: seq<LiveTrade>, lastPrice: Option<real>,
                                  p: PollAnswers, k: Key)
    requires WalksOnce(c) && Clean(d) && HonestSnapshot(d, open) && NewLegs(Known(d) + OpenIds(open), p.legs)
    requires k in d.trades && d.trades[k] !in OpenIds(open)
    ensures var d1 := CheckLimitFills(c, d, open, p.resting, p.legs);
      CountedBy(d.ledger, Reconcile(c, d, open, lastPrice, p).ledger, d.trades[k])
      <==> k in d1.trades && d1.trades[k] == d.trades[k]
  {
    FillsKeepClean(c, d, open, p.resting, p.legs);
    var d1 := CheckLimitFills(c, d, open, p.resting, p.legs);
    if k in d1.trades && d1.trades[k] == d.trades[k] {
      HeldIsCounted(c, d, open, lastPrice, p, k);
    } else {
      ValuesOf(d.trades, k);
      TakenOverIsNotCounted(c, d, d1, open, lastPrice, k);
    }
  }

  lemma KeyOfEntry(d: Desk, d1: Desk, k: Key)
    requires Clean(d) && Clean(d1) && k in d.trades
    requires d.trades[k] in d1.entries && d1.entries[d.trades[k]] == d.entries[d.trades[k]]
    ensures forall l :: l in d1.trades && d1.trades[l] == d.trades[k] ==> l == k
  {
  }

  lemma TakenOverIsNotCounted(c: EngineConfig, d: Desk, d1: Desk, open: seq<LiveTrade>, lastPrice: Option<real>, k: Key)
    requires WalksOnce(c) && Clean(d) && Clean(d1) && d1.ledger == d.ledger && k in d.trades
    requires d.trades[k] in d1.entries && d1.entries[d.trades[k]] == d.entries[d.trades[k]]
    requires k !in d1.trades || d1.trades[k] != d.trades[k]
    ensures var d2 := CheckClosures(c, d1, open, d1.trades.Values - d.trades.Values, lastPrice);
      !CountedBy(d.ledger, d2.ledger, d.trades[k])
  {
    var id := d.trades[k];
    KeyOfEntry(d, d1, k);
    hide CloseOutAll, StopOutRows, Clean, StopOutRow, EntriesStand;
    if d1.trades != map[] {
      var gone := Vanished(d1.trades, OpenIds(open), d1.trades.Values - d.trades.Values);
      var keys := c.order(gone);
      assert NoRepeats(keys) && Elements(keys) == gone;
      StopOutsAreCounted(d1, keys, lastPrice);
      var ledger := CloseOutAll(d1, keys, lastPrice).ledger;
      forall i | |d.ledger| <= i < |ledger| ensures ledger[i].id != id {
        StopOutRowAt(d1, keys, lastPrice, i - |d.ledger|);
        assert keys[i - |d.ledger|] in gone;
      }
    }
  }

  /** Neither an order nor a leg is under the key. */
  ghost predicate Uncontested(d: Desk, k: Key) {
    k !in d.orders && forall l :: l in d.meta && d.meta[l].opposite.Some? ==> d.meta[l].opposite.value.key != k
  }

  /** So a vanished trade is counted whenever neither an order nor a leg is under its key. */
  lemma VanishedTradesAreCounted(c: EngineConfig, d: Desk, open: seq<LiveTrade>, lastPrice: Option<real>,
                                 p: PollAnswers, k: Key)
    requires WalksOnce(c) && k in d.trades && d.trades[k] !in OpenIds(open) && Uncontested(d, k)
    ensures CountedBy(d.ledger, Reconcile(c, d, open, lastPrice, p).ledger, d.trades[k])
  {
    CheckLimitFillsKeepsHeld(c, d, map[k := d.trades[k]], open, p.resting, p.legs);
    hide CheckLimitFills;
    HeldIsCounted(c, d, open, lastPrice, p, k);
  }

  lemma {:induction false} KeyIsCounted(d: Desk, keys: seq<Key>, lastPrice: Option<real>, k: Key)
    requires NoRepeats(keys) && k in d.trades
    ensures var d' := CloseOutAll(d, keys, lastPrice);
      && |d.ledger| <= |d'.ledger| && d'.ledger[..|d.ledger|] == d.ledger
      && (k !in keys ==> k in d'.trades && d'.trades[k] == d.trades[k])
      && (k in keys ==> exists i :: |d.ledger| <= i < |d'.ledger| && d'.ledger[i].id == d.trades[k])
  {
    if keys != [] {
      var init, last := keys[..|keys|-1], keys[|keys|-1];
      LastIsNew(keys);
      KeyIsCounted(d, init, lastPrice, k);
      var d1, d' := CloseOutAll(d, init, lastPrice), CloseOutAll(d, keys, lastPrice);
      assert d'.ledger[..|d1.ledger|] == d1.ledger;
      assert d'.ledger[..|d.ledger|] == d'.ledger[..|d1.ledger|][..|d.ledger|];
      assert keys == init + [last];
      if k in init {
        var i :| |d.ledger| <= i < |d1.ledger| && d1.ledger[i].id == d.trades[k];
        assert d'.ledger[i] == d1.ledger[i];
      } else if k == last {
        assert d'.ledger[|d1.ledger|].id == d.trades[k];
      }
    }
  }
}
