/** In a run that handles entries for free keys only, no key of the live engine has both an order and a trade. */
module SeparateKeys {
  import opened Market
  import opened Rounding
  import opened EngineModel
  import opened LiveLedger

  /** An entry is handled only for a key that has neither an order nor a trade, and carries no opposite leg. */
  predicate ForFreeKey(d: Desk, m: Move) {
    m.Handle? && m.wanted.signal.Entry? ==>
      m.wanted.signal.key !in d.orders && m.wanted.signal.key !in d.trades && m.wanted.opposite.None?
  }

  ghost predicate ForFreeKeys(c: EngineConfig, e: Engine, moves: seq<Move>) {
    moves == []
    || (ForFreeKeys(c, e, moves[..|moves|-1]) && ForFreeKey(Play(c, e, moves[..|moves|-1]).desk, moves[|moves|-1]))
  }

  /** No key has both an order and a trade, and no leg is to follow. */
  ghost predicate Unmixed(d: Desk) {
    d.orders.Keys !! d.trades.Keys && NoLegs(d)
  }

  lemma {:induction false} MatchesKeepApart(c: EngineConfig, m: Matching, keys: seq<Key>, legs: Key -> OrderAnswer)
    requires Unmixed(m.desk)
    ensures Unmixed(MatchAll(c, m, keys, legs).desk)
  {
    if keys != [] {
      hide Unmixed, MatchOne;
      var k := keys[|keys|-1];
      MatchesKeepApart(c, m, keys[..|keys|-1], legs);
      MatchKeepsApart(c, MatchAll(c, m, keys[..|keys|-1], legs), k, legs(k));
    }
  }

  lemma MatchKeepsApart(c: EngineConfig, m: Matching, k: Key, leg: OrderAnswer)
    requires Unmixed(m.desk)
    ensures Unmixed(MatchOne(c, m, k, leg).desk)
  {
    hide Nearest;
  }

  lemma {:induction false} ClosuresKeepApart(d: Desk, keys: seq<Key>, lastPrice: Option<real>)
    requires Unmixed(d)
    ensures Unmixed(CloseOutAll(d, keys, lastPrice))
  {
    if keys != [] {
      ClosuresKeepApart(d, keys[..|keys|-1], lastPrice);
    }
  }

  lemma {:induction false} TrimsKeepApart(d: Desk, keys: seq<Key>, closes: Key -> CloseAnswer)
    requires Unmixed(d)
    ensures Unmixed(TrimLevels(d, keys, closes))
  {
    if keys != [] {
      TrimsKeepApart(d, keys[..|keys|-1], closes);
    }
  }

  lemma PollKeepsApart(c: EngineConfig, d: Desk, lastPrice: Option<real>, p: PollAnswers)
    requires Unmixed(d)
    ensures Unmixed(FastPoll(c, d, lastPrice, p))
  {
    hide MatchAll, CloseOutAll, TrimLevels, Unmapped, Vanished;
    var d0 := Log(d, ReadTrades(CountOf(p.open)));
    if p.open.Some? {
      var open := p.open.value;
      if d.orders != map[] && p.resting.Some? {
        var m := Matching(Log(d0, ReadOrders), Unmapped(open, d0.trades.Values));
        MatchesKeepApart(c, m, c.order(Gone(d0.orders, p.resting.value)), p.legs);
      }
      var d1 := CheckLimitFills(c, d0, open, p.resting, p.legs);
      ClosuresKeepApart(d1, c.order(Vanished(d1.trades, OpenIds(open), d1.trades.Values - d0.trades.Values)),
                        lastPrice);
      TrimsKeepApart(Reconcile(c, d0, open, lastPrice, p), p.levels, p.closes);
    }
  }

  lemma {:induction false} ClosesKeepApart(d: Desk, open: seq<LiveTrade>, holders: map<nat, Key>,
                                           close: nat -> CloseAnswer)
    requires Unmixed(d)
    ensures Unmixed(CloseEach(d, open, holders, close))
  {
    if open != [] {
      ClosesKeepApart(d, open[..|open|-1], holders, close);
    }
  }

  lemma AttemptKeepsApart(c: EngineConfig, d: Desk, b: Breaker, a: Attempt)
    requires Unmixed(d)
    ensures Unmixed(DeskAfterAttempt(c, d, b, a))
  {
    hide CloseEach, OutcomeOf, Holders;
    if a.open.Some? {
      var d1 := Log(Log(d, CancelAll), ReadTrades(CountOf(a.open)));
      ClosesKeepApart(d1, a.open.value, Holders(d.trades, c.order(d.trades.Keys)), a.close);
    }
  }

  lemma StepKeepsApart(c: EngineConfig, e: Engine, m: Move)
    requires Unmixed(e.desk) && ForFreeKey(e.desk, m)
    ensures Unmixed(Step(c, e, m).desk)
  {
    match m
    case Poll(p) =>
      hide FastPoll;
      PollKeepsApart(c, e.desk, e.lastPrice, p);
    case Begin(_) =>
    case Handle(w, a) =>
      if w.signal.CloseAll? {
        hide DeskAfterAttempt;
        AttemptKeepsApart(c, e.desk, e.breaker, a.attempt);
      } else {
        EntryKeepsApart(c, e.desk, w, a);
      }
  }

  lemma MarketKeepsApart(c: EngineConfig, d: Desk, s: Signal, answer: OrderAnswer)
    requires Unmixed(d) && s.Entry? && s.key !in d.orders
    ensures Unmixed(PlaceMarket(c, d, s, answer))
  {
  }

  lemma ImmediateKeepsApart(c: EngineConfig, d: Desk, k: Key, m: Meta, leg: OrderAnswer)
    requires Unmixed(d) && m.opposite.None?
    ensures Unmixed(PlaceOpposite(c, d.(meta := d.meta[k := m]), k, leg))
  {
    hide Capped;
  }

  lemma MappedApart(d: Desk, id: nat, e: TradeEntry, event: Event)
    requires Unmixed(d) && e.key !in d.orders
    ensures Unmixed(Log(Mapped(d, id, e), event))
  {
  }

  lemma OrderedApart(d: Desk, k: Key, id: nat, m: Meta)
    requires Unmixed(d) && k !in d.trades && m.opposite.None?
    ensures Unmixed(d.(orders := d.orders[k := id], meta := d.meta[k := m]))
  {
  }

  lemma LoggedApart(d: Desk, event: Event)
    requires Unmixed(d)
    ensures Unmixed(Log(d, event))
  {
  }

  lemma RestingKeepsApart(c: EngineConfig, d: Desk, w: Wanted, answer: OrderAnswer, leg: OrderAnswer)
    requires Unmixed(d) && w.signal.Entry? && w.opposite.None? && w.signal.key !in d.orders && w.signal.key !in d.trades
    ensures Unmixed(PlaceResting(c, d, w, answer, leg))
  {
    hide Unmixed, PlaceOpposite, Round5, Capped;
    var s, units := w.signal, Capped(c, w.signal.units);
    var side := OrderSideOf(s.key.side);
    var place := Place(side, units, s.orderType, Some(s.limitPrice), Some(s.stopLoss));
    var d1 := Log(d, place);
    LoggedApart(d, place);
    match answer
    case Refused => LoggedApart(d1, TellRejected(s.key));
    case Accepted(id, price, immediate) =>
      if immediate {
        var entry := TradeEntry(s.key, side, units, price, Some(s.stopLoss));
        MappedApart(d1, id, entry, TellFilled(s.key, price));
        ImmediateKeepsApart(c, Log(Mapped(d1, id, entry), TellFilled(s.key, price)), s.key,
                            Meta(s.units, 0.0, None, None), leg);
      } else if id != NO_ID {
        OrderedApart(d1, s.key, id, Meta(s.units, Round5(units), Some(Round5(s.stopLoss)), None));
      }
  }

  lemma EntryKeepsApart(c: EngineConfig, d: Desk, w: Wanted, a: SignalAnswers)
    requires Unmixed(d) && w.signal.Entry? && w.opposite.None? && w.signal.key !in d.orders && w.signal.key !in d.trades
    ensures Unmixed(ProcessEntry(c, d, w, a))
  {
    hide Unmixed, StopOnWrongSide, PlaceMarket, PlaceResting;
    LoggedApart(d, TellRejected(w.signal.key));
    MarketKeepsApart(c, d, w.signal, a.answer);
    RestingKeepsApart(c, d, w, a.answer, a.leg);
  }

  /**
   Main result: from the start on, a run that handles entries for free keys only never has an order beside a trade.
   */
  lemma {:induction false} RunKeepsSeparate(c: EngineConfig, seed: Option<real>, today: string, moves: seq<Move>)
    requires ForFreeKeys(c, Started(c, seed, today), moves)
    ensures var d := Play(c, Started(c, seed, today), moves).desk; Unmixed(d) && Separate(d)
  {
    if moves != [] {
      hide Step, ForFreeKey, Started;
      RunKeepsSeparate(c, seed, today, moves[..|moves|-1]);
      StepKeepsApart(c, Play(c, Started(c, seed, today), moves[..|moves|-1]), moves[|moves|-1]);
    }
  }
}
