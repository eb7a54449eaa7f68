/** When a cycle of the sliding grid asks again for a side whose order still rests. */
module SlideAsks {
  import opened Market
  import opened GridModel
  import opened DrainAgreement
  import opened GridTracking
  import opened Quiescence

  ghost predicate NewlyQueued(g: Grid, g': Grid, k: Key) {
    exists i :: |g.queue| <= i < |g'.queue| && g'.queue[i].Entry? && g'.queue[i].key == k
  }

  /** What is queued is what was newly placed, and only sides that could be. */
  ghost predicate QueuesPlaced(c: GridConfig, g: Grid, g': Grid, levels: seq<int>) {
    && g' == g.(placed := g'.placed, queue := g'.queue) && g.queue <= g'.queue && g.placed <= g'.placed
    && (forall k :: NewlyQueued(g, g', k) <==> k in g'.placed && k !in g.placed)
    && (forall k :: k in g'.placed && k !in g.placed ==>
          k.level in levels && k.level !in g.retired && k !in g.filled && !Unplaceable(c, g, k))
    && (forall i :: |g.queue| <= i < |g'.queue| ==> g'.queue[i].Entry?)
  }

  lemma MissingQueues(c: GridConfig, g: Grid, k: Key)
    requires k.level !in g.retired
    ensures QueuesPlaced(c, g, QueueMissing(c, g, k), [k.level])
  {
    hide Unplaceable, SideStopLoss;
    var g' := QueueMissing(c, g, k);
    if g' != g {
      assert g'.queue[|g.queue|].key == k;
    }
  }

  lemma QueuesJoin(c: GridConfig, g: Grid, g1: Grid, g2: Grid, some: seq<int>, more: seq<int>)
    requires QueuesPlaced(c, g, g1, some) && QueuesPlaced(c, g1, g2, more)
    ensures QueuesPlaced(c, g, g2, some + more)
  {
    assert forall k :: Unplaceable(c, g1, k) == Unplaceable(c, g, k);
    hide Unplaceable;
    forall k ensures NewlyQueued(g, g2, k) <==> k in g2.placed && k !in g.placed {
      if NewlyQueued(g, g1, k) {
        var i :| |g.queue| <= i < |g1.queue| && g1.queue[i].Entry? && g1.queue[i].key == k;
        assert g2.queue[i] == g1.queue[i];
      }
      if NewlyQueued(g, g2, k) {
        var i :| |g.queue| <= i < |g2.queue| && g2.queue[i].Entry? && g2.queue[i].key == k;
        assert i < |g1.queue| ==> g1.queue[i] == g2.queue[i];
        assert i < |g1.queue| ==> NewlyQueued(g, g1, k);
        assert i >= |g1.queue| ==> NewlyQueued(g1, g2, k);
      }
    }
  }

  lemma LevelQueues(c: GridConfig, g: Grid, level: int)
    ensures QueuesPlaced(c, g, QueueLevel(c, g, level), [level])
  {
    hide QueueMissing, QueuesPlaced;
    if level in g.retired {
      NothingQueued(c, g, [level]);
    } else {
      MissingQueues(c, g, Key(level, Long));
      var g1 := QueueMissing(c, g, Key(level, Long));
      QueuedFrame(c, g, g1, [level]);
      MissingQueues(c, g1, Key(level, Short));
      var g2 := QueueMissing(c, g1, Key(level, Short));
      QueuesJoin(c, g, g1, g2, [level], [level]);
      SameLevelTwice(c, g, g2, level);
    }
  }

  lemma NothingQueued(c: GridConfig, g: Grid, levels: seq<int>)
    ensures QueuesPlaced(c, g, g, levels)
  {
  }

  lemma QueuedFrame(c: GridConfig, g: Grid, g': Grid, levels: seq<int>)
    requires QueuesPlaced(c, g, g', levels)
    ensures g'.retired == g.retired
  {
  }

  lemma SameLevelTwice(c: GridConfig, g: Grid, g': Grid, level: int)
    requires QueuesPlaced(c, g, g', [level] + [level])
    ensures QueuesPlaced(c, g, g', [level])
  {
  }

  lemma {:induction false} LevelsQueue(c: GridConfig, g: Grid, levels: seq<int>)
    ensures QueuesPlaced(c, g, QueueLevels(c, g, levels), levels)
  {
    hide QueueLevel, QueuesPlaced;
    if levels == [] {
      NothingQueued(c, g, []);
    } else {
      var init, level := levels[..|levels|-1], levels[|levels|-1];
      LevelsQueue(c, g, init);
      LevelQueues(c, QueueLevels(c, g, init), level);
      QueuesJoin(c, g, QueueLevels(c, g, init), QueueLevels(c, g, levels), init, [level]);
      assert levels == init + [level];
    }
  }

  /** No signal is for a side that has an order. */
  ghost predicate AvoidsOrders(sigs: seq<Signal>, orders: set<Key>) {
    forall i :: 0 <= i < |sigs| && sigs[i].Entry? ==> sigs[i].key !in orders
  }

  /**
   Main result: a cycle that slides the window asks for no side that has an order if and only if every order that still
   waits to be cancelled is for a level outside the new window, or retired, or for a side that cannot be placed.
   */
  lemma CycleAvoidsOrdersIff(c: GridConfig, g: Grid, orders: set<Key>)
    requires Tracks(g, orders) && g.anchor.Some? && g.queue == []
    ensures AvoidsOrders(Maintain(c, Trim(c, g)).queue, orders) <==> OutOfReach(c, g, orders)
  {
    hide Unplaceable, Window, SideStopLoss, Trim, QueueLevels;
    TrimFrame(c, g);
    var g1 := Trim(c, g);
    assert Window(c, g1) == Window(c, g) by { SameWindow(c, g, g1); }
    var window := Window(c, g);
    var g2 := Retract(g1, window);
    LevelsQueue(c, g2, window);
    QueueLevelsQueue(c, g2, window);
    var g3 := QueueLevels(c, g2, window);
    forall k ensures Unplaceable(c, g3, k) == Unplaceable(c, g, k) == Unplaceable(c, g2, k) {
      SamePlaces(c, g, g2, g3, k);
    }
    hide Queueing;
    if k :| k in orders && k !in g.placed && k.level in window && k.level !in g1.retired && !Unplaceable(c, g, k) {
      StagedSide(c, g2, g3, window, k);
      assert NewlyQueued(g2, g3, k);
    }
    if !AvoidsOrders(g3.queue, orders) {
      var i :| 0 <= i < |g3.queue| && g3.queue[i].Entry? && g3.queue[i].key in orders;
      assert NewlyQueued(g2, g3, g3.queue[i].key);
    }
  }

  lemma SameWindow(c: GridConfig, g: Grid, g1: Grid)
    requires g1 == g.(retired := g1.retired, pendingClose := g1.pendingClose)
    ensures Window(c, g1) == Window(c, g)
  {
  }

  lemma SamePlaces(c: GridConfig, g: Grid, g2: Grid, g3: Grid, k: Key)
    requires g2.price == g.price == g3.price && g2.levels == g.levels == g3.levels
    ensures Unplaceable(c, g3, k) == Unplaceable(c, g, k) == Unplaceable(c, g2, k)
  {
  }

  lemma StagedSide(c: GridConfig, g: Grid, g': Grid, levels: seq<int>, k: Key)
    requires Queueing(c, g, g', levels) && k.level in levels && k.level !in g.retired && k !in g.filled
    ensures k in g'.placed || Unplaceable(c, g', k)
  {
    var i :| 0 <= i < |levels| && levels[i] == k.level;
    hide Unplaceable;
  }
}
