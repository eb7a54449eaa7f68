/** When the live engine's guard accepts the two market orders that open a session. */
module AnchorPair {
  import opened Market
  import opened Rounding
  import opened Ladder
  import opened LadderShape
  import opened GridModel
  import E = EngineModel

  /** The strategy as it places its first pair. */
  function AtAnchor(c: GridConfig, close: real): Grid {
    InitialGrid.(price := close, anchor := Some(close), levels := BuildLadder(c.anchorGap, c.spacing, close))
  }

  // ---- The neighbours of the anchor's level

  /** The rungs of the falling and of the rising half, from the anchor outwards. */
  function Down(c: GridConfig, close: real, i: nat): int {
    Rung(close - c.anchorGap, -c.spacing, i)
  }

  function Up(c: GridConfig, close: real, i: nat): int {
    Rung(close + c.anchorGap, c.spacing, i)
  }

  /** The first rung below the anchor's level, on the falling half of the ladder from its i-th rung on. */
  function RungBelow(c: GridConfig, close: real, i: nat): Option<int>
    decreases RUNGS - i
  {
    if i >= RUNGS then None
    else
      var rung := Down(c, close, i);
      if rung < Cents(close) then Some(rung) else RungBelow(c, close, i + 1)
  }

  function RungAbove(c: GridConfig, close: real, i: nat): Option<int>
    decreases RUNGS - i
  {
    if i >= RUNGS then None
    else
      var rung := Up(c, close, i);
      if rung > Cents(close) then Some(rung) else RungAbove(c, close, i + 1)
  }

  predicate Spaced(c: GridConfig) {
    c.anchorGap > 0.0 && c.spacing > 0.0
  }

  /** How far the i-th rung of a half lies beyond its first. */
  function Beyond(c: GridConfig, i: nat): real {
    i as real * c.spacing
  }

  lemma BeyondGrows(c: GridConfig, i: nat, j: nat)
    requires Spaced(c) && i <= j
    ensures 0.0 <= Beyond(c, i) <= Beyond(c, j)
  {
  }

  lemma RungPrice(c: GridConfig, close: real, i: nat)
    ensures Down(c, close, i) == Cents(close - c.anchorGap - Beyond(c, i))
    ensures Up(c, close, i) == Cents(close + c.anchorGap + Beyond(c, i))
  {
    TimesNegative(i as real, c.spacing);
    hide Cents;
    assert Along(close - c.anchorGap, -c.spacing, i) == close - c.anchorGap - Beyond(c, i);
    assert Along(close + c.anchorGap, c.spacing, i) == close + c.anchorGap + Beyond(c, i);
  }

  lemma CentsMonotone(x: real, y: real)
    requires x <= y
    ensures Cents(x) <= Cents(y)
  {
    RoundMonotone(x * 100.0, y * 100.0);
    hide RoundHalfEven;
  }

  lemma RungsFall(c: GridConfig, close: real, i: nat, j: nat)
    requires Spaced(c) && i <= j
    ensures Down(c, close, j) <= Down(c, close, i) <= Cents(close)
    ensures Up(c, close, j) >= Up(c, close, i) >= Cents(close)
  {
    hide Down, Up, Cents, Beyond;
    RungPrice(c, close, i);
    RungPrice(c, close, j);
    BeyondGrows(c, i, j);
    CentsMonotone(close - c.anchorGap - Beyond(c, j), close - c.anchorGap - Beyond(c, i));
    CentsMonotone(close - c.anchorGap - Beyond(c, i), close);
    CentsMonotone(close + c.anchorGap + Beyond(c, i), close + c.anchorGap + Beyond(c, j));
    CentsMonotone(close, close + c.anchorGap + Beyond(c, i));
  }

  /** Every rung from the i-th on that lies below the anchor's level is at most the one found. */
  lemma {:induction false} RungBelowIsGreatest(c: GridConfig, close: real, i: nat)
    requires Spaced(c)
    ensures var r := RungBelow(c, close, i);
      if r.None? then forall j: nat :: i <= j < RUNGS ==> Down(c, close, j) >= Cents(close)
      else r.value < Cents(close)
           && (exists j: nat :: i <= j < RUNGS && Down(c, close, j) == r.value)
           && forall j: nat :: i <= j < RUNGS && Down(c, close, j) < Cents(close) ==>
                Down(c, close, j) <= r.value
    decreases RUNGS - i
  {
    hide Down, Up, Cents;
    if i < RUNGS {
      if Down(c, close, i) < Cents(close) {
        forall j: nat | i <= j < RUNGS
          ensures Down(c, close, j) <= Down(c, close, i)
        {
          RungsFall(c, close, i, j);
        }
      } else {
        RungBelowIsGreatest(c, close, i + 1);
      }
    }
  }

  lemma {:induction false} RungAboveIsLeast(c: GridConfig, close: real, i: nat)
    requires Spaced(c)
    ensures var r := RungAbove(c, close, i);
      if r.None? then forall j: nat :: i <= j < RUNGS ==> Up(c, close, j) <= Cents(close)
      else r.value > Cents(close)
           && (exists j: nat :: i <= j < RUNGS && Up(c, close, j) == r.value)
           && forall j: nat :: i <= j < RUNGS && Up(c, close, j) > Cents(close) ==>
                Up(c, close, j) >= r.value
    decreases RUNGS - i
  {
    hide Down, Up, Cents;
    if i < RUNGS {
      if Up(c, close, i) > Cents(close) {
        forall j: nat | i <= j < RUNGS
          ensures Up(c, close, j) >= Up(c, close, i)
        {
          RungsFall(c, close, i, j);
        }
      } else {
        RungAboveIsLeast(c, close, i + 1);
      }
    }
  }

  lemma FoundAt(levels: seq<int>, level: int, i: nat)
    requires Increasing(levels) && i < |levels| && levels[i] == level
    ensures IndexOf(levels, level) == Some(i)
  {
  }

  lemma BetweenNeighbours(levels: seq<int>, i: nat, j: nat)
    requires Increasing(levels) && i < |levels| && j < |levels| && levels[i] < levels[j]
    ensures i < j
    ensures (forall x :: x in levels && x < levels[j] ==> x <= levels[i]) ==> j == i + 1
    ensures (forall x :: x in levels && x > levels[i] ==> x >= levels[j]) ==> j == i + 1
  {
    if j > i + 1 {
      assert levels[i] < levels[i + 1] < levels[j] && levels[i + 1] in levels;
    }
  }

  /** The level below is the greatest of those that are less. */
  lemma GreatestBelow(levels: seq<int>, level: int, below: Option<int>)
    requires Increasing(levels) && level in levels
    requires below.None? ==> forall x :: x in levels ==> x >= level
    requires below.Some? ==> below.value in levels && below.value < level
    requires below.Some? ==> forall x :: x in levels && x < level ==> x <= below.value
    ensures NextBelow(levels, level) == below
  {
    var i :| 0 <= i < |levels| && levels[i] == level;
    FoundAt(levels, level, i);
    assert levels[0] in levels;
    hide IndexOf;
    if below.Some? {
      var j :| 0 <= j < |levels| && levels[j] == below.value;
      BetweenNeighbours(levels, j, i);
    }
  }

  lemma LeastAbove(levels: seq<int>, level: int, above: Option<int>)
    requires Increasing(levels) && level in levels
    requires above.None? ==> forall x :: x in levels ==> x <= level
    requires above.Some? ==> above.value in levels && above.value > level
    requires above.Some? ==> forall x :: x in levels && x > level ==> x >= above.value
    ensures NextAbove(levels, level) == above
  {
    var i :| 0 <= i < |levels| && levels[i] == level;
    FoundAt(levels, level, i);
    assert levels[|levels|-1] in levels;
    hide IndexOf;
    if above.Some? {
      var j :| 0 <= j < |levels| && levels[j] == above.value;
      BetweenNeighbours(levels, i, j);
    }
  }

  lemma AmongRungs(first: real, step: real, x: int)
    ensures x in Rungs(first, step, RUNGS) <==> exists i: nat :: i < RUNGS && Rung(first, step, i) == x
  {
    RungCount(first, step, RUNGS);
    var rungs := Rungs(first, step, RUNGS);
    hide Rungs, Rung;
    forall i: nat | i < RUNGS ensures rungs[i] == Rung(first, step, i) {
      RungAt(first, step, RUNGS, i);
    }
  }

  /** A level of the ladder is the anchor's or a rung of one of the two halves. */
  lemma LevelsOfLadder(c: GridConfig, close: real, x: int)
    ensures x in BuildLadder(c.anchorGap, c.spacing, close) <==>
      || x == Cents(close)
      || (exists i: nat :: i < RUNGS && Up(c, close, i) == x)
      || (exists i: nat :: i < RUNGS && Down(c, close, i) == x)
  {
    hide Rungs, SortUnique, Cents, Rung;
    var up, down := Rungs(close + c.anchorGap, c.spacing, RUNGS), Rungs(close - c.anchorGap, -c.spacing, RUNGS);
    SortUniqueIsSorted([Cents(close)] + up + down);
    AmongRungs(close + c.anchorGap, c.spacing, x);
    AmongRungs(close - c.anchorGap, -c.spacing, x);
    var above, below, fall := close + c.anchorGap, close - c.anchorGap, -c.spacing;
    if i: nat :| i < RUNGS && Rung(above, c.spacing, i) == x {
      assert Up(c, close, i) == x;
    }
    if i: nat :| i < RUNGS && Rung(below, fall, i) == x {
      assert Down(c, close, i) == x;
    }
  }

  /** The neighbours of the anchor's level on the ladder, at every setting. */
  lemma Neighbours(c: GridConfig, close: real)
    requires Spaced(c)
    ensures var levels := BuildLadder(c.anchorGap, c.spacing, close);
      && NextBelow(levels, Cents(close)) == RungBelow(c, close, 0)
      && NextAbove(levels, Cents(close)) == RungAbove(c, close, 0)
  {
    hide Down, Up, BuildLadder, RungBelow, RungAbove, Cents, NextBelow, NextAbove;
    var levels := BuildLadder(c.anchorGap, c.spacing, close);
    LadderIncreases(c.anchorGap, c.spacing, close);
    RungBelowIsGreatest(c, close, 0);
    RungAboveIsLeast(c, close, 0);
    forall i: nat | i < RUNGS
      ensures Down(c, close, i) <= Cents(close) <= Up(c, close, i)
    {
      RungsFall(c, close, i, i);
    }
    forall x
      ensures x in levels <==>
        || x == Cents(close)
        || (exists i: nat :: i < RUNGS && Up(c, close, i) == x)
        || (exists i: nat :: i < RUNGS && Down(c, close, i) == x)
    {
      LevelsOfLadder(c, close, x);
    }
    GreatestBelow(levels, Cents(close), RungBelow(c, close, 0));
    LeastAbove(levels, Cents(close), RungAbove(c, close, 0));
  }

  /** With a gap above one cent the first rung is the neighbour. */
  lemma WideGap(c: GridConfig, close: real)
    requires Spaced(c) && c.anchorGap > 0.01
    ensures RungBelow(c, close, 0) == Some(Cents(close - c.anchorGap))
    ensures RungAbove(c, close, 0) == Some(Cents(close + c.anchorGap))
  {
    hide RoundHalfEven;
    assert Along(close - c.anchorGap, -c.spacing, 0) == close - c.anchorGap;
    assert Along(close + c.anchorGap, c.spacing, 0) == close + c.anchorGap;
    RoundStrict((close - c.anchorGap) * 100.0, c.anchorGap * 100.0);
    RoundStrict(close * 100.0, c.anchorGap * 100.0);
    assert (close - c.anchorGap) * 100.0 + c.anchorGap * 100.0 == close * 100.0;
    assert close * 100.0 + c.anchorGap * 100.0 == (close + c.anchorGap) * 100.0;
  }

  // ---- The guard

  /** The guard's verdict on a leg of the pair: it is placed and its stop lies on the losing side of the close. */
  predicate Accepted(c: GridConfig, close: real, side: Side) {
    var g, k := AtAnchor(c, close), Key(Cents(close), side);
    SideStopLoss(c, g.levels, k.level, k.side).Some? && !E.StopOnWrongSide(EntrySignal(c, g, k, true), close)
  }

  /** How many cents the buy of a level is raised above it. */
  function Lift(c: GridConfig, close: real): int {
    Cents(Price(Cents(close)) + c.offset) - Cents(close)
  }

  lemma StopOfLong(c: GridConfig, levels: seq<int>, level: int)
    ensures SideStopLoss(c, levels, level, Long) ==
      match NextBelow(levels, level)
      case None => None
      case Some(below) => Some(Cents(Price(below + SideEntry(c, level, Long) - level) - c.stopBuffer))
  {
    hide NextBelow, Cents;
    match NextBelow(levels, level)
    case None =>
    case Some(below) =>
      assert Price(SideEntry(c, level, Long)) - (Price(level - below) + c.stopBuffer)
          == Price(below + SideEntry(c, level, Long) - level) - c.stopBuffer;
  }

  lemma StopOfShort(c: GridConfig, levels: seq<int>, level: int)
    ensures SideStopLoss(c, levels, level, Short) ==
      match NextAbove(levels, level)
      case None => None
      case Some(above) => Some(Cents(Price(above) + c.stopBuffer))
  {
    hide NextAbove, Cents;
    match NextAbove(levels, level)
    case None =>
    case Some(above) =>
      assert Price(level) + (Price(above - level) + c.stopBuffer) == Price(above) + c.stopBuffer;
  }

  /**
   Main result: at every close and every setting the long leg is accepted if and only if the ladder has a level below
   the anchor's and that level, raised like the entry and lowered by the buffer, rounds to less than the close.
   */
  lemma LongAcceptedIff(c: GridConfig, close: real)
    requires Spaced(c)
    ensures var below := RungBelow(c, close, 0);
      Accepted(c, close, Long) <==>
        below.Some? && Cents(Price(below.value + Lift(c, close)) - c.stopBuffer) as real < close * 100.0
  {
    hide BuildLadder, RungBelow, SideStopLoss, Cents;
    Neighbours(c, close);
    StopOfLong(c, AtAnchor(c, close).levels, Cents(close));
  }

  /**
   With a buffer that is not negative the short leg is accepted whenever the ladder has a level above the anchor's.
   */
  lemma ShortAcceptedIff(c: GridConfig, close: real)
    requires Spaced(c) && c.stopBuffer >= 0.0
    ensures Accepted(c, close, Short) <==> RungAbove(c, close, 0).Some?
  {
    hide BuildLadder, RungAbove, SideStopLoss, Cents;
    Neighbours(c, close);
    StopOfShort(c, AtAnchor(c, close).levels, Cents(close));
    RungAboveIsLeast(c, close, 0);
    if RungAbove(c, close, 0).Some? {
      AboveIsAccepted(close, RungAbove(c, close, 0).value, c.stopBuffer);
    }
  }

  lemma AboveIsAccepted(close: real, above: int, buffer: real)
    requires above > Cents(close) && buffer >= 0.0
    ensures Price(Cents(Price(above) + buffer)) > close
  {
    hide RoundHalfEven;
    RoundNear(close * 100.0);
    RoundMonotone(above as real, (Price(above) + buffer) * 100.0);
    RoundInteger(above);
  }

  // ---- What that means for the settings

  /** Three roundings separate the stop from its exact price, so a cent and a half decides. */
  lemma LongByACentAndAHalf(c: GridConfig, close: real)
    requires Spaced(c) && c.anchorGap > 0.01
    ensures c.offset < c.anchorGap + c.stopBuffer - 0.015 ==> Accepted(c, close, Long)
    ensures c.offset >= c.anchorGap + c.stopBuffer + 0.015 ==> !Accepted(c, close, Long)
  {
    hide RoundHalfEven, RungBelow, Accepted;
    LongAcceptedIff(c, close);
    WideGap(c, close);
    var below, level := Cents(close - c.anchorGap), Cents(close);
    RoundNear((close - c.anchorGap) * 100.0);
    RoundNear((Price(level) + c.offset) * 100.0);
    RoundNear((Price(below + Lift(c, close)) - c.stopBuffer) * 100.0);
  }

  /** With an offset that much below gap plus buffer neither leg of the pair is turned away, at any close. */
  lemma PairIsAccepted(c: GridConfig, close: real, side: Side)
    requires Spaced(c) && c.anchorGap > 0.01 && c.stopBuffer >= 0.0
    requires c.offset < c.anchorGap + c.stopBuffer - 0.015
    ensures Accepted(c, close, side)
  {
    hide RungAbove, RungBelow, Accepted;
    LongByACentAndAHalf(c, close);
    ShortAcceptedIff(c, close);
    WideGap(c, close);
  }

  /** An offset below gap plus buffer by less than that can be too much. */
  lemma AlmostTheGapIsTooMuch()
    ensures var c := GridConfig(1.0, 1.0, 0.999, 1.0, 1.0, 0.0, 1, 1, 100.0, 50.0, 200.0);
      c.offset < c.anchorGap + c.stopBuffer && !Accepted(c, 4100.0, Long)
  {
    hide Accepted, RungBelow;
    var c := GridConfig(1.0, 1.0, 0.999, 1.0, 1.0, 0.0, 1, 1, 100.0, 50.0, 200.0);
    LongAcceptedIff(c, 4100.0);
    WideGap(c, 4100.0);
    RoundInteger(409900);
    RoundInteger(410000);
  }

  ghost predicate WholeCents(c: GridConfig, gap: int, offset: int, buffer: int) {
    c.anchorGap == Price(gap) && c.offset == Price(offset) && c.stopBuffer == Price(buffer)
  }

  lemma SumOfPrices(a: int, b: int)
    ensures Price(a) + Price(b) == Price(a + b) && Cents(Price(a) + Price(b)) == a + b
    ensures Price(-(a + b)) == -Price(a + b) && Price(-b) == -Price(b)
  {
  }

  /**
   With settings of whole cents the long leg is accepted if and only if the offset is below gap plus buffer, or equal
   to it while the level below was rounded down.
   */
  lemma WholeCentLongAcceptedIff(c: GridConfig, gap: int, offset: int, buffer: int, close: real)
    requires Spaced(c) && gap > 1 && WholeCents(c, gap, offset, buffer)
    ensures Accepted(c, close, Long) <==>
      || offset < gap + buffer
      || (offset == gap + buffer && Cents(close - Price(gap)) as real < (close - Price(gap)) * 100.0)
  {
    hide RoundHalfEven, RungBelow, Accepted;
    LongAcceptedIff(c, close);
    WideGap(c, close);
    var below := Cents(close - Price(gap));
    SumOfPrices(Cents(close), offset);
    SumOfPrices(below + offset, -buffer);
    RoundNear((close - Price(gap)) * 100.0);
  }
}
