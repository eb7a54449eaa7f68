/** The shape of the ladder: 201 levels, the anchor in the middle, and the gaps between them. */
module LadderShape {
  import opened Market
  import opened Rounding
  import opened Ladder

  /** Shifting by more than one unit before rounding shifts the result. */
  lemma RoundStrict(x: real, d: real)
    requires d > 1.0
    ensures RoundHalfEven(x) < RoundHalfEven(x + d)
  {
  }

  /** Rounding commutes with adding whole units exactly when the number is no tie or the shift is even. */
  lemma RoundShiftIff(x: real, n: int)
    ensures RoundHalfEven(x + n as real) == RoundHalfEven(x) + n <==> x - x.Floor as real != 0.5 || n % 2 == 0
  {
  }

  // ---- Sorted sequences are determined by their elements

  lemma HasElement(s: seq<int>) returns (x: int)
    requires s != []
    ensures x in s
  {
    x := s[0];
  }

  lemma {:induction false} IncreasingUnique(s: seq<int>, t: seq<int>)
    requires Increasing(s) && Increasing(t)
    requires forall x :: x in s <==> x in t
    ensures s == t
  {
    if s == [] {
      if t != [] {
        var _ := HasElement(t);
      }
    } else {
      assert s[|s|-1] in s;
      assert t != [];
      var a, b := s[|s|-1], t[|t|-1];
      assert b in s;
      var s1, t1 := s[..|s|-1], t[..|t|-1];
      assert s == s1 + [a] && t == t1 + [b];
      assert a == b;
      forall x ensures x in s1 <==> x in t1 {
        assert x in s1 ==> x in s && x != a;
        assert x in t1 ==> x in t && x != b;
      }
      IncreasingUnique(s1, t1);
    }
  }

  lemma {:induction false} RungAt(first: real, step: real, n: nat, i: nat)
    requires i < n
    ensures |Rungs(first, step, n)| == n && Rungs(first, step, n)[i] == Rung(first, step, i)
  {
    hide Rung;
    RungCount(first, step, n - 1);
    RungCount(first, step, n);
    if i < n - 1 {
      RungAt(first, step, n - 1, i);
    }
  }

  lemma {:induction false} RungCount(first: real, step: real, n: nat)
    ensures |Rungs(first, step, n)| == n
  {
    if n > 0 {
      RungCount(first, step, n - 1);
    }
  }

  // ---- The levels by their place

  /** The exact price of the i-th level from the anchor, upwards for positive i. */
  function Nominal(gap: real, spacing: real, anchor: real, i: int): real {
    if i == 0 then anchor
    else if i > 0 then Along(anchor + gap, spacing, i - 1)
    else Along(anchor - gap, -spacing, -i - 1)
  }

  function LevelAt(gap: real, spacing: real, anchor: real, i: int): int {
    Cents(Nominal(gap, spacing, anchor, i))
  }

  /** The gap between the i-th level and the next one up. */
  function GapAbove(gap: real, spacing: real, i: int): real {
    if i == 0 || i == -1 then gap else spacing
  }

  lemma NominalGap(gap: real, spacing: real, anchor: real, i: int)
    ensures Nominal(gap, spacing, anchor, i + 1) == Nominal(gap, spacing, anchor, i) + GapAbove(gap, spacing, i)
  {
  }

  lemma {:induction false} LevelsRise(gap: real, spacing: real, anchor: real, i: int, j: int)
    requires gap > 0.01 && spacing > 0.01 && i < j
    ensures LevelAt(gap, spacing, anchor, i) < LevelAt(gap, spacing, anchor, j)
    decreases j - i
  {
    NominalGap(gap, spacing, anchor, j - 1);
    var x, d := Nominal(gap, spacing, anchor, j - 1), GapAbove(gap, spacing, j - 1);
    assert (x + d) * 100.0 == x * 100.0 + d * 100.0;
    RoundStrict(x * 100.0, d * 100.0);
    if i < j - 1 {
      LevelsRise(gap, spacing, anchor, i, j - 1);
    }
  }

  function Straight(gap: real, spacing: real, anchor: real): seq<int> {
    seq(2 * RUNGS + 1, i requires 0 <= i < 2 * RUNGS + 1 => LevelAt(gap, spacing, anchor, i - RUNGS))
  }

  function Unsorted(gap: real, spacing: real, anchor: real): seq<int> {
    [Cents(anchor)] + Rungs(anchor + gap, spacing, RUNGS) + Rungs(anchor - gap, -spacing, RUNGS)
  }

  /** Where the level with offset `i` stands before sorting. */
  function Place(i: int): int {
    if i >= 0 then i else RUNGS - i
  }

  lemma UnsortedAt(gap: real, spacing: real, anchor: real, i: int)
    requires 0 <= i + RUNGS <= 2 * RUNGS
    ensures var all := Unsorted(gap, spacing, anchor);
      |all| == 2 * RUNGS + 1 && all[Place(i)] == LevelAt(gap, spacing, anchor, i)
  {
    hide Rungs, Along;
    RungCount(anchor + gap, spacing, RUNGS);
    RungCount(anchor - gap, -spacing, RUNGS);
    if i > 0 {
      RungAt(anchor + gap, spacing, RUNGS, i - 1);
    } else if i < 0 {
      RungAt(anchor - gap, -spacing, RUNGS, -i - 1);
    }
  }

  lemma SameLevels(gap: real, spacing: real, anchor: real, x: int)
    ensures x in Unsorted(gap, spacing, anchor) <==> x in Straight(gap, spacing, anchor)
  {
    var all, s := Unsorted(gap, spacing, anchor), Straight(gap, spacing, anchor);
    UnsortedAt(gap, spacing, anchor, 0);
    if x in all {
      var p :| 0 <= p < |all| && all[p] == x;
      var i := if p <= RUNGS then p else RUNGS - p;
      UnsortedAt(gap, spacing, anchor, i);
      assert s[i + RUNGS] == x;
    }
    if x in s {
      var p :| 0 <= p < |s| && s[p] == x;
      UnsortedAt(gap, spacing, anchor, p - RUNGS);
      assert all[Place(p - RUNGS)] == x;
    }
  }

  /** At every setting the ladder holds these levels and no others, in increasing order. */
  lemma LadderLevels(gap: real, spacing: real, anchor: real)
    ensures var levels := BuildLadder(gap, spacing, anchor);
      Increasing(levels) && forall x :: x in levels <==> x in Straight(gap, spacing, anchor)
  {
    hide Rungs, LevelAt;
    SortUniqueIsSorted(Unsorted(gap, spacing, anchor));
    forall x ensures x in Unsorted(gap, spacing, anchor) <==> x in Straight(gap, spacing, anchor) {
      SameLevels(gap, spacing, anchor, x);
    }
  }

  /**
   The ladder is the 201 levels from the lowest to the highest, with the anchor in the middle, if and only if no two of
   them round to the same cent or out of order; above one cent none do.
   */
  lemma LadderIsStraightIff(gap: real, spacing: real, anchor: real)
    ensures BuildLadder(gap, spacing, anchor) == Straight(gap, spacing, anchor)
      <==> Increasing(Straight(gap, spacing, anchor))
    ensures gap > 0.01 && spacing > 0.01 ==> Increasing(Straight(gap, spacing, anchor))
  {
    hide BuildLadder, LevelAt;
    LadderLevels(gap, spacing, anchor);
    var s := Straight(gap, spacing, anchor);
    if Increasing(s) {
      IncreasingUnique(BuildLadder(gap, spacing, anchor), s);
    }
    if gap > 0.01 && spacing > 0.01 {
      forall i, j | 0 <= i < j < |s| ensures s[i] < s[j] {
        LevelsRise(gap, spacing, anchor, i - RUNGS, j - RUNGS);
      }
    }
  }

  /**
   At every setting the levels are the gap apart next to the anchor and the spacing apart elsewhere, to within a cent
   of rounding, and the middle one is the anchor.
   */
  lemma GapsAreNominal(gap: real, spacing: real, anchor: real, i: int)
    ensures LevelAt(gap, spacing, anchor, 0) == Cents(anchor)
    ensures var here, next := LevelAt(gap, spacing, anchor, i), LevelAt(gap, spacing, anchor, i + 1);
      AbsReal(Price(next - here) - GapAbove(gap, spacing, i)) <= 0.01
  {
    assert Nominal(gap, spacing, anchor, 0) == anchor;
    hide Nominal, RoundHalfEven;
    NominalGap(gap, spacing, anchor, i);
    RoundNear(Nominal(gap, spacing, anchor, i) * 100.0);
    RoundNear(Nominal(gap, spacing, anchor, i + 1) * 100.0);
  }

  predicate HalfCent(price: real) {
    price * 100.0 - (price * 100.0).Floor as real == 0.5
  }

  /** The cents between the anchor and its i-th level, before rounding. */
  function Offset(gap: int, spacing: int, i: int): int {
    if i == 0 then 0 else if i > 0 then gap + (i - 1) * spacing else -gap + (i + 1) * spacing
  }

  lemma NominalOffset(gap: int, spacing: int, anchor: real, i: int)
    ensures Nominal(Price(gap), Price(spacing), anchor, i) == anchor + Price(Offset(gap, spacing, i))
  {
    if i > 0 {
      TimesPrice(i - 1, spacing);
    } else if i < 0 {
      TimesPrice(-i - 1, spacing);
      TimesNegative((-i - 1) as real, Price(spacing));
      assert (i + 1) * spacing == -((-i - 1) * spacing);
    }
  }

  lemma TimesPrice(m: int, cents: int)
    ensures m as real * Price(cents) == Price(m * cents)
  {
  }

  lemma TimesNegative(x: real, y: real)
    ensures x * -y == -(x * y)
  {
  }

  /** Every level of whole-cent steps is a half cent exactly if the anchor is one. */
  lemma HalfCentsStay(anchor: real, n: int)
    ensures HalfCent(anchor + Price(n)) <==> HalfCent(anchor)
  {
    assert (anchor + Price(n)) * 100.0 == anchor * 100.0 + n as real;
    assert (anchor * 100.0 + n as real).Floor == (anchor * 100.0).Floor + n;
  }

  /**
   With a gap and a spacing of whole cents, the distance between neighbouring levels is exact if and only if the
   anchor is no half cent or that distance is an even number of cents.
   */
  lemma GapsAreExactIff(gap: int, spacing: int, anchor: real, i: int)
    ensures var wanted := if i == -1 || i == 0 then gap else spacing;
      var here, next := LevelAt(Price(gap), Price(spacing), anchor, i),
        LevelAt(Price(gap), Price(spacing), anchor, i + 1);
      next - here == wanted <==> !HalfCent(anchor) || wanted % 2 == 0
  {
    hide Nominal, Offset, RoundHalfEven;
    var wanted := if i == -1 || i == 0 then gap else spacing;
    var here := Nominal(Price(gap), Price(spacing), anchor, i);
    NominalGap(Price(gap), Price(spacing), anchor, i);
    NominalOffset(gap, spacing, anchor, i);
    HalfCentsStay(anchor, Offset(gap, spacing, i));
    assert (here + Price(wanted)) * 100.0 == here * 100.0 + wanted as real;
    RoundShiftIff(here * 100.0, wanted);
  }
}
