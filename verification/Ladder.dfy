/** The ladder of price levels around an anchor. */
module Ladder {
  import opened Market
  import opened Rounding

  /** Inserts into a strictly increasing sequence, dropping duplicates. */
  function InsertUnique(s: seq<int>, x: int): seq<int> {
    if s == [] then [x]
    else if x < s[0] then [x] + s
    else if x == s[0] then s
    else [s[0]] + InsertUnique(s[1..], x)
  }

  /** Python's `sorted(set(xs))`. */
  function SortUnique(xs: seq<int>): seq<int> {
    if xs == [] then [] else InsertUnique(SortUnique(xs[..|xs|-1]), xs[|xs|-1])
  }

  /** `n` rungs from `first`, each `step` further. */
  function Rungs(first: real, step: real, n: nat): seq<int> {
    if n == 0 then [] else Rungs(first, step, n - 1) + [Rung(first, step, n - 1)]
  }

  function Along(first: real, step: real, i: int): real {
    first + i as real * step
  }

  function Rung(first: real, step: real, i: nat): int {
    Cents(Along(first, step, i))
  }

  const RUNGS: nat := 100

  function BuildLadder(anchorGap: real, spacing: real, anchor: real): seq<int> {
    SortUnique([Cents(anchor)] + Rungs(anchor + anchorGap, spacing, RUNGS)
                               + Rungs(anchor - anchorGap, -spacing, RUNGS))
  }

  /** The rungs strictly above a price, nearest first. */
  function LevelsAbove(levels: seq<int>, price: real): seq<int> {
    if levels == [] then []
    else
      var rest := LevelsAbove(levels[..|levels|-1], price);
      var top := levels[|levels|-1];
      if Price(top) > price then rest + [top] else rest
  }

  /** The rungs strictly below a price, nearest first. */
  function LevelsBelow(levels: seq<int>, price: real): seq<int> {
    if levels == [] then []
    else
      var rest := LevelsBelow(levels[..|levels|-1], price);
      var top := levels[|levels|-1];
      if Price(top) < price then [top] + rest else rest
  }

  /** The position of a level on the ladder, or None. */
  function IndexOf(levels: seq<int>, level: int): (r: Option<nat>)
    ensures r.Some? ==> r.value < |levels| && levels[r.value] == level && level !in levels[..r.value]
    ensures r.None? ==> level !in levels
  {
    if levels == [] then None
    else if levels[0] == level then Some(0)
    else match IndexOf(levels[1..], level)
      case None => None
      case Some(i) => Some(i + 1)
  }

  function NextAbove(levels: seq<int>, level: int): Option<int> {
    match IndexOf(levels, level)
    case None => None
    case Some(i) => if i + 1 < |levels| then Some(levels[i + 1]) else None
  }

  function NextBelow(levels: seq<int>, level: int): Option<int> {
    match IndexOf(levels, level)
    case None => None
    case Some(i) => if 1 <= i then Some(levels[i - 1]) else None
  }

  function Dist(level: int, price: real): real {
    AbsReal(Price(level) - price)
  }

  /** Stable insertion by distance to the price. */
  function InsertByDist(s: seq<int>, x: int, price: real): seq<int> {
    if s == [] then [x]
    else if Dist(x, price) < Dist(s[0], price) then [x] + s
    else [s[0]] + InsertByDist(s[1..], x, price)
  }

  /** Python's stable `sorted(levels, key=distance to price)`. */
  function NearestFirst(levels: seq<int>, price: real): seq<int> {
    if levels == [] then []
    else InsertByDist(NearestFirst(levels[..|levels|-1], price), levels[|levels|-1], price)
  }

  // ---- What the sorting functions guarantee

  ghost predicate Increasing(s: seq<int>) {
    forall i, j :: 0 <= i < j < |s| ==> s[i] < s[j]
  }

  lemma {:induction false} InsertUniqueIsSorted(s: seq<int>, x: int)
    requires Increasing(s)
    ensures Increasing(InsertUnique(s, x))
    ensures forall y :: y in InsertUnique(s, x) <==> y == x || y in s
    ensures |InsertUnique(s, x)| == if x in s then |s| else |s| + 1
  {
    if s != [] {
      assert s == [s[0]] + s[1..];
      if x > s[0] {
        InsertUniqueIsSorted(s[1..], x);
        PrependIncreases(s[0], InsertUnique(s[1..], x));
      } else if x < s[0] {
        PrependIncreases(x, s);
      }
    }
  }

  lemma PrependIncreases(x: int, s: seq<int>)
    requires Increasing(s) && forall y :: y in s ==> x < y
    ensures Increasing([x] + s)
  {
    forall i, j | 0 <= i < j < |[x] + s| ensures ([x] + s)[i] < ([x] + s)[j] {
      assert ([x] + s)[j] == s[j - 1] && s[j - 1] in s;
      assert i > 0 ==> ([x] + s)[i] == s[i - 1];
    }
  }

  lemma {:induction false} SortUniqueIsSorted(xs: seq<int>)
    ensures Increasing(SortUnique(xs))
    ensures forall y :: y in SortUnique(xs) <==> y in xs
    ensures |SortUnique(xs)| <= |xs|
  {
    if xs != [] {
      var init, last := xs[..|xs|-1], xs[|xs|-1];
      SortUniqueIsSorted(init);
      InsertUniqueIsSorted(SortUnique(init), last);
      assert xs == init + [last];
    }
  }

  /** The ladder is strictly increasing, whatever the gap and the spacing. */
  lemma LadderIncreases(anchorGap: real, spacing: real, anchor: real)
    ensures Increasing(BuildLadder(anchorGap, spacing, anchor))
  {
    SortUniqueIsSorted([Cents(anchor)] + Rungs(anchor + anchorGap, spacing, RUNGS) + Rungs(anchor - anchorGap,
          -spacing, RUNGS));
  }

  ghost predicate SortedByDist(s: seq<int>, price: real) {
    forall i, j :: 0 <= i < j < |s| ==> Dist(s[i], price) <= Dist(s[j], price)
  }

  lemma {:induction false} InsertByDistIsSorted(s: seq<int>, x: int, price: real)
    requires SortedByDist(s, price)
    ensures SortedByDist(InsertByDist(s, x, price), price)
    ensures multiset(InsertByDist(s, x, price)) == multiset(s) + multiset{x}
  {
    if s != [] {
      assert s == [s[0]] + s[1..];
      if Dist(x, price) < Dist(s[0], price) {
        PrependSorted(x, s, price);
      } else {
        var r := InsertByDist(s[1..], x, price);
        InsertByDistIsSorted(s[1..], x, price);
        forall y | y in r ensures Dist(s[0], price) <= Dist(y, price) {
          assert y in multiset(r);
        }
        PrependSorted(s[0], r, price);
      }
    }
  }

  lemma PrependSorted(x: int, s: seq<int>, price: real)
    requires SortedByDist(s, price)
    requires s != [] ==> Dist(x, price) <= Dist(s[0], price)
    ensures SortedByDist([x] + s, price)
  {
  }

  /** The sort keeps every level and puts the nearest first. */
  lemma {:induction false} NearestFirstIsSorted(levels: seq<int>, price: real)
    ensures SortedByDist(NearestFirst(levels, price), price)
    ensures multiset(NearestFirst(levels, price)) == multiset(levels)
  {
    if levels != [] {
      var init, last := levels[..|levels|-1], levels[|levels|-1];
      NearestFirstIsSorted(init, price);
      InsertByDistIsSorted(NearestFirst(init, price), last, price);
      assert levels == init + [last];
    }
  }
}
