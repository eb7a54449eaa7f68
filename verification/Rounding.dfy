/** Python's `round`: to the nearest multiple of a unit, ties to the even one. */
module Rounding {

  function RoundHalfEven(x: real): int {
    var below := x.Floor;
    var rest := x - below as real;
    if rest < 0.5 || (rest == 0.5 && below % 2 == 0) then below else below + 1
  }

  /** `round(x, 2)` as a number of cents. */
  function Cents(x: real): int {
    RoundHalfEven(x * 100.0)
  }

  /** The price a number of cents stands for. */
  function Price(cents: int): real {
    cents as real / 100.0
  }

  function Round1(x: real): real {
    RoundHalfEven(x * 10.0) as real / 10.0
  }

  function Round2(x: real): real {
    Price(Cents(x))
  }

  function Round5(x: real): real {
    RoundHalfEven(x * 100000.0) as real / 100000.0
  }

  lemma RoundNear(x: real)
    ensures x - 0.5 <= RoundHalfEven(x) as real <= x + 0.5
  {
  }

  lemma RoundMonotone(x: real, y: real)
    requires x <= y
    ensures RoundHalfEven(x) <= RoundHalfEven(y)
  {
  }

  lemma RoundInteger(n: int)
    ensures RoundHalfEven(n as real) == n
  {
  }

  /** Rounding an amount that is already in cents changes nothing. */
  lemma CentsOfPrice(c: int)
    ensures Cents(Price(c)) == c
  {
  }

  lemma Round5Near(x: real)
    ensures x - 0.000005 <= Round5(x) <= x + 0.000005
  {
  }

  lemma Round5Fixed(x: real)
    ensures Round5(Round5(x)) == Round5(x)
  {
  }

  lemma Round2Near(x: real)
    ensures x - 0.005 <= Round2(x) <= x + 0.005
  {
  }

  lemma Round2Fixed(x: real)
    ensures Round2(Round2(x)) == Round2(x)
  {
  }
}
