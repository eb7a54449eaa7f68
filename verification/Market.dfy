/** The vocabulary shared by the strategy, the broker, the runner and the live engine. */
module Market {

  datatype Option<+T> = None | Some(value: T)

  /** The side of a grid leg: "long" is the buy, "short" the sell. */
  datatype Side = Long | Short

  datatype OrderSide = Buy | Sell

  datatype OrderType = Market | Limit | Stop

  /** A grid key, printed as "<level>_<side>"; the level is a price in whole cents. */
  datatype Key = Key(level: int, side: Side)

  /** One price bar. The date is the calendar day of its timestamp. */
  datatype Bar = Bar(date: string, open: real, high: real, low: real, close: real)

  /** What a grid strategy asks for: one entry, or the liquidation of everything. */
  datatype Signal =
    | Entry(key: Key, units: real, orderType: OrderType, limitPrice: real, stopLoss: real)
    | CloseAll(reason: string)

  function OrderSideOf(side: Side): OrderSide {
    if side == Long then Buy else Sell
  }

  function Opposite(side: OrderSide): OrderSide {
    if side == Buy then Sell else Buy
  }

  function AbsReal(x: real): real {
    if x < 0.0 then -x else x
  }

  /** A Python prefix slice `s[:n]`. */
  function Take<T>(s: seq<T>, n: nat): seq<T> {
    if |s| <= n then s else s[..n]
  }

  /** A Python suffix slice `s[n:]`. */
  function Drop<T>(s: seq<T>, n: nat): seq<T> {
    if |s| <= n then [] else s[n..]
  }

  /** Python's `list.remove`: the first element equal to `x` goes. */
  function RemoveFirst<T(==)>(s: seq<T>, x: T): seq<T> {
    if s == [] then [] else if s[0] == x then s[1..] else [s[0]] + RemoveFirst(s[1..], x)
  }

  function Sum(s: seq<real>): real {
    if s == [] then 0.0 else Sum(s[..|s|-1]) + s[|s|-1]
  }

  lemma SumAppend(s: seq<real>, x: real)
    ensures Sum(s + [x]) == Sum(s) + x
  {
  }

  function Elements<T>(s: seq<T>): set<T> {
    set x | x in s
  }

  ghost predicate NoRepeats<T>(s: seq<T>) {
    forall i, j :: 0 <= i < j < |s| ==> s[i] != s[j]
  }

  lemma LastIsNew<T>(s: seq<T>)
    requires NoRepeats(s) && s != []
    ensures NoRepeats(s[..|s|-1]) && s[|s|-1] !in Elements(s[..|s|-1])
    ensures Elements(s) == Elements(s[..|s|-1]) + {s[|s|-1]}
  {
  }

  ghost predicate Injective<K, V>(m: map<K, V>) {
    forall k1, k2 :: k1 in m && k2 in m && m[k1] == m[k2] ==> k1 == k2
  }
}
