/** The text of a grid key, "<level with two decimals>_<side>", and back. */
module GridKeys {
  import opened Market

  function SideText(side: Side): string {
    if side == Long then "long" else "short"
  }

  function DigitChar(d: nat): char
    requires d < 10
  {
    ['0', '1', '2', '3', '4', '5', '6', '7', '8', '9'][d]
  }

  /** The decimal digits of a number, without leading zeros. */
  function Digits(n: nat): string {
    if n < 10 then [DigitChar(n)] else Digits(n / 10) + [DigitChar(n % 10)]
  }

  function Magnitude(cents: int): nat {
    if cents < 0 then -cents else cents
  }

  /** A price of whole cents with two decimals. */
  function LevelText(cents: int): string {
    var n := Magnitude(cents);
    (if cents < 0 then "-" else "") + Digits(n / 100) + "." + [DigitChar(n % 100 / 10), DigitChar(n % 10)]
  }

  function KeyText(k: Key): string {
    LevelText(k.level) + "_" + SideText(k.side)
  }

  // ---- Reading back

  function DigitValue(c: char): Option<nat> {
    if '0' <= c <= '9' then Some(c as int - '0' as int) else None
  }

  function ReadDigits(s: string): Option<nat> {
    if s == [] then None
    else
      match DigitValue(s[|s|-1])
      case None => None
      case Some(d) =>
        if |s| == 1 then Some(d)
        else match ReadDigits(s[..|s|-1])
          case None => None
          case Some(n) => Some(10 * n + d)
  }

  /** An unsigned price with exactly two decimals, in cents. */
  function ReadUnsigned(s: string): Option<nat> {
    if |s| < 4 || s[|s| - 3] != '.' then None
    else
      match (ReadDigits(s[..|s| - 3]), ReadDigits(s[|s| - 2..]))
      case (Some(whole), Some(cents)) => Some(100 * whole + cents)
      case _ => None
  }

  function ReadLevel(s: string): Option<int> {
    if s != [] && s[0] == '-' then
      match ReadUnsigned(s[1..])
      case None => None
      case Some(n) =>
        Some(-(n as int))
    else
      match ReadUnsigned(s)
      case None => None
      case Some(n) => Some(n)
  }

  /** The position of the last underscore. */
  function LastUnderscore(s: string): (r: Option<nat>)
    ensures r.Some? ==> r.value < |s| && s[r.value] == '_' && '_' !in s[r.value + 1..]
    ensures r.None? ==> '_' !in s
  {
    if s == [] then None
    else if s[|s|-1] == '_' then Some(|s| - 1)
    else LastUnderscore(s[..|s|-1])
  }

  /** Splits at the last underscore; a wrong side or level reads as None. */
  function ReadKey(s: string): Option<Key> {
    match LastUnderscore(s)
    case None => None
    case Some(i) =>
      var side := s[i + 1..];
      if side != "long" && side != "short" then None
      else
        match ReadLevel(s[..i])
        case None => None
        case Some(level) => Some(Key(level, if side == "long" then Long else Short))
  }

  // ---- The round trip

  lemma ReadOneDigit(d: nat)
    requires d < 10
    ensures DigitValue(DigitChar(d)) == Some(d) && DigitChar(d) != '_' && DigitChar(d) != '-'
  {
  }

  lemma {:induction false} ReadDigitsOfDigits(n: nat)
    ensures Digits(n) != [] && ReadDigits(Digits(n)) == Some(n)
    ensures '_' !in Digits(n) && '-' !in Digits(n)
  {
    ReadOneDigit(n % 10);
    if n >= 10 {
      ReadDigitsOfDigits(n / 10);
      var s := Digits(n);
      assert s[..|s|-1] == Digits(n / 10) && s[|s|-1] == DigitChar(n % 10);
    }
  }

  lemma ReadTwoDigits(a: nat, b: nat)
    requires a < 10 && b < 10
    ensures ReadDigits([DigitChar(a), DigitChar(b)]) == Some(10 * a + b)
  {
    ReadOneDigit(a);
    ReadOneDigit(b);
    var s := [DigitChar(a), DigitChar(b)];
    assert s[..1] == [DigitChar(a)];
    assert ReadDigits([DigitChar(a)]) == Some(a);
  }

  lemma ReadUnsignedParts(whole: string, tail: string, a: nat, b: nat)
    requires ReadDigits(whole) == Some(a) && ReadDigits(tail) == Some(b) && |whole| >= 1 && |tail| == 2
    ensures ReadUnsigned(whole + "." + tail) == Some(100 * a + b)
  {
    hide ReadDigits;
    var s := whole + "." + tail;
    assert s[..|s| - 3] == whole && s[|s| - 2..] == tail;
  }

  lemma TwoDecimals(n: nat)
    ensures n == 100 * (n / 100) + 10 * (n % 100 / 10) + n % 10
  {
  }

  lemma ReadPieces(whole: nat, a: nat, b: nat)
    requires a < 10 && b < 10
    ensures var s := Digits(whole) + "." + [DigitChar(a), DigitChar(b)];
      ReadUnsigned(s) == Some(100 * whole + (10 * a + b)) && '_' !in s && '-' !in s
  {
    ReadDigitsOfDigits(whole);
    ReadOneDigit(a);
    ReadOneDigit(b);
    ReadTwoDigits(a, b);
    hide Digits, DigitChar, ReadDigits, ReadUnsigned;
    ReadUnsignedParts(Digits(whole), [DigitChar(a), DigitChar(b)], whole, 10 * a + b);
  }

  lemma ReadUnsignedText(n: nat)
    ensures var s := Digits(n / 100) + "." + [DigitChar(n % 100 / 10), DigitChar(n % 10)];
      ReadUnsigned(s) == Some(n) && '_' !in s && '-' !in s
  {
    ReadPieces(n / 100, n % 100 / 10, n % 10);
    TwoDecimals(n);
    hide Digits, DigitChar, ReadUnsigned;
  }

  lemma ReadLevelText(cents: int)
    ensures ReadLevel(LevelText(cents)) == Some(cents) && '_' !in LevelText(cents)
  {
    var n := Magnitude(cents);
    ReadUnsignedText(n);
    var body := Digits(n / 100) + "." + [DigitChar(n % 100 / 10), DigitChar(n % 10)];
    if cents < 0 {
      assert LevelText(cents) == "-" + body;
      assert ("-" + body)[1..] == body;
    } else {
      assert LevelText(cents) == body;
      assert body[0] in body;
    }
  }

  lemma {:induction false} LastUnderscoreAt(s: string, t: string)
    requires '_' !in t
    ensures LastUnderscore(s + "_" + t) == Some(|s|)
  {
    var whole := s + "_" + t;
    if t == [] {
      assert whole == s + "_";
    } else {
      assert whole[..|whole|-1] == s + "_" + t[..|t|-1];
      assert whole[|whole|-1] == t[|t|-1];
      LastUnderscoreAt(s, t[..|t|-1]);
    }
  }

  /** Main result: every grid key, negative levels included, is read back from its text. */
  lemma KeyRoundTrip(k: Key)
    ensures ReadKey(KeyText(k)) == Some(k)
  {
    var level, side := LevelText(k.level), SideText(k.side);
    ReadLevelText(k.level);
    LastUnderscoreAt(level, side);
    assert KeyText(k)[..|level|] == level && KeyText(k)[|level| + 1..] == side;
  }

  /** Distinct keys have distinct texts, so maps keyed by text are maps keyed by level and side. */
  lemma KeyTextIsInjective(k1: Key, k2: Key)
    ensures KeyText(k1) == KeyText(k2) <==> k1 == k2
  {
    KeyRoundTrip(k1);
    KeyRoundTrip(k2);
  }
}
