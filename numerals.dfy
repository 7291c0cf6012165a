/** Rendering natural numbers as digit strings (what `str(int)`, `strftime`'s
    zero-padded fields and `\uXXXX` escapes produce) and reading them back. */
module Numerals {
  import opened Wrappers

  const DIGITS := "0123456789abcdef"

  function Pow(base: nat, width: nat): (p: nat)
    ensures base >= 2 ==> p >= 1
  {
    if width == 0 then 1 else base * Pow(base, width - 1)
  }

  /** The lower-case digit for `d`. */
  function DigitChar(d: nat): (c: char)
    requires d < 16
    ensures DigitValue(c) == Some(d)
  {
    DIGITS[d]
  }

  /** The value of a digit character; upper-case hex digits are accepted too. */
  function DigitValue(c: char): (r: Option<nat>)
    ensures r.Some? ==> r.value < 16
  {
    if '0' <= c <= '9' then Some(c as int - '0' as int)
    else if 'a' <= c <= 'f' then Some(c as int - 'a' as int + 10)
    else if 'A' <= c <= 'F' then Some(c as int - 'A' as int + 10)
    else None
  }

  predicate IsDigitIn(c: char, base: nat) {
    DigitValue(c).Some? && DigitValue(c).value < base
  }

  /** `n` in `width` digits, zero-padded on the left (only the low `width` digits are kept). */
  function Fixed(n: nat, base: nat, width: nat): (s: string)
    requires 2 <= base <= 16
    ensures |s| == width
    ensures forall i :: 0 <= i < |s| ==> IsDigitIn(s[i], base)
  {
    if width == 0 then [] else Fixed(n / base, base, width - 1) + [DigitChar(n % base)]
  }

  /** The number a non-empty digit string denotes, if every character is a digit of `base`. */
  function ValueOf(s: string, base: nat): (r: Option<nat>)
  {
    if s == [] then None
    else
      var d := DigitValue(s[|s| - 1]);
      if d.None? || d.value >= base then None
      else if |s| == 1 then Some(d.value)
      else
        match ValueOf(s[..|s| - 1], base)
        case None => None
        case Some(high) => Some(high * base + d.value)
  }

  /** Reading back a zero-padded decimal or hexadecimal field gives the number. */
  lemma {:induction false} FixedRoundTrip(n: nat, base: nat, width: nat)
    requires base == 10 || base == 16
    requires 0 < width && n < Pow(base, width)
    ensures ValueOf(Fixed(n, base, width), base) == Some(n)
  {
    if width > 1 {
      DivBelow(n, base, Pow(base, width - 1));
      FixedRoundTrip(n / base, base, width - 1);
      FixedStep(n, base, width);
    } else {
      FixedSingle(n, base);
    }
  }

  lemma FixedStep(n: nat, base: nat, width: nat)
    requires base == 10 || base == 16
    requires width > 1
    requires ValueOf(Fixed(n / base, base, width - 1), base) == Some(n / base)
    ensures ValueOf(Fixed(n, base, width), base) == Some(n)
  {
    DivMod(n, base);
    var q, d := n / base, n % base;
    var high := Fixed(q, base, width - 1);
    assert Fixed(n, base, width) == high + [DigitChar(d)];
    ValueOfSnoc(high, DigitChar(d), base, q, d);
  }

  lemma FixedSingle(n: nat, base: nat)
    requires base == 10 || base == 16
    requires n < Pow(base, 1)
    ensures ValueOf(Fixed(n, base, 1), base) == Some(n)
  {
    assert Fixed(n, base, 1) == [] + [DigitChar(n % base)];
    SmallDigit(n, base);
  }

  lemma SmallDigit(n: nat, base: nat)
    requires base == 10 || base == 16
    requires n < base
    ensures n % base == n
  {
  }

  lemma ValueOfSnoc(high: string, c: char, base: nat, q: nat, d: nat)
    requires base == 10 || base == 16
    requires high != [] && ValueOf(high, base) == Some(q)
    requires DigitValue(c) == Some(d) && d < base
    ensures ValueOf(high + [c], base) == Some(q * base + d)
  {
    assert (high + [c])[..|high|] == high;
  }

  /** A decimal or hexadecimal digit string of length `w` denotes a number below `base^w`. */
  lemma {:induction false} ValueOfBelow(s: string, base: nat)
    requires base == 10 || base == 16
    requires ValueOf(s, base).Some?
    ensures ValueOf(s, base).value < Pow(base, |s|)
  {
    if |s| > 1 {
      var high := s[..|s| - 1];
      ValueOfBelow(high, base);
      var h, d := ValueOf(high, base).value, DigitValue(s[|s| - 1]).value;
      var p := Pow(base, |s| - 1);
      assert ValueOf(s, base).value == h * base + d;
      if base == 10 {
        assert h * 10 + d < p * 10;
      } else {
        assert h * 16 + d < p * 16;
      }
    }
  }

  lemma DivBelow(n: nat, base: nat, p: nat)
    requires base == 10 || base == 16
    requires n < base * p
    ensures n / base < p
  {
  }

  lemma DivMod(n: nat, base: nat)
    requires base == 10 || base == 16
    ensures n % base < base
    ensures (n / base) * base + n % base == n
  {
  }

  /** Python's `str(n)` for a natural number: the shortest decimal rendering. */
  function Decimal(n: nat): (s: string)
    ensures |s| >= 1
    ensures forall i :: 0 <= i < |s| ==> '0' <= s[i] <= '9'
    ensures |s| > 1 ==> s[0] != '0'
  {
    if n < 10 then [DIGITS[n]] else Decimal(n / 10) + [DIGITS[n % 10]]
  }

  lemma {:induction false} DecimalRoundTrip(n: nat)
    ensures ValueOf(Decimal(n), 10) == Some(n)
  {
    if n < 10 {
      assert Decimal(n) == [DigitChar(n)];
    } else {
      var high, c := Decimal(n / 10), DigitChar(n % 10);
      assert Decimal(n) == high + [c];
      DecimalRoundTrip(n / 10);
      ValueOfSnoc(high, c, 10, n / 10, n % 10);
      DivMod(n, 10);
    }
  }

  /** Python's `str(i)` for an integer of any sign. */
  function IntToString(i: int): (s: string)
    ensures |s| >= 1
  {
    if i < 0 then "-" + Decimal(-i) else Decimal(i)
  }

  /** Reads an optional minus sign followed by decimal digits. */
  function ParseInt(s: string): (r: Option<int>)
  {
    if |s| > 1 && s[0] == '-' then
      match ValueOf(s[1..], 10)
      case None => None
      case Some(n) => Some(0 - n)
    else
      match ValueOf(s, 10)
      case None => None
      case Some(n) => Some(n)
  }

  lemma IntToStringRoundTrip(i: int)
    ensures ParseInt(IntToString(i)) == Some(i)
  {
    if i < 0 {
      var n: nat := -i;
      assert IntToString(i) == "-" + Decimal(n);
      NegativeRoundTrip(n);
    } else {
      assert IntToString(i) == Decimal(i);
      DecimalRoundTrip(i);
      ParseDigits(Decimal(i));
    }
  }

  lemma NegativeRoundTrip(n: nat)
    requires n > 0
    ensures ParseInt("-" + Decimal(n)) == Some(0 - n)
  {
    DecimalRoundTrip(n);
    ParseMinus(Decimal(n));
  }

  lemma ParseMinus(t: string)
    requires t != []
    ensures ParseInt("-" + t) == if ValueOf(t, 10).Some? then Some(0 - ValueOf(t, 10).value) else None
  {
    assert ("-" + t)[1..] == t;
  }

  lemma ParseDigits(t: string)
    requires t != [] && t[0] != '-'
    ensures ParseInt(t) == ValueOf(t, 10)
  {
  }
}
