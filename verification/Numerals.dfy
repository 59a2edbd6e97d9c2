/** The text of integers and pointers, as `convert` and `convert_hex` print them (src/base/log_stream.cpp). */
module Numerals {
  import opened Prelude

  const DIGITS: string := "9876543210123456789"
  const ZERO: nat := 9
  const DIGITS_HEX: string := "0123456789ABCDEF"

  function Rev<T>(s: seq<T>): seq<T> {
    if s == [] then [] else Rev(s[1..]) + [s[0]]
  }

  lemma {:induction false} RevSnoc<T>(s: seq<T>, x: T)
    ensures Rev(s + [x]) == [x] + Rev(s)
  {
    if s != [] {
      assert (s + [x])[1..] == s[1..] + [x];
      RevSnoc(s[1..], x);
    }
  }

  lemma {:induction false} RevIndex<T>(s: seq<T>, k: nat)
    requires k < |s|
    ensures |Rev(s)| == |s| && Rev(s)[k] == s[|s| - 1 - k]
  {
    if |s| > 1 { RevIndex(s[1..], if k < |s| - 1 then k else 0); }
  }

  lemma {:induction false} RevLength<T>(s: seq<T>)
    ensures |Rev(s)| == |s|
  {
    if s != [] { RevLength(s[1..]); }
  }

  type Base = b: nat | b == 10 || b == 16 witness 10

  /** The digits of `n`, most significant first; 0 is one digit. */
  function Digits(base: Base, n: nat): string
  {
    (if n / base == 0 then "" else (Smaller(base, n); Digits(base, n / base))) + [DIGITS_HEX[n % base]]
  }

  lemma Smaller(base: Base, n: nat)
    requires n / base != 0
    ensures n / base < n
  {
    if base == 10 { assert n / 10 < n; } else { assert n / 16 < n; }
  }

  function Decimal(v: int): string {
    if v < 0 then "-" + Digits(10, -v) else Digits(10, v)
  }

  function PointerText(v: nat): string { "0x" + Digits(16, v) }

  // ----- reading it back -----

  function DigitValue(c: char): (d: int)
    ensures -1 <= d < 16
    ensures d >= 0 ==> DIGITS_HEX[d] == c
  {
    if '0' <= c <= '9' then (c - '0') as int
    else if 'A' <= c <= 'F' then (c - 'A') as int + 10
    else -1
  }

  predicate AreDigits(base: Base, s: string) {
    s != [] && forall i :: 0 <= i < |s| ==> 0 <= DigitValue(s[i]) < base
  }

  function ParseDigits(base: Base, s: string): (n: nat)
    requires s == [] || AreDigits(base, s)
  {
    if s == [] then 0 else base * ParseDigits(base, s[..|s| - 1]) + DigitValue(s[|s| - 1])
  }

  /** No leading zero, except in "0". */
  predicate NoLeadingZero(s: string) {
    |s| > 1 ==> s[0] != '0'
  }

  predicate Canonical(s: string) {
    if s != [] && s[0] == '-' then AreDigits(10, s[1..]) && NoLeadingZero(s[1..]) && s != "-0"
    else AreDigits(10, s) && NoLeadingZero(s)
  }

  function Parse(s: string): int
    requires Canonical(s)
  {
    if s[0] == '-' then 0 - ParseDigits(10, s[1..]) else ParseDigits(10, s)
  }

  lemma {:induction false} DigitsParse(base: Base, n: nat)
    ensures AreDigits(base, Digits(base, n)) && NoLeadingZero(Digits(base, n))
    ensures ParseDigits(base, Digits(base, n)) == n
    ensures Digits(base, n)[0] == '0' <==> n == 0
    decreases n
  {
    var s := Digits(base, n);
    var q, r := n / base, n % base;
    LastDigit(base, n);
    assert s[|s| - 1] == DIGITS_HEX[r];
    if q == 0 {
      assert s == [DIGITS_HEX[r]] && s[..|s| - 1] == [];
    } else {
      Smaller(base, n);
      DigitsParse(base, q);
      assert s[..|s| - 1] == Digits(base, q);
    }
  }

  lemma LastDigit(base: Base, n: nat)
    ensures 0 <= n % base < 16 && DigitValue(DIGITS_HEX[n % base]) == n % base
    ensures base * (n / base) + n % base == n
    ensures n / base == 0 ==> n == n % base
    ensures DIGITS_HEX[n % base] == '0' <==> n % base == 0
  {
    if base == 10 {
      assert 10 * (n / 10) + n % 10 == n;
    } else {
      assert 16 * (n / 16) + n % 16 == n;
    }
  }

  lemma {:induction false} ParsePositive(base: Base, s: string)
    requires AreDigits(base, s) && s[0] != '0'
    ensures ParseDigits(base, s) > 0
    decreases |s|
  {
    if |s| > 1 {
      ParsePositive(base, s[..|s| - 1]);
      assert base * ParseDigits(base, s[..|s| - 1]) > 0;
    } else {
      assert s[..0] == [] && base * ParseDigits(base, s[..0]) == 0;
    }
  }

  lemma DivModUnique(base: Base, q: nat, r: nat)
    requires r < base
    ensures (base * q + r) / base == q && (base * q + r) % base == r
  {
    if base == 10 {
      assert (10 * q + r) / 10 == q && (10 * q + r) % 10 == r;
    } else {
      assert (16 * q + r) / 16 == q && (16 * q + r) % 16 == r;
    }
  }

  lemma DigitsSnoc(base: Base, q: nat, d: nat)
    requires d < base
    ensures Digits(base, base * q + d) == (if q == 0 then "" else Digits(base, q)) + [DIGITS_HEX[d]]
  {
    DivModUnique(base, q, d);
  }

  lemma {:induction false} ParseDigitsBack(base: Base, s: string)
    requires AreDigits(base, s) && NoLeadingZero(s)
    ensures Digits(base, ParseDigits(base, s)) == s
    decreases |s|
  {
    hide Digits, DigitValue;
    var init, d := s[..|s| - 1], DigitValue(s[|s| - 1]);
    var q := ParseDigits(base, init);
    DigitsSnoc(base, q, d);
    assert s == init + [s[|s| - 1]];
    if |s| > 1 {
      assert s[0] != '0' && init[0] == s[0];
      ParsePositive(base, init);
      ParseDigitsBack(base, init);
    }
  }

  /** Printing gives canonical text, and reading it back gives the value. */
  lemma DecimalParses(v: int)
    ensures Canonical(Decimal(v)) && Parse(Decimal(v)) == v
  {
    DigitsParse(10, Abs(v));
    if v < 0 {
      assert Decimal(v)[1..] == Digits(10, -v);
    } else {
      assert Decimal(v)[0] != '-' by { assert DigitValue(Decimal(v)[0]) >= 0; }
    }
  }

  /** Only one canonical text reads as a value, so the printed one is it. */
  lemma CanonicalIsDecimal(s: string)
    requires Canonical(s)
    ensures Decimal(Parse(s)) == s
  {
    if s[0] == '-' {
      var t := s[1..];
      assert s == "-" + t;
      ParseDigitsBack(10, t);
      assert t[0] == '0' ==> t == "0";
      ParsePositive(10, t);
    } else {
      ParseDigitsBack(10, s);
    }
  }

  lemma PointerParses(v: nat)
    ensures PointerText(v)[..2] == "0x" && AreDigits(16, PointerText(v)[2..]) && NoLeadingZero(PointerText(v)[2..])
    ensures ParseDigits(16, PointerText(v)[2..]) == v
  {
    DigitsParse(16, v);
    assert PointerText(v)[2..] == Digits(16, v);
  }

  // ----- how long it can be -----

  function Pow(b: nat, e: nat): nat { if e == 0 then 1 else b * Pow(b, e - 1) }

  lemma {:induction false} DigitsLength(base: Base, n: nat, k: nat)
    requires 1 <= k && n < Pow(base, k)
    ensures 1 <= |Digits(base, n)| <= k
    decreases k
  {
    if n / base != 0 {
      Quotient(base, n, Pow(base, k - 1));
      DigitsLength(base, n / base, k - 1);
    }
  }

  lemma Quotient(base: Base, n: nat, p: nat)
    requires n < base * p
    ensures n / base < p
  {
    if base == 10 { assert n / 10 < p; } else { assert n / 16 < p; }
  }

  const INT64_MIN: int := -0x8000_0000_0000_0000
  const UINT64_MAX: int := 0xFFFF_FFFF_FFFF_FFFF

  lemma PowersOfTen()
    ensures Pow(10, 19) == 10_000_000_000_000_000_000 && Pow(10, 20) == 100_000_000_000_000_000_000
  {
    assert Pow(10, 5) == 100_000;
    assert Pow(10, 10) == 10_000_000_000;
    assert Pow(10, 15) == 1_000_000_000_000_000;
    assert Pow(10, 18) == 1_000_000_000_000_000_000;
  }

  lemma PowerOfSixteen()
    ensures Pow(16, 16) == UINT64_MAX + 1
  {
    assert Pow(16, 4) == 0x1_0000;
    assert Pow(16, 8) == 0x1_0000_0000;
    assert Pow(16, 12) == 0x1_0000_0000_0000;
  }

  /** No signed or unsigned 64-bit value takes more than 20 characters. */
  lemma DecimalLength(v: int)
    requires INT64_MIN <= v <= UINT64_MAX
    ensures 1 <= |Decimal(v)| <= 20
  {
    hide Digits, Pow;
    PowersOfTen();
    if v < 0 { DigitsLength(10, -v, 19); } else { DigitsLength(10, v, 20); }
  }

  lemma PointerLength(v: nat)
    requires v <= UINT64_MAX
    ensures 3 <= |PointerText(v)| <= 18
  {
    hide Digits, Pow;
    PowerOfSixteen();
    DigitsLength(16, v, 16);
  }
}
