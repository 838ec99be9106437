/**
Decimal text of integers. `Decimal` is the reference: the canonical text, which `Parse` inverts in both
directions. `Emitted` is what the digit loop of the log stream produces: truncated division, remainders
looked up in a table mirrored around zero, least significant digit first. Read backwards it is the
reference.
*/
module DecimalText {

  // The C++ operators: division truncates towards zero, the remainder has the sign of the dividend.

  function TruncDiv10(n: int): int {
    if n >= 0 then n / 10 else -((-n) / 10)
  }

  function TruncMod10(n: int): int {
    n - 10 * TruncDiv10(n)
  }

  function Abs(n: int): nat {
    if n < 0 then -n else n
  }

  function DigitChar(d: nat): char
    requires d < 10
  {
    ('0' as int + d) as char
  }

  // ---------------------------------------------------------------------------
  // The reference
  // ---------------------------------------------------------------------------

  function Digits(n: nat): (s: string)
    ensures |s| > 0
  {
    if n < 10 then [DigitChar(n)] else Digits(n / 10) + [DigitChar(n % 10)]
  }

  function Decimal(n: int): string {
    if n < 0 then "-" + Digits(-n) else Digits(n)
  }

  predicate IsDigit(c: char) {
    '0' <= c <= '9'
  }

  function DigitValue(c: char): nat
    requires IsDigit(c)
  {
    c as int - '0' as int
  }

  predicate AllDigits(s: string) {
    forall i :: 0 <= i < |s| ==> IsDigit(s[i])
  }

  function ParseNat(s: string): nat
    requires AllDigits(s)
  {
    if s == [] then 0 else 10 * ParseNat(s[..|s| - 1]) + DigitValue(s[|s| - 1])
  }

  /** Text of a natural number without leading zeros. */
  predicate CanonicalNat(s: string) {
    s != [] && AllDigits(s) && (|s| > 1 ==> s[0] != '0')
  }

  /** Text of an integer without leading zeros, plus signs or a negative zero. */
  predicate Canonical(s: string) {
    if s != [] && s[0] == '-' then CanonicalNat(s[1..]) && s[1..] != "0" else CanonicalNat(s)
  }

  function Parse(s: string): int
    requires Canonical(s)
  {
    if s[0] == '-' then 0 - ParseNat(s[1..]) else ParseNat(s)
  }

  lemma {:induction false} DigitsRoundTrip(n: nat)
    ensures CanonicalNat(Digits(n)) && ParseNat(Digits(n)) == n
    ensures n > 0 ==> Digits(n)[0] != '0'
  {
    var s := Digits(n);
    if n < 10 {
      assert s[..|s| - 1] == [];
    } else {
      DigitsRoundTrip(n / 10);
      assert s[..|s| - 1] == Digits(n / 10);
    }
  }

  lemma {:induction false} ParseRoundTrip(s: string)
    requires CanonicalNat(s)
    ensures Digits(ParseNat(s)) == s
    ensures s != "0" ==> ParseNat(s) > 0
  {
    var t := s[..|s| - 1];
    var c := s[|s| - 1];
    assert s == t + [c];
    assert DigitChar(DigitValue(c)) == c;
    if t == [] {
      assert ParseNat(t) == 0;
    } else {
      assert t[0] == s[0];
      ParseRoundTrip(t);
      assert ParseNat(t) > 0;
      assert ParseNat(s) / 10 == ParseNat(t) && ParseNat(s) % 10 == DigitValue(c);
    }
  }

  /** Rendering then parsing gives the number back, and the text is canonical. */
  lemma DecimalRoundTrip(n: int)
    ensures Canonical(Decimal(n)) && Parse(Decimal(n)) == n
  {
    DigitsRoundTrip(Abs(n));
    if n < 0 {
      assert Decimal(n)[1..] == Digits(-n);
    }
  }

  /** Parsing then rendering gives the text back: there is no other canonical text of the number. */
  lemma CanonicalRoundTrip(s: string)
    requires Canonical(s)
    ensures Decimal(Parse(s)) == s
  {
    if s[0] == '-' {
      ParseRoundTrip(s[1..]);
      assert s == "-" + s[1..];
    } else {
      ParseRoundTrip(s);
    }
  }

  // ---------------------------------------------------------------------------
  // What the digit loop produces
  // ---------------------------------------------------------------------------

  /** The digits of 9..0..9; the remainder r is looked up at 9 + r. */
  const MIRROR: string := "9876543210123456789"

  lemma TruncBounds(n: int)
    ensures -9 <= TruncMod10(n) <= 9 && Abs(TruncMod10(n)) == Abs(n) % 10
    ensures Abs(TruncDiv10(n)) == Abs(n) / 10
  {
  }

  lemma MirrorLookup(r: int)
    requires -9 <= r <= 9
    ensures |MIRROR| == 19 && MIRROR[9 + r] == DigitChar(Abs(r))
  {
  }

  /** The characters the digit loop writes, in the order it writes them. */
  function Emitted(table: string, n: int): (s: string)
    requires |table| == 19
    ensures |s| > 0
    decreases Abs(n)
  {
    TruncBounds(n);
    [table[9 + TruncMod10(n)]] + if TruncDiv10(n) == 0 then [] else Emitted(table, TruncDiv10(n))
  }

  /** One turn of the digit loop. */
  lemma EmittedStep(table: string, n: int)
    requires |table| == 19
    ensures -9 <= TruncMod10(n) <= 9 && Emitted(table, n)[0] == table[9 + TruncMod10(n)]
    ensures TruncDiv10(n) == 0 ==> |Emitted(table, n)| == 1
    ensures TruncDiv10(n) != 0 ==>
      Emitted(table, n)[1..] == Emitted(table, TruncDiv10(n)) && Abs(TruncDiv10(n)) < Abs(n)
  {
  }

  function Reversed(s: string): (r: string)
    ensures |r| == |s| && forall i :: 0 <= i < |s| ==> r[i] == s[|s| - 1 - i]
  {
    seq(|s|, i requires 0 <= i < |s| => s[|s| - 1 - i])
  }

  lemma {:induction false} EmittedIsDigits(n: int)
    ensures Reversed(Emitted(MIRROR, n)) == Digits(Abs(n))
    decreases Abs(n)
  {
    TruncBounds(n);
    MirrorLookup(TruncMod10(n));
    EmittedStep(MIRROR, n);
    var e := Emitted(MIRROR, n);
    if TruncDiv10(n) != 0 {
      EmittedIsDigits(TruncDiv10(n));
      assert Reversed(e) == Reversed(e[1..]) + [e[0]];
    } else {
      assert Reversed(e) == e;
    }
  }

  /** The loop's digits, a minus sign for negatives, all reversed: the canonical text. */
  lemma EmittedIsDecimal(n: int)
    ensures Reversed(Emitted(MIRROR, n) + if n < 0 then "-" else "") == Decimal(n)
  {
    EmittedIsDigits(n);
    var e := Emitted(MIRROR, n);
    assert Reversed(e + "-") == "-" + Reversed(e);
    assert e + "" == e;
  }

  function Pow10(k: nat): nat {
    if k == 0 then 1 else 10 * Pow10(k - 1)
  }

  lemma {:induction false} DigitsLength(n: nat, k: nat)
    requires k > 0 && n < Pow10(k)
    ensures |Digits(n)| <= k
    decreases k
  {
    if n >= 10 {
      DigitsLength(n / 10, k - 1);
    }
  }

  /** The integers of the signed and unsigned 64-bit types. */
  predicate Fits64(n: int) {
    -0x8000_0000_0000_0000 <= n < 0x1_0000_0000_0000_0000
  }

  /** Every 64-bit value needs at most 20 characters, sign included. */
  lemma Length64(n: int)
    requires Fits64(n)
    ensures |Decimal(n)| <= 20
  {
    assert Pow10(1) == 10 && Pow10(2) == 100 && Pow10(3) == 1000 && Pow10(4) == 10000;
    assert Pow10(8) == 10000 * Pow10(4);
    assert Pow10(12) == 10000 * Pow10(8);
    assert Pow10(16) == 10000 * Pow10(12);
    assert Pow10(19) == 1000 * Pow10(16) && Pow10(20) == 10 * Pow10(19);
    DigitsLength(Abs(n), if n < 0 then 19 else 20);
  }
}
