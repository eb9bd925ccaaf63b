/** Java's 64-bit `long` arithmetic and the decimal conversions the engine
    uses: `Long.parseLong` behind `parseLongStrict`, and `String.valueOf(long)`
    that renders a result. */
module Numbers {
  import opened Faults
  import opened JavaText

  const MinLong: int := -0x8000_0000_0000_0000
  const MaxLong: int := 0x7FFF_FFFF_FFFF_FFFF
  const MaxInt: int := 0x7FFF_FFFF
  const TwoTo64: int := 0x1_0000_0000_0000_0000

  predicate InLong(x: int) { MinLong <= x <= MaxLong }

  /** Two's-complement wrap-around of a mathematical integer into a long. */
  function Wrap(x: int): (r: int)
    ensures InLong(r)
    ensures (x - r) % TwoTo64 == 0
    ensures InLong(x) ==> r == x
  {
    (x - MinLong) % TwoTo64 + MinLong
  }

  lemma WrapAdd(x: int, y: int)
    ensures Wrap(Wrap(x) + y) == Wrap(x + y)
  {
    var k := (x - Wrap(x)) / TwoTo64;
    assert x == Wrap(x) + k * TwoTo64;
    assert (Wrap(x) + y - MinLong) % TwoTo64 == (x + y - MinLong - k * TwoTo64) % TwoTo64;
    ModShift(x + y - MinLong, k);
  }

  lemma ModShift(a: int, k: int)
    ensures (a - k * TwoTo64) % TwoTo64 == a % TwoTo64
  {
  }

  /** Java's `/` on longs: the quotient truncated toward zero. */
  function TruncDiv(a: int, b: int): (q: int)
    requires b != 0
    ensures var rem := a - q * b;
      (rem == 0 || (rem < 0 <==> a < 0)) && (if rem < 0 then -rem else rem) < (if b < 0 then -b else b)
  {
    var m := if a < 0 then -a else a;
    var n := if b < 0 then -b else b;
    var q := m / n;
    if (a < 0) == (b < 0) then q else -q
  }

  /** The saturating narrowing of Java's `(long)` cast. */
  function Clamp(x: int): (r: int)
    ensures InLong(r)
    ensures InLong(x) ==> r == x
    ensures x < MinLong ==> r == MinLong
    ensures x > MaxLong ==> r == MaxLong
  {
    if x < MinLong then MinLong else if x > MaxLong then MaxLong else x
  }

  predicate AllDigits(s: string) {
    forall i :: 0 <= i < |s| ==> IsDigit(s[i])
  }

  /** The regular language `[-]?[0-9]+` that `parseLongStrict` demands. */
  predicate IsIntegerLiteral(s: string) {
    if s != [] && s[0] == '-' then |s| > 1 && AllDigits(s[1..])
    else s != [] && AllDigits(s)
  }

  function DigitValue(c: char): (d: nat)
    requires IsDigit(c)
    ensures d < 10
  {
    c as int - '0' as int
  }

  function DigitChar(d: nat): (c: char)
    requires d < 10
    ensures IsDigit(c) && DigitValue(c) == d
  {
    ('0' as int + d) as char
  }

  /** The value of a decimal digit run, most significant digit first. */
  function DigitsValue(s: string): (v: nat)
    requires AllDigits(s)
    decreases |s|
  {
    if s == [] then 0
    else
      DigitsValue(s[..|s| - 1]) * 10 + DigitValue(s[|s| - 1])
  }

  /** The value Long.parseLong gives a string of the form `[-]?[0-9]+`. */
  function LiteralValue(s: string): int
    requires IsIntegerLiteral(s)
  {
    if s[0] == '-' then -(DigitsValue(s[1..]) as int) else DigitsValue(s)
  }

  /** parseLongStrict: a NumberFormatException (here Illegal(NotAnInteger))
      for text outside `[-]?[0-9]+`, and likewise from Long.parseLong for a
      value outside the long range. */
  function ParseLongStrict(s: string): (r: Result<int>)
    ensures r.Ok? <==> IsIntegerLiteral(s) && InLong(LiteralValue(s))
    ensures r.Ok? ==> r.value == LiteralValue(s)
    ensures r.Err? ==> r.fault == Illegal(NotAnInteger)
  {
    if !IsIntegerLiteral(s) then Err(Illegal(NotAnInteger))
    else
      var v := LiteralValue(s);
      if InLong(v) then Ok(v) else Err(Illegal(NotAnInteger))
  }

  lemma ZeroLiteral()
    ensures ParseLongStrict("0") == Ok(0)
  {
    assert "0"[0] == '0' && "0"[..0] == [];
    assert DigitsValue("0") == 0;
  }

  /** The digits of a natural number, without leading zeros. */
  function Digits(n: nat): (s: string)
    ensures s != [] && AllDigits(s)
    ensures |s| > 1 ==> s[0] != '0'
    decreases n
  {
    if n < 10 then [DigitChar(n)]
    else
      Digits(n / 10) + [DigitChar(n % 10)]
  }

  /** String.valueOf(long): an optional minus sign, then the digits. */
  function Decimal(n: int): string
  {
    if n < 0 then "-" + Digits(-n) else Digits(n)
  }

  /** The text a formula leaves in its cell when it yields a number. */
  predicate IsCanonicalInteger(s: string) {
    IsIntegerLiteral(s) &&
    (s[0] == '-' ==> s[1] != '0') &&
    (|s| > 1 && s[0] != '-' ==> s[0] != '0')
  }

  lemma {:induction false} DigitsValueOfDigits(n: nat)
    ensures DigitsValue(Digits(n)) == n
    decreases n
  {
    if n >= 10 {
      DigitsValueOfDigits(n / 10);
      var s := Digits(n);
      assert s[..|s| - 1] == Digits(n / 10);
    }
  }

  /** Rendering a long and parsing it back gives the same long: a value a
      formula writes can be read by later references. */
  lemma DecimalRoundTrip(n: int)
    requires InLong(n)
    ensures IsCanonicalInteger(Decimal(n))
    ensures ParseLongStrict(Decimal(n)) == Ok(n)
  {
    DigitsValueOfDigits(if n < 0 then -n else n);
    if n < 0 {
      assert Decimal(n)[1..] == Digits(-n);
      if -n < 10 {
        assert Decimal(n)[1] != '0';
      }
    }
  }
}
