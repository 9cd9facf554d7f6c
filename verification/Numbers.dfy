/** 128-bit two's-complement numbers as two 64-bit words, width checks, and decimal bounds. */
module Numbers {
  import opened Options

  const TWO63: int := 0x8000_0000_0000_0000
  const TWO64: int := 0x1_0000_0000_0000_0000
  const TWO127: int := 0x8000_0000_0000_0000_0000_0000_0000_0000
  const TWO128: int := 0x1_0000_0000_0000_0000_0000_0000_0000_0000

  type Word = x: int | 0 <= x < TWO64

  /** The number that two words mean, unsigned and signed. */
  function Unsigned(low: Word, high: Word): int {
    high * TWO64 + low
  }

  function Signed(low: Word, high: Word): int {
    if high >= TWO63 then Unsigned(low, high) - TWO128 else Unsigned(low, high)
  }

  predicate Width(bits: nat) {
    bits == 8 || bits == 16 || bits == 32 || bits == 64
  }

  /** 2 to the power bits - 1. */
  function Half(bits: nat): int
    requires Width(bits) || bits == 128
  {
    if bits == 8 then 0x80
    else if bits == 16 then 0x8000
    else if bits == 32 then 0x8000_0000
    else if bits == 64 then TWO63
    else TWO127
  }

  // -------------------------------------------------------------------------------------------
  // Reading a scalar in

  /** The low word reinterpreted as a signed 64-bit number. */
  function AsInt64(low: Word): int {
    if low >= TWO63 then low - TWO64 else low
  }

  /** The high word must be the sign extension of the low word. */
  function SignedNumber(low: Word, high: Word): Option<int> {
    var number := AsInt64(low);
    if high != (if number < 0 then TWO64 - 1 else 0) then None else Some(number)
  }

  function CheckSigned(bits: nat, low: Word, high: Word): Option<int>
    requires Width(bits)
  {
    match SignedNumber(low, high)
    case None => None
    case Some(number) => if bits < 64 && (number < -Half(bits) || number >= Half(bits)) then None else Some(number)
  }

  function CheckUnsigned(bits: nat, low: Word, high: Word): Option<int>
    requires Width(bits)
  {
    if high != 0 || (bits < 64 && low >= 2 * Half(bits)) then None else Some(low)
  }

  // -------------------------------------------------------------------------------------------
  // Writing a scalar out

  function LowWord(number: int): Word {
    number % TWO64
  }

  /** Sign extension of a number of at most 64 bits. */
  function HighWord(number: int): Word {
    if number < 0 then TWO64 - 1 else 0
  }

  lemma SignExtension(low: Word, high: Word)
    ensures -TWO63 <= Signed(low, high) < TWO63 <==> SignedNumber(low, high).Some?
    ensures SignedNumber(low, high).Some? ==> SignedNumber(low, high).value == Signed(low, high)
  {
  }

  function Pow2(n: nat): int {
    if n == 0 then 1 else 2 * Pow2(n - 1)
  }

  lemma {:induction false} Pow2Sum(m: nat, n: nat)
    ensures Pow2(m + n) == Pow2(m) * Pow2(n)
    decreases m
  {
    if m > 0 {
      Pow2Sum(m - 1, n);
    }
  }

  lemma Pow2Square(n: nat, power: int)
    requires n > 0 && Pow2(n) == power
    ensures Pow2(2 * n) == power * power && 2 * Pow2(2 * n - 1) == power * power
  {
    Pow2Sum(n, n);
  }

  lemma PowersOfTwo()
    ensures Pow2(7) == 0x80 && Pow2(8) == 0x100 && Pow2(15) == 0x8000 && Pow2(16) == 0x1_0000
    ensures Pow2(31) == 0x8000_0000 && Pow2(32) == 0x1_0000_0000 && Pow2(63) == TWO63 && Pow2(64) == TWO64
    ensures Pow2(127) == TWO127 && Pow2(128) == TWO128
  {
    assert Pow2(4) == 16;
    Pow2Square(4, 16);
    Pow2Square(8, 0x100);
    Pow2Square(16, 0x1_0000);
    Pow2Square(32, 0x1_0000_0000);
    Pow2Square(64, TWO64);
  }

  /** The bounds of a width are the powers of two they should be. */
  lemma HalfIsPowerOfTwo(bits: nat)
    requires Width(bits) || bits == 128
    ensures Half(bits) == Pow2(bits - 1) && 2 * Half(bits) == Pow2(bits)
  {
    PowersOfTwo();
  }

  /** Two words mean the number of 128-bit two's complement: the one in range that is congruent to them. */
  lemma SignedIsTwosComplement(low: Word, high: Word)
    ensures -Pow2(127) <= Signed(low, high) < Pow2(127)
    ensures (Signed(low, high) - (high * Pow2(64) + low)) % Pow2(128) == 0
    ensures Unsigned(low, high) == high * Pow2(64) + low
  {
    PowersOfTwo();
  }

  /** A signed value is accepted exactly when it fits the width, and is stored exactly. */
  lemma SignedAcceptedIffFits(bits: nat, low: Word, high: Word)
    requires Width(bits)
    ensures var n := Signed(low, high);
      CheckSigned(bits, low, high) == if -Pow2(bits - 1) <= n < Pow2(bits - 1) then Some(n) else None
  {
    SignExtension(low, high);
    HalfIsPowerOfTwo(bits);
  }

  lemma UnsignedAcceptedIffFits(bits: nat, low: Word, high: Word)
    requires Width(bits)
    ensures var n := Unsigned(low, high);
      CheckUnsigned(bits, low, high) == if n < Pow2(bits) then Some(n) else None
  {
    HalfIsPowerOfTwo(bits);
  }

  /** What was accepted is read back bit for bit. */
  lemma SignedRoundTrip(bits: nat, low: Word, high: Word)
    requires Width(bits) && CheckSigned(bits, low, high).Some?
    ensures LowWord(CheckSigned(bits, low, high).value) == low
    ensures HighWord(CheckSigned(bits, low, high).value) == high
  {
  }

  lemma UnsignedRoundTrip(bits: nat, low: Word, high: Word)
    requires Width(bits) && CheckUnsigned(bits, low, high).Some?
    ensures LowWord(CheckUnsigned(bits, low, high).value) == low && high == 0
  {
  }

  // -------------------------------------------------------------------------------------------
  // Decimals

  function Abs(n: int): nat {
    if n < 0 then -n else n
  }

  /** Two's-complement negation in 128 bits: complement and add one, wrapping. */
  function Magnitude(low: Word, high: Word): int {
    var bits := Unsigned(low, high);
    if high >= TWO63 then ((TWO128 - 1 - bits) + 1) % TWO128 else bits
  }

  lemma MagnitudeIsAbsolute(low: Word, high: Word)
    ensures Magnitude(low, high) == Abs(Signed(low, high))
  {
  }

  function Pow10(n: nat): nat {
    if n == 0 then 1 else 10 * Pow10(n - 1)
  }

  lemma {:induction false} Pow10Grows(m: nat, n: nat)
    requires m <= n
    ensures 1 <= Pow10(m) <= Pow10(n)
    decreases n
  {
    if n > 0 {
      if m < n {
        Pow10Grows(m, n - 1);
      } else {
        Pow10Grows(m - 1, n - 1);
      }
    }
  }

  lemma Pow10Split(m: nat, n: nat)
    ensures Pow10(m + n) == Pow10(m) * Pow10(n)
    decreases m
  {
    if m > 0 {
      Pow10Split(m - 1, n);
      assert Pow10(m + n) == 10 * Pow10(m - 1 + n);
    }
  }

  lemma Pow10Ten()
    ensures Pow10(10) == 10_000_000_000
  {
    assert Pow10(5) == 100_000;
    Pow10Split(5, 5);
  }

  lemma Pow10Values()
    ensures Pow10(38) == 100_000_000_000_000_000_000_000_000_000_000_000_000
    ensures Pow10(38) < TWO127 && TWO128 < Pow10(39)
  {
    Pow10Ten();
    Pow10Split(10, 10);
    Pow10Split(20, 10);
    assert Pow10(8) == 100_000_000 by {
      assert Pow10(4) == 10_000;
      Pow10Split(4, 4);
    }
    Pow10Split(30, 8);
  }

  /** The limit stays exact up to the largest precision the type allows, and no further. */
  lemma LimitFitsIffPrecisionAllowed(precision: nat)
    ensures Pow10(precision) < TWO128 <==> precision <= 38
  {
    Pow10Values();
    if precision <= 38 {
      Pow10Grows(precision, 38);
    } else {
      Pow10Grows(39, precision);
    }
  }

  lemma WrapStep(a: int)
    ensures ((a % TWO128) * 10) % TWO128 == (10 * a) % TWO128
  {
    var q := a / TWO128;
    assert a == q * TWO128 + a % TWO128;
    assert 10 * a == (10 * q) * TWO128 + (a % TWO128) * 10;
    ModShift((a % TWO128) * 10, 10 * q);
  }

  lemma ModShift(x: int, k: int)
    ensures (k * TWO128 + x) % TWO128 == x % TWO128
  {
    assert (k * TWO128 + x) / TWO128 == k + x / TWO128;
  }

  /** The bridge's loop in wrapping 128-bit arithmetic. */
  method DecimalLimit(precision: nat) returns (limit: int)
    ensures limit == Pow10(precision) % TWO128
    ensures precision <= 38 ==> limit == Pow10(precision)
  {
    limit := 1;
    var i := 0;
    while i < precision
      invariant 0 <= i <= precision
      invariant limit == Pow10(i) % TWO128
    {
      WrapStep(Pow10(i));
      limit := (limit * 10) % TWO128;
      i := i + 1;
    }
    LimitFitsIffPrecisionAllowed(precision);
  }

  /** A coefficient passes exactly when its absolute value is below the power of ten. */
  method CheckPrecision(low: Word, high: Word, precision: nat) returns (ok: bool)
    requires 1 <= precision <= 38
    ensures ok <==> Abs(Signed(low, high)) < Pow10(precision)
  {
    var limit := DecimalLimit(precision);
    MagnitudeIsAbsolute(low, high);
    ok := Magnitude(low, high) < limit;
  }
}
