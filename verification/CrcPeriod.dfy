/**
 * Two flipped bits: the register's generator has period 32767, which decides exactly which
 * double errors the packet checksum lets through.
 */
module CrcPeriod {
  import opened Bytes
  import opened Crc
  import opened Packet

  /** The register bit by bit: coefficients of x^15 down to 1. */
  datatype Word = Word(a15: bool, a14: bool, a13: bool, a12: bool, a11: bool, a10: bool, a9: bool, a8: bool,
                       a7: bool, a6: bool, a5: bool, a4: bool, a3: bool, a2: bool, a1: bool, a0: bool)

  const ONE := Word(false, false, false, false, false, false, false, false,
                    false, false, false, false, false, false, false, true)

  /** Multiplication by x modulo x^16 + x^12 + x^5 + 1. */
  function Times(w: Word): Word
  {
    Word(w.a14, w.a13, w.a12, w.a11 != w.a15, w.a10, w.a9, w.a8, w.a7,
         w.a6, w.a5, w.a4 != w.a15, w.a3, w.a2, w.a1, w.a0, w.a15)
  }

  /** Squaring modulo the same polynomial. */
  function Square(w: Word): Word
  {
    var e := w.a12 != w.a14;
    var f := w.a13 != w.a15;
    Word(w.a13, w.a7 != (w.a9 != (w.a11 != w.a13)), w.a12, w.a6 != (w.a8 != (w.a10 != w.a12)),
         w.a11 != f, w.a5 != f, w.a10 != e, w.a4 != (e != w.a15),
         w.a9 != (w.a11 != f), w.a3 != (w.a11 != (f != w.a14)), w.a8 != (w.a10 != e), w.a2 != (w.a10 != e),
         w.a15, w.a1 != (w.a9 != (w.a11 != f)), w.a14, w.a0 != (w.a8 != (w.a10 != e)))
  }

  lemma SquareOfTimes(w: Word)
    ensures Square(Times(w)) == Times(Times(Square(w)))
  {
    TopCoefficients(w);
    HighCoefficients(w);
    LowCoefficients(w);
  }

  lemma TopCoefficients(w: Word)
    ensures var u, v := Square(Times(w)), Times(Times(Square(w)));
            u.a15 == v.a15 && u.a14 == v.a14 && u.a13 == v.a13 && u.a12 == v.a12
  {
  }

  lemma HighCoefficients(w: Word)
    ensures var u, v := Square(Times(w)), Times(Times(Square(w)));
            u.a11 == v.a11 && u.a10 == v.a10 && u.a9 == v.a9 && u.a8 == v.a8
  {
  }

  lemma LowCoefficients(w: Word)
    ensures var u, v := Square(Times(w)), Times(Times(Square(w)));
            u.a7 == v.a7 && u.a6 == v.a6 && u.a5 == v.a5 && u.a4 == v.a4 &&
            u.a3 == v.a3 && u.a2 == v.a2 && u.a1 == v.a1 && u.a0 == v.a0
  {
  }

  /** x^n */
  function Power(n: nat): Word
  {
    if n == 0 then ONE else Times(Power(n - 1))
  }

  lemma {:induction false} PowerDouble(n: nat)
    ensures Power(2 * n) == Square(Power(n))
  {
    if n == 0 {
      assert Square(ONE) == ONE;
    } else {
      PowerDouble(n - 1);
      SquareOfTimes(Power(n - 1));
      PowerTwoMore(2 * (n - 1));
    }
  }

  lemma PowerTwoMore(n: nat)
    ensures Power(n + 2) == Times(Times(Power(n)))
  {
    assert Power(n + 2) == Times(Power(n + 1));
  }

  lemma TimesInjective(v: Word, w: Word)
    requires Times(v) == Times(w)
    ensures v == w
  {
  }

  lemma TimesIff(v: Word, w: Word)
    ensures v == w <==> Times(v) == Times(w)
  {
    if Times(v) == Times(w) {
      TimesInjective(v, w);
    }
  }

  lemma {:induction false} PowerShift(m: nat, n: nat, k: nat)
    ensures Power(m) == Power(n) <==> Power(m + k) == Power(n + k)
  {
    if k == 0 {
    } else {
      PowerShift(m, n, k - 1);
      TimesIff(Power(m + k - 1), Power(n + k - 1));
    }
  }

  // ── The period ────────────────────────────────────────────────────────────

  const PERIOD := 32767

  /** Four binary digits of an exponent. */
  function Advance(w: Word, b3: bool, b2: bool, b1: bool, b0: bool): Word
  {
    Digit(Digit(Digit(Digit(w, b3), b2), b1), b0)
  }

  function Digit(w: Word, b: bool): Word
  {
    if b then Times(Square(w)) else Square(w)
  }

  lemma PowerDigit(n: nat, b: bool) returns (m: nat)
    ensures m == 2 * n + (if b then 1 else 0) && Power(m) == Digit(Power(n), b)
  {
    m := 2 * n + if b then 1 else 0;
    PowerDouble(n);
  }

  lemma PowerDigits(n: nat, b3: bool, b2: bool, b1: bool, b0: bool) returns (m: nat)
    ensures m == 16 * n + (if b3 then 8 else 0) + (if b2 then 4 else 0) + (if b1 then 2 else 0) + if b0 then 1 else 0
    ensures Power(m) == Advance(Power(n), b3, b2, b1, b0)
  {
    m := PowerDigit(n, b3);
    m := PowerDigit(m, b2);
    m := PowerDigit(m, b1);
    m := PowerDigit(m, b0);
  }

  // x^7, x^127 and x^2047.
  const X7 := Word(false, false, false, false, false, false, false, false,
                      true, false, false, false, false, false, false, false)
  const X127 := Word(false, true, false, true, false, true, true, true,
                      false, true, true, true, true, true, true, false)
  const X2047 := Word(false, true, true, true, true, true, true, false,
                      true, false, true, false, true, false, false, false)

  lemma FirstDigits()
    ensures Advance(ONE, false, true, true, true) == X7
  {
  }

  lemma SecondDigits()
    ensures Advance(X7, true, true, true, true) == X127
  {
  }

  lemma ThirdDigits()
    ensures Advance(X127, true, true, true, true) == X2047
  {
  }

  lemma LastDigits()
    ensures Advance(X2047, true, true, true, true) == ONE
  {
  }

  /** x^32767 = 1. */
  lemma PeriodReturns(p: nat)
    requires p + 1 == 0x8000
    ensures Power(p) == ONE
  {
    var n := PowerDigits(0, false, true, true, true);
    FirstDigits();
    n := PowerDigits(n, true, true, true, true);
    SecondDigits();
    n := PowerDigits(n, true, true, true, true);
    ThirdDigits();
    n := PowerDigits(n, true, true, true, true);
    LastDigits();
  }

  lemma Word4681()
    ensures Advance(Advance(Advance(Digit(ONE, true), false, false, true, false), false, true, false, false),
                    true, false, false, true) != ONE
  {
  }

  lemma Word1057()
    ensures Advance(Advance(Advance(ONE, false, true, false, false), false, false, true, false),
                    false, false, false, true) != ONE
  {
  }

  lemma Word217()
    ensures Advance(Advance(ONE, true, true, false, true), true, false, false, true) != ONE
  {
  }

  /** None of the maximal proper divisors of 32767 = 7 * 31 * 151 is an exponent returning to 1. */
  lemma NoShorterReturn(a: nat, b: nat, c: nat)
    requires a - 1 == 4680 && b - 1 == 1056 && c - 1 == 216
    ensures Power(a) != ONE && Power(b) != ONE && Power(c) != ONE
  {
    var n := PowerDigit(0, true);
    n := PowerDigits(n, false, false, true, false);
    n := PowerDigits(n, false, true, false, false);
    n := PowerDigits(n, true, false, false, true);
    var m := PowerDigits(0, false, true, false, false);
    m := PowerDigits(m, false, false, true, false);
    m := PowerDigits(m, false, false, false, true);
    var k := PowerDigits(0, true, true, false, true);
    k := PowerDigits(k, true, false, false, true);
    Word4681();
    Word1057();
    Word217();
  }

  lemma {:induction false} ReturnsMultiply(m: nat, q: nat, t: nat)
    requires Power(m) == ONE && t == m * q
    ensures Power(t) == ONE
  {
    if q == 0 {
    } else {
      assert t - m == m * (q - 1);
      ReturnsMultiply(m, q - 1, t - m);
      PowerShift(0, t - m, m);
    }
  }

  /** Some positive exponent below or at n returns to 1 first. */
  lemma {:induction false} FirstReturn(n: nat) returns (m: nat)
    requires n > 0 && Power(n) == ONE
    ensures 0 < m <= n && Power(m) == ONE && forall j :: 0 < j < m ==> Power(j) != ONE
  {
    if j :| 0 < j < n && Power(j) == ONE {
      m := FirstReturn(j);
    } else {
      m := n;
    }
  }

  lemma StripReturn(t: nat, r: nat)
    requires Power(t) == ONE && Power(t + r) == ONE
    ensures Power(r) == ONE
  {
    PowerShift(0, t, r);
  }

  lemma Quotient(m: nat, n: nat) returns (t: nat)
    requires m > 0 && Power(m) == ONE
    ensures t + n % m == n && Power(t) == ONE
  {
    t := n - n % m;
    ReturnsMultiply(m, n / m, t);
  }

  lemma ReturnsRemainder(m: nat, n: nat)
    requires m > 0 && Power(m) == ONE && Power(n) == ONE
    ensures Power(n % m) == ONE
  {
    var t := Quotient(m, n);
    StripReturn(t, n % m);
  }

  lemma DividesReturns(m: nat, a: nat)
    requires m > 0 && a % m == 0 && Power(m) == ONE
    ensures Power(a) == ONE
  {
    var t := Quotient(m, a);
  }

  lemma SmallDivisor(d: nat)
    requires 0 < d <= 182 && 32767 % d == 0
    ensures d == 1 || d == 7 || d == 31 || d == 151
  {
    if 8 <= d < 56 && d != 31 {
      NoneFrom8(d);
    } else if 56 <= d < 104 {
      NoneFrom56(d);
    } else if 104 <= d < 151 {
      NoneFrom104(d);
    } else if 152 <= d {
      NoneFrom152(d);
    }
  }

  lemma NoneFrom8(d: nat)
    requires 8 <= d < 56 && d != 31
    ensures 32767 % d != 0
  {
  }

  lemma NoneFrom56(d: nat)
    requires 56 <= d < 104
    ensures 32767 % d != 0
  {
  }

  lemma NoneFrom104(d: nat)
    requires 104 <= d < 151
    ensures 32767 % d != 0
  {
  }

  lemma NoneFrom152(d: nat)
    requires 152 <= d < 183
    ensures 32767 % d != 0
  {
  }

  /** A proper divisor of 32767 divides one of its three maximal ones. */
  lemma ProperDivisor(m: nat, k: nat)
    requires m * k == 32767 && m < 32767
    ensures 4681 % m == 0 || 1057 % m == 0 || 217 % m == 0
  {
    assert m <= 182 || k <= 182 by {
      assert m >= 183 && k >= 183 ==> m * k >= 183 * 183;
    }
    DivMod(32767, m, k, 0);
    DivMod(32767, k, m, 0);
    if m <= 182 {
      SmallDivisor(m);
    } else {
      SmallDivisor(k);
    }
  }

  /** x^n = 1 exactly for the multiples of 32767. */
  lemma PeriodIff(n: nat)
    ensures Power(n) == ONE <==> n % PERIOD == 0
  {
    var p: nat := 0x8000 - 1;
    PeriodReturns(p);
    if n % PERIOD == 0 {
      DividesReturns(p, n);
    }
    if Power(n) == ONE {
      var m := FirstReturn(p);
      ReturnsRemainder(m, p);
      ReturnsRemainder(m, n);
      if m < p {
        NotEarlier(m);
      }
    }
  }

  lemma NotEarlier(m: nat)
    requires 0 < m < 32767 && 32767 % m == 0
    ensures Power(m) != ONE
  {
    assert m * (32767 / m) == 32767;
    ProperDivisor(m, 32767 / m);
    NotDividing(m, 4680 + 1, 1056 + 1, 216 + 1);
  }

  lemma NotDividing(m: nat, a: nat, b: nat, c: nat)
    requires a - 1 == 4680 && b - 1 == 1056 && c - 1 == 216
    requires m > 0 && (a % m == 0 || b % m == 0 || c % m == 0)
    ensures Power(m) != ONE
  {
    NoShorterReturn(a, b, c);
    if Power(m) == ONE {
      if a % m == 0 {
        DividesReturns(m, a);
      } else if b % m == 0 {
        DividesReturns(m, b);
      } else {
        DividesReturns(m, c);
      }
    }
  }

  // ── The register as a word ────────────────────────────────────────────────

  function WordOf(r: Register): Word
  {
    Word(r[0], r[1], r[2], r[3], r[4], r[5], r[6], r[7], r[8], r[9], r[10], r[11], r[12], r[13], r[14], r[15])
  }

  lemma WordInjective(r: Register, q: Register)
    requires WordOf(r) == WordOf(q)
    ensures r == q
  {
    SameHalf(r[..8], q[..8]);
    SameHalf(r[8..], q[8..]);
    assert r == r[..8] + r[8..] && q == q[..8] + q[8..];
  }

  lemma SameHalf(s: seq<bool>, t: seq<bool>)
    requires |s| == |t| == 8
    requires s[0] == t[0] && s[1] == t[1] && s[2] == t[2] && s[3] == t[3]
    requires s[4] == t[4] && s[5] == t[5] && s[6] == t[6] && s[7] == t[7]
    ensures s == t
  {
  }

  lemma StepTimes(r: Register)
    ensures WordOf(Step(r, false)) == Times(WordOf(r))
  {
  }

  /** Shifting in n clear bits multiplies by x^n. */
  lemma {:induction false} FeedTimes(r: Register, m: nat, n: nat)
    requires WordOf(r) == Power(m)
    ensures WordOf(Feed(r, Repeat(false, n))) == Power(m + n)
    decreases n
  {
    if n == 0 {
    } else {
      StepTimes(r);
      ClearRun(n);
      FeedTimes(Step(r, false), m + 1, n - 1);
    }
  }

  lemma ClearRun(n: nat)
    requires n > 0
    ensures Repeat(false, n)[1..] == Repeat(false, n - 1)
  {
  }

  lemma TopWord()
    ensures Advance(ONE, true, true, true, true)
         == Word(true, false, false, false, false, false, false, false,
                 false, false, false, false, false, false, false, false)
  {
  }

  /** A set bit at the top of the register is x^15. */
  lemma TopPower(t: nat)
    requires t + 1 == 16
    ensures WordOf(Align([true])) == Power(t)
  {
    var n := PowerDigits(0, true, true, true, true);
    TopWord();
  }

  lemma FirstBit()
    ensures Step(ZEROS, true) == Step(Align([true]), false)
  {
  }

  /** Two set bits d apart clear the register exactly when the period divides d. */
  lemma TwoBitsClear(d: nat)
    requires d > 0
    ensures Feed(ZEROS, [true] + Repeat(false, d - 1) + [true]) == ZEROS <==> d % PERIOD == 0
  {
    var top := Align([true]);
    var t: nat := 16 - 1;
    FeedAppend(ZEROS, [true] + Repeat(false, d - 1), [true]);
    FeedAppend(ZEROS, [true], Repeat(false, d - 1));
    FeedAppend(top, [false], Repeat(false, d - 1));
    FirstBit();
    assert [false] + Repeat(false, d - 1) == Repeat(false, d);
    FeedClears(Feed(top, Repeat(false, d)), [true]);
    TopPower(t);
    BackAtTop(top, t, d);
  }

  lemma BackAtTop(r: Register, t: nat, d: nat)
    requires WordOf(r) == Power(t)
    ensures Feed(r, Repeat(false, d)) == r <==> d % PERIOD == 0
  {
    FeedTimes(r, t, d);
    PowerShift(0, d, t);
    PeriodIff(d);
    SameWord(Feed(r, Repeat(false, d)), r);
  }

  lemma SameWord(r: Register, q: Register)
    ensures r == q <==> WordOf(r) == WordOf(q)
  {
    if WordOf(r) == WordOf(q) {
      WordInjective(r, q);
    }
  }

  // ── Packets ───────────────────────────────────────────────────────────────

  /** Exactly the bits i and j are set. */
  predicate OnlyTwo(bits: seq<bool>, i: nat, j: nat)
  {
    i < j < |bits| && forall k :: 0 <= k < |bits| ==> (bits[k] <==> k == i || k == j)
  }

  lemma TwoBitsShape(bits: seq<bool>, i: nat, j: nat)
    requires OnlyTwo(bits, i, j)
    ensures bits == Repeat(false, i) + ([true] + Repeat(false, j - i - 1) + [true]) + Repeat(false, |bits| - j - 1)
  {
  }

  lemma TwoBitError(bits: seq<bool>, i: nat, j: nat)
    requires OnlyTwo(bits, i, j)
    ensures Feed(ZEROS, bits) == ZEROS <==> (j - i) % PERIOD == 0
  {
    TwoBitsShape(bits, i, j);
    ZerosAround([true] + Repeat(false, j - i - 1) + [true], i, |bits| - j - 1);
    TwoBitsClear(j - i);
  }

  predicate Quiet(bits: seq<bool>, lo: nat)
    requires lo + 16 <= |bits|
  {
    forall k :: lo <= k < lo + 16 ==> !bits[k]
  }

  predicate Outside(i: nat, lo: nat)
  {
    i < lo || lo + 16 <= i
  }

  lemma QuietIff(bits: seq<bool>, i: nat, j: nat, lo: nat)
    requires OnlyTwo(bits, i, j) && lo + 16 <= |bits|
    ensures Quiet(bits, lo) <==> Outside(i, lo) && Outside(j, lo)
  {
    assert bits[i] && bits[j];
  }

  lemma QuietSlice(bits: seq<bool>, lo: nat)
    requires lo + 16 <= |bits|
    ensures bits[lo..lo + 16] == Repeat(false, 16) <==> Quiet(bits, lo)
  {
    var s := bits[lo..lo + 16];
    if s == Repeat(false, 16) {
      forall k | lo <= k < lo + 16
        ensures !bits[k]
      {
        assert s[k - lo] == bits[k];
      }
    }
  }

  lemma PairSpared(error: bytes, lo: nat)
    requires lo + 2 <= |error|
    ensures error[lo] == 0 == error[lo + 1] <==> Quiet(Bits(error), 8 * lo)
  {
    var s := error[lo..lo + 2];
    BitsSlice(error, lo, lo + 2);
    assert s == [error[lo], error[lo + 1]];
    ClearPair(s);
    QuietSlice(Bits(error), 8 * lo);
  }

  /** Two adjacent bytes of the error are clear exactly when neither flipped bit is in them. */
  lemma PairOutside(error: bytes, bits: seq<bool>, lo: nat, i: nat, j: nat)
    requires lo + 2 <= |error| && bits == Bits(error) && OnlyTwo(bits, i, j)
    ensures error[lo] == 0 == error[lo + 1] <==> Outside(i, 8 * lo) && Outside(j, 8 * lo)
  {
    PairSpared(error, lo);
    QuietIff(bits, i, j, 8 * lo);
  }

  lemma MagicsSpared(error: bytes, i: nat, j: nat, n: nat)
    requires n == |error| >= 4 && OnlyTwo(Bits(error), i, j)
    ensures error[..2] == [0, 0] && error[n - 2..] == [0, 0] <==> 16 <= i && j < 8 * n - 16
  {
    PairOutside(error, Bits(error), 0, i, j);
    PairOutside(error, Bits(error), n - 2, i, j);
    assert error[..2] == [error[0], error[1]] && error[n - 2..] == [error[n - 2], error[n - 1]];
  }

  lemma ClearPair(s: bytes)
    requires |s| == 2
    ensures s == [0, 0] <==> Bits(s) == Repeat(false, 16)
  {
    Bits16(s);
    ZeroBits(16);
    if s == [0, 0] {
      BitsOfZeros(s);
    } else if Bits(s) == Repeat(false, 16) {
      Pow2Values();
      FromToBits(Val16(s), 16);
      FromToBits(0, 16);
    }
  }

  /**
   * Flipping two bits of an accepted packet goes unnoticed exactly when neither lies in the
   * magics, their distance is a multiple of 32767, and the length declared still fits.
   */
  lemma TwoBitErrorUndetectedIff(data: bytes, error: bytes, i: nat, j: nat)
    requires DecodePacket(data).Some? && |error| == |data| && OnlyTwo(Bits(error), i, j)
    ensures DecodePacket(Xor(data, error)).Some? <==>
            16 <= i && j < 8 * |data| - 16 && (j - i) % PERIOD == 0 &&
            Val16(Xor(data, error)[8..10]) <= |data| - 14
  {
    AcceptedChecks(data);
    AcceptedChecks(Xor(data, error));
    Undetected(data, error);
    MagicsSpared(error, i, j, |data|);
    TwoBitError(Bits(error), i, j);
  }

  /** Two flipped bits that touch a magic or whose distance is not a multiple of 32767 are always caught. */
  lemma TwoBitErrorDetected(data: bytes, error: bytes, i: nat, j: nat)
    requires DecodePacket(data).Some? && |error| == |data| && OnlyTwo(Bits(error), i, j)
    requires 16 <= i && j < 8 * |data| - 16 ==> (j - i) % PERIOD != 0
    ensures DecodePacket(Xor(data, error)).None?
  {
    TwoBitErrorUndetectedIff(data, error, i, j);
  }

  lemma ShortSpan(n: nat, i: nat, j: nat)
    requires n <= 4099 && 16 <= i < j < 8 * n - 16
    ensures (j - i) % PERIOD != 0
  {
    assert 0 < j - i < PERIOD;
  }

  /** No packet of at most 4099 bytes can hide two flipped bits. */
  lemma ShortPacketTwoBitsDetected(data: bytes, error: bytes, i: nat, j: nat)
    requires DecodePacket(data).Some? && |error| == |data| && OnlyTwo(Bits(error), i, j)
    requires |data| <= 4099
    ensures DecodePacket(Xor(data, error)).None?
  {
    if 16 <= i && j < 8 * |data| - 16 {
      ShortSpan(|data|, i, j);
    }
    TwoBitErrorDetected(data, error, i, j);
  }

  /** Two bits of the payload and checksum that lie one period apart do cancel each other. */
  lemma LongPacketHidesTwoBits(data: bytes, error: bytes, i: nat)
    requires DecodePacket(data).Some? && |error| == |data|
    requires 80 <= i && i + PERIOD < 8 * |data| - 16 && OnlyTwo(Bits(error), i, i + PERIOD)
    ensures DecodePacket(Xor(data, error)).Some?
  {
    LengthFieldKept(data, error, Bits(error), i, i + PERIOD);
    AcceptedChecks(data);
    TwoBitErrorUndetectedIff(data, error, i, i + PERIOD);
  }

  lemma LengthFieldKept(data: bytes, error: bytes, bits: seq<bool>, i: nat, j: nat)
    requires |error| == |data| >= 14 && bits == Bits(error) && OnlyTwo(bits, i, j) && 80 <= i
    ensures Val16(Xor(data, error)[8..10]) == Val16(data[8..10])
  {
    PairOutside(error, bits, 8, i, j);
    SamePair(data, error, 8);
  }

  lemma SamePair(data: bytes, error: bytes, lo: nat)
    requires |error| == |data| && lo + 2 <= |data| && error[lo] == 0 == error[lo + 1]
    ensures Val16(Xor(data, error)[lo..lo + 2]) == Val16(data[lo..lo + 2])
  {
    XorByteFixed(data[lo], error[lo]);
    XorByteFixed(data[lo + 1], error[lo + 1]);
  }

  // ── How sharp the detection is ────────────────────────────────────────────

  /** The bits set are those of x^16 + x^12 + x^5 + 1, beginning at bit i. */
  predicate OnlyGenerator(bits: seq<bool>, i: nat)
  {
    i + 16 < |bits| &&
    forall k :: 0 <= k < |bits| ==> (bits[k] <==> k == i || k == i + 4 || k == i + 11 || k == i + 16)
  }

  lemma GeneratorShape(bits: seq<bool>, i: nat)
    requires OnlyGenerator(bits, i)
    ensures bits == Repeat(false, i) + ([true] + TapBits()) + Repeat(false, |bits| - i - 17)
  {
  }

  lemma GeneratorClears()
    ensures Feed(ZEROS, [true] + TapBits()) == ZEROS
  {
    var taps := TapBits();
    FeedAppend(ZEROS, [true], taps);
    FirstTaps();
    FeedClears(taps, taps);
    assert taps + Repeat(false, 16 - |taps|) == taps;
  }

  lemma FirstTaps()
    ensures Step(ZEROS, true) == TapBits()
  {
  }

  lemma GeneratorError(bits: seq<bool>, i: nat)
    requires OnlyGenerator(bits, i)
    ensures Feed(ZEROS, bits) == ZEROS
  {
    GeneratorShape(bits, i);
    ZerosAround([true] + TapBits(), i, |bits| - i - 17);
    GeneratorClears();
  }

  lemma GeneratorQuiet(bits: seq<bool>, i: nat, lo: nat)
    requires OnlyGenerator(bits, i) && lo + 16 <= |bits|
    ensures i + 16 < lo || lo + 16 <= i ==> Quiet(bits, lo)
    ensures lo <= i < lo + 16 || lo <= i + 16 < lo + 16 ==> !Quiet(bits, lo)
  {
    assert bits[i] && bits[i + 16];
  }

  lemma GeneratorSpares(error: bytes, bits: seq<bool>, i: nat, n: nat)
    requires n == |error| >= 14 && bits == Bits(error) && OnlyGenerator(bits, i)
    ensures error[..2] == [0, 0] && error[n - 2..] == [0, 0] <==> 16 <= i && i + 16 < 8 * n - 16
  {
    PairSpared(error, 0);
    PairSpared(error, n - 2);
    GeneratorQuiet(bits, i, 0);
    GeneratorQuiet(bits, i, 8 * (n - 2));
    assert error[..2] == [error[0], error[1]] && error[n - 2..] == [error[n - 2], error[n - 1]];
  }

  /**
   * Sixteen bits are the most: a burst of seventeen that is the generator itself goes unnoticed
   * wherever it spares the magics and leaves a declared length that fits.
   */
  lemma GeneratorBurstUndetectedIff(data: bytes, error: bytes, i: nat)
    requires DecodePacket(data).Some? && |error| == |data| && OnlyGenerator(Bits(error), i)
    ensures DecodePacket(Xor(data, error)).Some? <==>
            16 <= i && i + 16 < 8 * |data| - 16 && Val16(Xor(data, error)[8..10]) <= |data| - 14
  {
    AcceptedChecks(data);
    AcceptedChecks(Xor(data, error));
    Undetected(data, error);
    GeneratorSpares(error, Bits(error), i, |data|);
    GeneratorError(Bits(error), i);
  }

  lemma GeneratorKeepsLength(data: bytes, error: bytes, bits: seq<bool>, i: nat)
    requires |error| == |data| >= 14 && bits == Bits(error) && OnlyGenerator(bits, i) && 80 <= i
    ensures Val16(Xor(data, error)[8..10]) == Val16(data[8..10])
  {
    GeneratorQuiet(bits, i, 64);
    PairSpared(error, 8);
    SamePair(data, error, 8);
  }

  /** Behind the length field it always does. */
  lemma GeneratorBurstPasses(data: bytes, error: bytes, i: nat)
    requires DecodePacket(data).Some? && |error| == |data| && OnlyGenerator(Bits(error), i)
    requires 80 <= i && i + 16 < 8 * |data| - 16
    ensures DecodePacket(Xor(data, error)).Some?
  {
    AcceptedChecks(data);
    GeneratorKeepsLength(data, error, Bits(error), i);
    GeneratorBurstUndetectedIff(data, error, i);
  }

  /** How many bits are set. */
  function Weight(s: seq<bool>): nat
  {
    if s == [] then 0 else (if s[0] then 1 else 0) + Weight(s[1..])
  }

  lemma {:induction false} OddWeight(s: seq<bool>)
    ensures Odd(s) <==> Weight(s) % 2 == 1
  {
    if s == [] {
    } else {
      OddWeight(s[1..]);
    }
  }

  lemma {:induction false} WeightZero(s: seq<bool>)
    requires Weight(s) == 0
    ensures forall k :: 0 <= k < |s| ==> !s[k]
  {
    if s == [] {
    } else {
      WeightZero(s[1..]);
      assert forall k :: 1 <= k < |s| ==> s[k] == s[1..][k - 1];
    }
  }

  lemma {:induction false} WeightOne(s: seq<bool>) returns (i: nat)
    requires Weight(s) == 1
    ensures i < |s| && forall k :: 0 <= k < |s| ==> (s[k] <==> k == i)
  {
    assert forall k :: 1 <= k < |s| ==> s[k] == s[1..][k - 1];
    if s[0] {
      i := 0;
      WeightZero(s[1..]);
    } else {
      i := WeightOne(s[1..]);
      i := i + 1;
    }
  }

  lemma {:induction false} WeightTwo(s: seq<bool>) returns (i: nat, j: nat)
    requires Weight(s) == 2
    ensures OnlyTwo(s, i, j)
  {
    assert forall k :: 1 <= k < |s| ==> s[k] == s[1..][k - 1];
    if s[0] {
      i := 0;
      j := WeightOne(s[1..]);
      j := j + 1;
    } else {
      i, j := WeightTwo(s[1..]);
      i, j := i + 1, j + 1;
    }
  }

  /** One, two or three flipped bits anywhere in a packet of at most 4099 bytes are noticed. */
  lemma UpToThreeBitsDetected(data: bytes, error: bytes)
    requires DecodePacket(data).Some? && |error| == |data| <= 4099
    requires 1 <= Weight(Bits(error)) <= 3
    ensures DecodePacket(Xor(data, error)).None?
  {
    OddWeight(Bits(error));
    if Weight(Bits(error)) == 2 {
      TwoSetBitsDetected(data, error);
    } else {
      OddErrorDetected(data, error);
    }
  }

  lemma TwoSetBitsDetected(data: bytes, error: bytes)
    requires DecodePacket(data).Some? && |error| == |data| <= 4099 && Weight(Bits(error)) == 2
    ensures DecodePacket(Xor(data, error)).None?
  {
    var i, j := WeightTwo(Bits(error));
    ShortPacketTwoBitsDetected(data, error, i, j);
  }
}
