/**
 * CRC16-CCITT (protocol.py): the byte-wise loop, and the bit-serial shift register for
 * x^16 + x^12 + x^5 + 1 (ITU-T V.41, section 2) that it is proved equal to.
 */
module Crc {
  import opened Bytes

  /** A 16-bit shift register, most significant bit first. */
  type Register = r: seq<bool> | |r| == 16 witness Repeat(false, 16)

  const ONES: Register := Repeat(true, 16)
  const ZEROS: Register := Repeat(false, 16)

  /** The feedback enters at x^12, x^5 and 1: the bits of 0x1021. */
  function TapBits(): (t: Register)
    ensures forall i :: 0 <= i < 16 ==> (t[i] <==> i == 3 || i == 10 || i == 15)
  {
    seq(16, i => i == 3 || i == 10 || i == 15)
  }

  /** Shift one message bit in. */
  function Step(r: Register, bit: bool): Register
  {
    StepWith(TapBits(), r, bit)
  }

  function StepWith(taps: Register, r: Register, bit: bool): Register
  {
    var shifted := r[1..] + [false];
    if r[0] != bit then XorBits(shifted, taps) else shifted
  }

  function Feed(r: Register, bits: seq<bool>): Register
    decreases bits
  {
    if bits == [] then r else Feed(Step(r, bits[0]), bits[1..])
  }

  /** The checksum of a message: its bits fed, in order, into the all-ones register. */
  function Checksum(data: bytes): (crc: nat)
    ensures crc < 0x1_0000
  {
    Pow2Values();
    FromBits(Feed(ONES, Bits(data)))
  }

  lemma ChecksumBits(data: bytes)
    ensures ToBits(Checksum(data), 16) == Feed(ONES, Bits(data))
  {
    ToFromBits(Feed(ONES, Bits(data)));
  }

  lemma {:induction false} FeedAppend(r: Register, s: seq<bool>, t: seq<bool>)
    ensures Feed(r, s + t) == Feed(Feed(r, s), t)
    decreases s
  {
    if s == [] {
      assert s + t == t;
    } else {
      assert (s + t)[1..] == s[1..] + t;
      FeedAppend(Step(r, s[0]), s[1..], t);
    }
  }

  // ── The loop of the source ────────────────────────────────────────────────

  method Crc16Ccitt(data: bytes) returns (crc: nat)
    ensures crc == Checksum(data)
  {
    crc := 0xFFFF;
    AllOnes();
    for i := 0 to |data|
      invariant crc < 0x1_0000
      invariant Feed(ToBits(crc, 16), Bits(data[i..])) == Feed(ONES, Bits(data))
    {
      var byte := data[i];
      ghost var before := ToBits(crc, 16);
      ByteEnters(crc, byte);
      crc := XorNat(crc, 0x100 * byte as int);
      for j := 0 to 8
        invariant crc < 0x1_0000
        invariant Pending(before, ToBits(byte, 8), j, crc)
      {
        BitEnters(before, ToBits(byte, 8), j, crc);
        crc := if crc / 0x8000 % 2 == 1 then XorNat(2 * crc, 0x1021) else 2 * crc;
        crc := crc % 0x1_0000;
      }
      ByteDone(before, byte, data[i + 1..], crc);
      assert data[i..] == [byte] + data[i + 1..];
    }
    assert data[|data|..] == [];
    Pow2Values();
    FromToBits(crc, 16);
  }

  /** After j of the byte's bits: the register has taken them in, the others wait at its top. */
  predicate Pending(before: Register, bits: seq<bool>, j: nat, crc: nat)
    requires |bits| == 8 && j <= 8
  {
    ToBits(crc, 16) == XorBits(Feed(before, bits[..j]), Align(bits[j..]))
  }

  lemma ByteEnters(crc: nat, b: byte)
    requires crc < 0x1_0000
    ensures XorNat(crc, 0x100 * b as int) < 0x1_0000
    ensures Pending(ToBits(crc, 16), ToBits(b, 8), 0, XorNat(crc, 0x100 * b as int))
  {
    XorIntoTop(crc, b);
    assert ToBits(b, 8)[0..] == ToBits(b, 8);
  }

  lemma BitEnters(before: Register, bits: seq<bool>, j: nat, crc: nat)
    requires |bits| == 8 && j < 8 && crc < 0x1_0000
    requires Pending(before, bits, j, crc)
    ensures Pending(before, bits, j + 1, Shifted(crc))
  {
    ShiftOnce(crc);
    OneShift(Feed(before, bits[..j]), bits[j..]);
    FeedAppend(before, bits[..j], [bits[j]]);
    assert bits[..j] + [bits[j]] == bits[..j + 1];
    assert bits[j..][1..] == bits[j + 1..];
  }

  lemma ByteDone(before: Register, b: byte, rest: bytes, crc: nat)
    requires Pending(before, ToBits(b, 8), 8, crc)
    ensures Feed(ToBits(crc, 16), Bits(rest)) == Feed(before, Bits([b] + rest))
  {
    var bits := ToBits(b, 8);
    assert bits[..8] == bits && bits[8..] == [] && Align([]) == ZEROS;
    assert XorBits(Feed(before, bits), ZEROS) == Feed(before, bits);
    FeedAppend(before, bits, Bits(rest));
    assert ([b] + rest)[1..] == rest;
  }

  /** The body of the inner loop. */
  function Shifted(crc: nat): nat
  {
    (if crc / 0x8000 % 2 == 1 then XorNat(2 * crc, 0x1021) else 2 * crc) % 0x1_0000
  }

  /** Up to 16 message bits waiting at the top of a register. */
  function Align(w: seq<bool>): Register
    requires |w| <= 16
  {
    w + Repeat(false, 16 - |w|)
  }

  lemma AllOnes()
    ensures ToBits(0xFFFF, 16) == ONES
  {
    assert ToBits(0xF, 4) == Repeat(true, 4);
    assert ToBits(0xFF, 8) == Repeat(true, 8);
    assert ToBits(0xFFF, 12) == Repeat(true, 12);
  }

  /** crc ^= byte << 8 */
  lemma XorIntoTop(crc: nat, b: byte)
    requires crc < 0x1_0000
    ensures XorNat(crc, 0x100 * b as int) < 0x1_0000
    ensures ToBits(XorNat(crc, 0x100 * b as int), 16) == XorBits(ToBits(crc, 16), Align(ToBits(b, 8)))
  {
    Pow2Values();
    XorNatBound(crc, 0x100 * b as int, 16);
    XorNatBits(crc, 0x100 * b as int, 16);
    ToBitsScaled(b, 8, 8);
    assert Pow2(8) == 0x100;
  }

  lemma {:induction false} ToBitsScaled(v: nat, n: nat, k: nat)
    ensures ToBits(v * Pow2(k), n + k) == ToBits(v, n) + Repeat(false, k)
  {
    if k == 0 {
      assert ToBits(v, n) + Repeat(false, 0) == ToBits(v, n);
    } else {
      ToBitsScaled(v, n, k - 1);
      var h := v * Pow2(k - 1);
      assert v * Pow2(k) == 2 * h;
    }
  }

  /** Reducing modulo 2^16 keeps the low 16 bits. */
  lemma {:induction false} ToBitsMod(v: nat, n: nat)
    ensures ToBits(v % Pow2(n), n) == ToBits(v, n)
  {
    if n == 0 {
    } else {
      ToBitsMod(v / 2, n - 1);
      var p := Pow2(n - 1);
      assert v % (2 * p) == 2 * (v / 2 % p) + v % 2 by {
        HalfMod(v, p);
      }
    }
  }

  lemma HalfMod(v: nat, p: nat)
    requires p > 0
    ensures v % (2 * p) == 2 * (v / 2 % p) + v % 2
  {
    var q, r := v / 2 / p, v / 2 % p;
    assert v == (2 * p) * q + (2 * r + v % 2);
    DivMod(v, 2 * p, q, 2 * r + v % 2);
  }

  /** One iteration of the inner loop is one step of the register on a zero bit. */
  lemma ShiftOnce(crc: nat)
    requires crc < 0x1_0000
    ensures ToBits(Shifted(crc), 16) == Step(ToBits(crc, 16), false)
  {
    Pow2Values();
    BitOf(crc, 0, 0x8000);
    ToBitsMod(2 * crc, 16);
    ToBitsMod(XorNat(2 * crc, 0x1021), 16);
    XorNatBits(2 * crc, 0x1021, 16);
    DoubledBits(crc);
    Taps();
  }

  lemma {:induction false} ToBitsIndex(v: nat, n: nat, i: nat)
    requires i < n
    ensures ToBits(v, n)[i] <==> v / Pow2(n - 1 - i) % 2 == 1
  {
    if i < n - 1 {
      ToBitsIndex(v / 2, n - 1, i);
      DivDiv(v, Pow2(n - 2 - i));
    }
  }

  lemma DivDiv(v: nat, p: nat)
    requires p > 0
    ensures v / 2 / p == v / (2 * p)
  {
    HalfMod(v, p);
    var q, r := v / 2 / p, v % (2 * p);
    assert v == (2 * p) * q + r;
  }

  lemma DoubledBits(crc: nat)
    ensures ToBits(2 * crc, 16) == ToBits(crc, 16)[1..] + [false]
  {
    LowBits(crc, 16);
  }

  lemma {:induction false} LowBits(v: nat, n: nat)
    requires n > 0
    ensures ToBits(v, n)[1..] == ToBits(v, n - 1)
  {
    if n > 1 {
      LowBits(v / 2, n - 1);
    }
  }

  lemma Taps()
    ensures ToBits(0x1021, 16) == TapBits()
  {
    SetBitThenZeros(0, 3, 6);
    SetBitThenZeros(0x40, 10, 4);
    SetBitThenZeros(0x810, 15, 0);
    ZeroBits(3);
  }

  lemma SetBitThenZeros(v: nat, n: nat, k: nat)
    ensures ToBits((2 * v + 1) * Pow2(k), n + 1 + k) == ToBits(v, n) + [true] + Repeat(false, k)
  {
    ToBitsScaled(2 * v + 1, n + 1, k);
  }

  lemma BitOf(v: nat, i: nat, p: nat)
    requires i < 16 && p == Pow2(15 - i)
    ensures ToBits(v, 16)[i] <==> v / p % 2 == 1
  {
    ToBitsIndex(v, 16, i);
  }

  /** Shifting a register with pending message bits at its top consumes one of them. */
  lemma OneShift(r: Register, w: seq<bool>)
    requires 0 < |w| <= 16
    ensures Step(XorBits(r, Align(w)), false) == XorBits(Step(r, w[0]), Align(w[1..]))
  {
    StepLinear(r, Align(w), w[0], w[0]);
    assert Step(Align(w), w[0]) == Align(w[1..]);
  }

  // ── Algebra of the register ───────────────────────────────────────────────

  lemma {:induction false} FeedLinear(r: Register, q: Register, s: seq<bool>, t: seq<bool>)
    requires |s| == |t|
    ensures Feed(XorBits(r, q), XorBits(s, t)) == XorBits(Feed(r, s), Feed(q, t))
    decreases s
  {
    if s == [] {
    } else {
      assert XorBits(s, t)[1..] == XorBits(s[1..], t[1..]);
      StepLinear(r, q, s[0], t[0]);
      FeedLinear(Step(r, s[0]), Step(q, t[0]), s[1..], t[1..]);
    }
  }

  lemma StepLinear(r: Register, q: Register, b: bool, c: bool)
    ensures Step(XorBits(r, q), b != c) == XorBits(Step(r, b), Step(q, c))
  {
  }

  lemma {:induction false} FeedInjective(r: Register, q: Register, s: seq<bool>)
    requires Feed(r, s) == Feed(q, s)
    ensures r == q
    decreases s
  {
    if s == [] {
    } else {
      FeedInjective(Step(r, s[0]), Step(q, s[0]), s[1..]);
      StepInjective(TapBits(), r, q, s[0]);
    }
  }

  lemma StepInjective(taps: Register, r: Register, q: Register, b: bool)
    requires taps[15] && StepWith(taps, r, b) == StepWith(taps, q, b)
    ensures r == q
  {
    var u, v := StepWith(taps, r, b), StepWith(taps, q, b);
    assert u[15] == v[15];
    forall i | 1 <= i < 16
      ensures r[i] == q[i]
    {
      assert u[i - 1] == v[i - 1];
    }
  }

  /** A step shifts in a clear bit exactly when the message bit is the top bit. */
  lemma StepToAligned(taps: Register, r: Register, w: seq<bool>)
    requires taps[15] && 0 < |w| <= 16
    ensures StepWith(taps, r, w[0]) == Align(w[1..]) <==> r == Align(w)
  {
    var u, a := StepWith(taps, r, w[0]), Align(w);
    assert Align(w[1..]) == a[1..] + [false];
    if u == a[1..] + [false] {
      assert !u[15];
      forall i | 1 <= i < 16
        ensures r[i] == a[i]
      {
        assert u[i - 1] == (a[1..] + [false])[i - 1];
      }
    }
  }

  lemma {:induction false} FeedZeros(n: nat)
    ensures Feed(ZEROS, Repeat(false, n)) == ZEROS
  {
    if n == 0 {
    } else {
      assert Step(ZEROS, false) == ZEROS;
      assert Repeat(false, n)[1..] == Repeat(false, n - 1);
      FeedZeros(n - 1);
    }
  }

  /** At most 16 bits clear the register exactly when they are the bits it already holds. */
  lemma {:induction false} FeedClears(r: Register, w: seq<bool>)
    requires |w| <= 16
    ensures Feed(r, w) == ZEROS <==> r == Align(w)
    decreases w
  {
    if w == [] {
      assert Align(w) == ZEROS;
    } else {
      FeedClears(Step(r, w[0]), w[1..]);
      StepToAligned(TapBits(), r, w);
    }
  }

  lemma {:induction false} FeedParity(r: Register, s: seq<bool>)
    ensures Odd(Feed(r, s)) == (Odd(r) != Odd(s))
    decreases s
  {
    if s == [] {
    } else {
      FeedParity(Step(r, s[0]), s[1..]);
      StepParity(r, s[0]);
    }
  }

  /** The generator has an even number of terms, so a step carries the parity along. */
  lemma StepParity(r: Register, b: bool)
    ensures Odd(Step(r, b)) == (Odd(r) != b)
  {
    OddAppend(r[..1], r[1..]);
    assert r[..1] + r[1..] == r && r[1..][1..] == r[2..];
    OddAppend(r[1..], [false]);
    OddXor(r[1..] + [false], TapBits());
    OddTaps(TapBits());
  }

  lemma OddTaps(s: Register)
    requires s[3] && s[10] && s[15]
    requires forall j :: 0 <= j < 16 && j != 3 && j != 10 && j != 15 ==> !s[j]
    ensures Odd(s)
  {
    OddRun(s, 0, 3);
    OddRun(s, 4, 10);
    OddRun(s, 11, 15);
    assert s[0..] == s && s[3..][1..] == s[4..] && s[10..][1..] == s[11..] && s[15..][1..] == [];
  }

  lemma {:induction false} OddRun(s: Register, i: nat, k: nat)
    requires i <= k <= 16 && forall j :: i <= j < k ==> !s[j]
    ensures Odd(s[i..]) == Odd(s[k..])
    decreases k - i
  {
    if i < k {
      OddRun(s, i + 1, k);
      assert s[i..][1..] == s[i + 1..];
    }
  }

  /** The register before any message, as a number. */
  lemma EmptyChecksum()
    ensures Checksum([]) == 0xFFFF
  {
    AllOnes();
    Pow2Values();
    FromToBits(0xFFFF, 16);
  }
}
