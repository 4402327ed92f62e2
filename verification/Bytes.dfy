/** Bytes, big-endian integers and bit strings shared by every layer of the bridge. */
module Bytes {

  type byte = b: int | 0 <= b < 256

  type bytes = seq<byte>

  datatype Option<+T> = None | Some(value: T)

  // ── Big-endian integers (struct "!H" and "!I") ────────────────────────────

  function Be16(n: nat): (r: bytes)
    requires n < 0x1_0000
    ensures |r| == 2
  {
    [n / 256, n % 256]
  }

  function Val16(s: bytes): (n: nat)
    requires |s| == 2
    ensures n < 0x1_0000
  {
    256 * s[0] as int + s[1] as int
  }

  function Be32(n: nat): (r: bytes)
    requires n < 0x1_0000_0000
    ensures |r| == 4
  {
    Be16(n / 0x1_0000) + Be16(n % 0x1_0000)
  }

  function Val32(s: bytes): (n: nat)
    requires |s| == 4
    ensures n == 0x100_0000 * s[0] as int + 0x1_0000 * s[1] as int + 0x100 * s[2] as int + s[3] as int
    ensures n < 0x1_0000_0000
  {
    Val16(s[..2]) * 0x1_0000 + Val16(s[2..])
  }

  lemma Be32RoundTrip(n: nat)
    requires n < 0x1_0000_0000
    ensures Val32(Be32(n)) == n
  {
    assert Be32(n)[..2] == Be16(n / 0x1_0000);
    assert Be32(n)[2..] == Be16(n % 0x1_0000);
  }

  lemma Be16OfVal(s: bytes)
    requires |s| == 2
    ensures Be16(Val16(s)) == s
  {
  }

  lemma Be32OfVal(s: bytes)
    requires |s| == 4
    ensures Be32(Val32(s)) == s
  {
    Be16OfVal(s[..2]);
    Be16OfVal(s[2..]);
    assert s == s[..2] + s[2..];
  }

  /** Division with remainder is unique. */
  lemma DivMod(n: nat, m: nat, q: nat, r: nat)
    requires r < m && n == m * q + r
    ensures n / m == q && n % m == r
  {
    var k := n / m;
    assert n == m * k + n % m;
    assert k < q ==> m * (k + 1) <= m * q;
    assert k > q ==> m * k >= m * (q + 1);
  }

  // ── Concatenation ─────────────────────────────────────────────────────────

  function Concat(parts: seq<bytes>): bytes
  {
    if parts == [] then [] else parts[0] + Concat(parts[1..])
  }

  lemma {:induction false} ConcatAppend(a: seq<bytes>, b: seq<bytes>)
    ensures Concat(a + b) == Concat(a) + Concat(b)
  {
    if a == [] {
      assert a + b == b;
    } else {
      assert (a + b)[1..] == a[1..] + b;
      ConcatAppend(a[1..], b);
    }
  }

  function Repeat<T>(x: T, n: nat): (s: seq<T>)
    ensures |s| == n && forall i :: 0 <= i < n ==> s[i] == x
  {
    seq(n, _ => x)
  }

  // ── Bit strings, most significant bit first ───────────────────────────────

  function Pow2(n: nat): (p: nat)
    ensures p >= 1
  {
    if n == 0 then 1 else 2 * Pow2(n - 1)
  }

  lemma Pow2Values()
    ensures Pow2(8) == 0x100 && Pow2(16) == 0x1_0000
  {
    assert Pow2(12) == 16 * Pow2(8);
  }

  function ToBits(v: nat, n: nat): (s: seq<bool>)
    ensures |s| == n
  {
    if n == 0 then [] else ToBits(v / 2, n - 1) + [v % 2 == 1]
  }

  function FromBits(s: seq<bool>): (v: nat)
    ensures v < Pow2(|s|)
  {
    if s == [] then 0
    else 2 * FromBits(s[..|s| - 1]) + if s[|s| - 1] then 1 else 0
  }

  lemma {:induction false} FromToBits(v: nat, n: nat)
    requires v < Pow2(n)
    ensures FromBits(ToBits(v, n)) == v
  {
    if n == 0 {
    } else {
      FromToBits(v / 2, n - 1);
      assert ToBits(v, n)[..n - 1] == ToBits(v / 2, n - 1);
    }
  }

  lemma {:induction false} ToFromBits(s: seq<bool>)
    ensures ToBits(FromBits(s), |s|) == s
  {
    if s == [] {
    } else {
      ToFromBits(s[..|s| - 1]);
    }
  }

  lemma {:induction false} ToBitsSplit(a: nat, b: nat, n: nat, k: nat)
    requires b < Pow2(k)
    ensures ToBits(a * Pow2(k) + b, n + k) == ToBits(a, n) + ToBits(b, k)
  {
    if k == 0 {
      assert ToBits(a, n) + ToBits(b, 0) == ToBits(a, n);
    } else {
      ToBitsSplit(a, b / 2, n, k - 1);
      var h := a * Pow2(k - 1);
      assert a * Pow2(k) == 2 * h;
    }
  }

  /** The bits of a byte string in transmission order. */
  function Bits(data: bytes): (s: seq<bool>)
    ensures |s| == 8 * |data|
  {
    if data == [] then [] else ToBits(data[0], 8) + Bits(data[1..])
  }

  lemma {:induction false} BitsAppend(a: bytes, b: bytes)
    ensures Bits(a + b) == Bits(a) + Bits(b)
  {
    if a == [] {
      assert a + b == b;
    } else {
      assert (a + b)[1..] == a[1..] + b;
      BitsAppend(a[1..], b);
    }
  }

  lemma {:induction false} BitsSlice(data: bytes, lo: nat, hi: nat)
    requires lo <= hi <= |data|
    ensures Bits(data[lo..hi]) == Bits(data)[8 * lo..8 * hi]
  {
    BitsAppend(data[..lo], data[lo..hi]);
    assert data[..lo] + data[lo..hi] == data[..hi];
    BitsAppend(data[..hi], data[hi..]);
    assert data[..hi] + data[hi..] == data;
  }

  lemma BitsOfOne(b: byte)
    ensures Bits([b]) == ToBits(b, 8)
  {
  }

  lemma Split16(hi: nat, lo: nat)
    requires lo < 256
    ensures ToBits(256 * hi + lo, 16) == ToBits(hi, 8) + ToBits(lo, 8)
  {
    Pow2Values();
    ToBitsSplit(hi, lo, 8, 8);
  }

  /** Two bytes are the sixteen bits of the big-endian integer they hold. */
  lemma Bits16(s: bytes)
    requires |s| == 2
    ensures Bits(s) == ToBits(Val16(s), 16)
  {
    Split16(s[0], s[1]);
    BitsAppend([s[0]], [s[1]]);
    assert s == [s[0]] + [s[1]];
    BitsOfOne(s[0]);
    BitsOfOne(s[1]);
  }

  lemma {:induction false} BitsOfZeros(s: bytes)
    requires forall i :: 0 <= i < |s| ==> s[i] == 0
    ensures Bits(s) == Repeat(false, 8 * |s|)
  {
    if s == [] {
    } else {
      ZeroBits(8);
      BitsOfZeros(s[1..]);
    }
  }

  // ── Exclusive or: flipping bits of a message ──────────────────────────────

  function XorBits(s: seq<bool>, t: seq<bool>): (r: seq<bool>)
    requires |s| == |t|
    ensures |r| == |s|
  {
    seq(|s|, i requires 0 <= i < |s| => s[i] != t[i])
  }

  /** Bitwise exclusive or of two non-negative integers. */
  function XorNat(a: nat, b: nat): nat
  {
    if a == 0 && b == 0 then 0
    else 2 * XorNat(a / 2, b / 2) + if a % 2 != b % 2 then 1 else 0
  }

  lemma {:induction false} XorNatBits(a: nat, b: nat, n: nat)
    ensures ToBits(XorNat(a, b), n) == XorBits(ToBits(a, n), ToBits(b, n))
  {
    if n == 0 {
    } else {
      XorNatBits(a / 2, b / 2, n - 1);
    }
  }

  lemma {:induction false} XorNatBound(a: nat, b: nat, n: nat)
    requires a < Pow2(n) && b < Pow2(n)
    ensures XorNat(a, b) < Pow2(n)
  {
    if n == 0 {
    } else {
      XorNatBound(a / 2, b / 2, n - 1);
    }
  }

  function XorByte(a: byte, b: byte): (r: byte)
    ensures ToBits(r, 8) == XorBits(ToBits(a, 8), ToBits(b, 8))
  {
    Pow2Values();
    XorNatBound(a, b, 8);
    XorNatBits(a, b, 8);
    XorNat(a, b)
  }

  /** `data` with every bit flipped that is set in `error`. */
  function Xor(data: bytes, error: bytes): (r: bytes)
    requires |data| == |error|
    ensures |r| == |data|
    ensures forall i :: 0 <= i < |data| ==> r[i] == XorByte(data[i], error[i])
  {
    seq(|data|, i requires 0 <= i < |data| => XorByte(data[i], error[i]))
  }

  lemma {:induction false} BitsXor(data: bytes, error: bytes)
    requires |data| == |error|
    ensures Bits(Xor(data, error)) == XorBits(Bits(data), Bits(error))
  {
    if data == [] {
    } else {
      assert Xor(data, error)[1..] == Xor(data[1..], error[1..]);
      BitsXor(data[1..], error[1..]);
    }
  }

  lemma XorBitsFixed(s: seq<bool>, t: seq<bool>)
    requires |s| == |t|
    ensures XorBits(s, t) == s <==> t == Repeat(false, |t|)
  {
    if XorBits(s, t) == s {
      forall i | 0 <= i < |t|
        ensures !t[i]
      {
        assert s[i] == XorBits(s, t)[i];
      }
    }
  }

  lemma EqualBits(a: byte, b: byte)
    requires ToBits(a, 8) == ToBits(b, 8)
    ensures a == b
  {
    Pow2Values();
    FromToBits(a, 8);
    FromToBits(b, 8);
  }

  lemma XorByteFixed(a: byte, e: byte)
    ensures XorByte(a, e) == a <==> e == 0
  {
    XorBitsFixed(ToBits(a, 8), ToBits(e, 8));
    ZeroBits(8);
    if XorByte(a, e) == a {
      EqualBits(e, 0);
    } else if e == 0 {
      EqualBits(XorByte(a, e), a);
    }
  }

  lemma {:induction false} ZeroBits(n: nat)
    ensures ToBits(0, n) == Repeat(false, n)
  {
    if n == 0 {
    } else {
      ZeroBits(n - 1);
    }
  }

  /** Whether an odd number of bits is set. */
  function Odd(s: seq<bool>): bool
  {
    if s == [] then false else s[0] != Odd(s[1..])
  }

  lemma {:induction false} OddAppend(s: seq<bool>, t: seq<bool>)
    ensures Odd(s + t) == (Odd(s) != Odd(t))
  {
    if s == [] {
      assert s + t == t;
    } else {
      assert (s + t)[1..] == s[1..] + t;
      OddAppend(s[1..], t);
    }
  }

  lemma {:induction false} OddXor(s: seq<bool>, t: seq<bool>)
    requires |s| == |t|
    ensures Odd(XorBits(s, t)) == (Odd(s) != Odd(t))
  {
    if s == [] {
    } else {
      assert XorBits(s, t)[1..] == XorBits(s[1..], t[1..]);
      OddXor(s[1..], t[1..]);
    }
  }
}
