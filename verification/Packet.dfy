/** The passcode packet (protocol.py): encoder, decoder and what its checksum detects. */
module Packet {
  import opened Bytes
  import opened Crc

  datatype EncodeError = PayloadTooLarge | FieldOutOfRange

  datatype EncodeResult = Encoded(packet: bytes) | Refused(error: EncodeError)

  datatype Message = Message(passcode: nat, cmd: nat, payload: bytes)

  const HEADER: bytes := [0xAA, 0xBB]
  const END: bytes := [0xCC, 0xDD]
  const OVERHEAD := 14

  function Inner(passcode: nat, cmd: nat, flags: nat, payload: bytes): (inner: bytes)
    requires passcode < 0x1_0000_0000 && cmd < 256 && flags < 256 && |payload| < 0x1_0000
    ensures |inner| == 8 + |payload|
  {
    Be32(passcode) + [cmd, flags] + Be16(|payload|) + payload
  }

  function Wrap(inner: bytes): (packet: bytes)
    ensures |packet| == |inner| + 6
  {
    HEADER + inner + Be16(Checksum(inner)) + END
  }

  function EncodePacket(passcode: int, cmd: int, payload: bytes, flags: int): EncodeResult
  {
    if |payload| > 0xFFFF then
      Refused(PayloadTooLarge)
    else if !(0 <= passcode < 0x1_0000_0000 && 0 <= cmd < 256 && 0 <= flags < 256) then
      Refused(FieldOutOfRange)
    else
      Encoded(Wrap(Inner(passcode, cmd, flags, payload)))
  }

  function DecodePacket(data: bytes): Option<Message>
  {
    if |data| < 14 then None
    else if data[..2] != HEADER || data[|data| - 2..] != END then None
    else
      var inner := data[2..|data| - 4];
      if Checksum(inner) != Val16(data[|data| - 4..|data| - 2]) then None
      else if |inner| < 8 then None
      else
        var payloadLen := Val16(inner[6..8]);
        if |inner| < 8 + payloadLen then None
        else Some(Message(Val32(inner[..4]), inner[4], inner[8..8 + payloadLen]))
  }

  // ── Encoding and decoding ─────────────────────────────────────────────────

  lemma WrapParts(inner: bytes)
    ensures var p := Wrap(inner);
            p[..2] == HEADER && p[|p| - 2..] == END &&
            p[2..|p| - 4] == inner && p[|p| - 4..|p| - 2] == Be16(Checksum(inner))
  {
  }

  lemma InnerParts(passcode: nat, cmd: nat, flags: nat, payload: bytes)
    requires passcode < 0x1_0000_0000 && cmd < 256 && flags < 256 && |payload| < 0x1_0000
    ensures var inner := Inner(passcode, cmd, flags, payload);
            Val32(inner[..4]) == passcode && inner[4] == cmd && inner[5] == flags &&
            Val16(inner[6..8]) == |payload| && inner[8..] == payload
  {
    var inner := Inner(passcode, cmd, flags, payload);
    Be32RoundTrip(passcode);
    assert inner == Be32(passcode) + ([cmd, flags] + (Be16(|payload|) + payload));
    assert inner[..4] == Be32(passcode);
    assert inner[4..6] == [cmd, flags];
    assert inner[6..8] == Be16(|payload|);
  }

  /** Decoding inverts encoding, for every passcode, command, flags byte and payload accepted. */
  lemma RoundTrip(passcode: int, cmd: int, payload: bytes, flags: int)
    requires EncodePacket(passcode, cmd, payload, flags).Encoded?
    ensures DecodePacket(EncodePacket(passcode, cmd, payload, flags).packet)
         == Some(Message(passcode, cmd, payload))
  {
    var inner := Inner(passcode, cmd, flags, payload);
    WrapParts(inner);
    InnerParts(passcode, cmd, flags, payload);
    assert inner[8..8 + |payload|] == inner[8..];
  }

  /** What the encoder takes: up to 65535 bytes, and numbers that fit their fields; the payload is looked at first. */
  lemma EncodedIff(passcode: int, cmd: int, payload: bytes, flags: int)
    ensures var e := EncodePacket(passcode, cmd, payload, flags);
            (e == Refused(PayloadTooLarge) <==> |payload| > 65535) &&
            (e.Encoded? <==> |payload| <= 65535 && 0 <= passcode <= 4294967295 && 0 <= cmd <= 255 && 0 <= flags <= 255)
  {
  }

  /**
   * Byte by byte: AA BB, the passcode, the command, the flags and the payload's length, all big-endian,
   * the payload, the checksum of what lies between, CC DD.
   */
  lemma PacketLayout(passcode: int, cmd: int, payload: bytes, flags: int)
    requires EncodePacket(passcode, cmd, payload, flags).Encoded?
    ensures var p, n := EncodePacket(passcode, cmd, payload, flags).packet, |payload|;
            |p| == 14 + n && p[0] == 0xAA && p[1] == 0xBB && p[12 + n] == 0xCC && p[13 + n] == 0xDD &&
            0x100_0000 * p[2] as int + 0x1_0000 * p[3] as int + 0x100 * p[4] as int + p[5] as int == passcode &&
            p[6] == cmd && p[7] == flags && 0x100 * p[8] as int + p[9] as int == n && p[10..10 + n] == payload &&
            0x100 * p[10 + n] as int + p[11 + n] as int == Checksum(p[2..10 + n])
  {
    var inner := Inner(passcode, cmd, flags, payload);
    var p := Wrap(inner);
    WrapParts(inner);
    InnerParts(passcode, cmd, flags, payload);
    WrappedAt(inner);
    PayloadPart(p, 10 + |payload|);
  }

  lemma PayloadPart(p: bytes, end: nat)
    requires 10 <= end <= |p|
    ensures p[2..end][8..] == p[10..end]
  {
  }

  lemma PayloadAt(p: bytes, end: nat, n: nat)
    requires 10 + n <= end <= |p|
    ensures p[2..end][8..8 + n] == p[10..10 + n]
  {
    assert p[2..end][8..8 + n] == p[2..end][8..][..n];
    PayloadPart(p, end);
    assert p[10..end][..n] == p[10..10 + n];
  }

  /** Where the bytes of the inner part, its checksum and the marks lie. */
  lemma WrappedAt(inner: bytes)
    requires |inner| >= 8
    ensures var p := Wrap(inner);
            p[0] == 0xAA && p[1] == 0xBB && p[|p| - 2] == 0xCC && p[|p| - 1] == 0xDD &&
            (forall i :: 0 <= i < |inner| ==> p[2 + i] == inner[i]) && p[2..2 + |inner|] == inner &&
            0x100 * p[2 + |inner|] as int + p[3 + |inner|] as int == Checksum(inner)
  {
  }

  /** Exactly such byte strings are accepted, whatever their flags and with whatever follows the payload. */
  lemma AcceptedLayout(p: bytes)
    ensures DecodePacket(p).Some? <==>
            |p| >= 14 && p[0] == 0xAA && p[1] == 0xBB && p[|p| - 2] == 0xCC && p[|p| - 1] == 0xDD &&
            0x100 * p[|p| - 4] as int + p[|p| - 3] as int == Checksum(p[2..|p| - 4]) &&
            14 + 0x100 * p[8] as int + p[9] as int <= |p|
    ensures DecodePacket(p).Some? ==>
              var m := DecodePacket(p).value;
              m.passcode == 0x100_0000 * p[2] as int + 0x1_0000 * p[3] as int + 0x100 * p[4] as int + p[5] as int &&
              m.cmd == p[6] && m.payload == p[10..10 + 0x100 * p[8] as int + p[9] as int]
  {
    if |p| >= 14 {
      var inner := p[2..|p| - 4];
      PairAt(p, 0);
      PairAt(p, |p| - 2);
      PairAt(p, |p| - 4);
      PairAt(inner, 6);
      assert inner[6] == p[8] && inner[7] == p[9];
      if DecodePacket(p).Some? {
        PayloadAt(p, |p| - 4, Val16(inner[6..8]));
      }
    }
  }

  /** No strict prefix of an encoded packet is itself accepted: the code is prefix-free. */
  lemma StrictPrefixRejected(passcode: int, cmd: int, payload: bytes, flags: int, k: nat)
    requires EncodePacket(passcode, cmd, payload, flags).Encoded?
    requires k < |EncodePacket(passcode, cmd, payload, flags).packet|
    ensures DecodePacket(EncodePacket(passcode, cmd, payload, flags).packet[..k]) == None
  {
    var inner := Inner(passcode, cmd, flags, payload);
    var p := Wrap(inner);
    if k >= 14 {
      InnerParts(passcode, cmd, flags, payload);
      WrapParts(inner);
      SameLengthField(p, k);
    }
  }

  /** Cutting a packet short leaves the length field of its inner part alone. */
  lemma SameLengthField(p: bytes, k: nat)
    requires 14 <= k <= |p|
    ensures p[..k][2..k - 4][6..8] == p[2..|p| - 4][6..8]
  {
    PairAt(p[..k][2..k - 4], 6);
    PairAt(p[2..|p| - 4], 6);
  }

  lemma PairAt(s: bytes, i: nat)
    requires i + 2 <= |s|
    ensures s[i..i + 2] == [s[i], s[i + 1]]
  {
  }

  /**
   * An accepted input is what the encoder makes of its own fields exactly when its inner part
   * carries no surplus bytes; with surplus the re-encoding is strictly shorter.
   */
  lemma Reencode(data: bytes)
    requires DecodePacket(data).Some?
    ensures var m := DecodePacket(data).value;
            var again := EncodePacket(m.passcode, m.cmd, m.payload, data[7]);
            again.Encoded? &&
            (again.packet == data <==> |data| == OVERHEAD + |m.payload|) &&
            (again.packet != data ==> |again.packet| < |data|)
  {
    var m := DecodePacket(data).value;
    var inner := data[2..|data| - 4];
    assert data[7] == inner[5];
    var again := Wrap(Inner(m.passcode, m.cmd, data[7], m.payload));
    assert |again| == OVERHEAD + |m.payload|;
    if |inner| == 8 + |m.payload| {
      assert m.payload == inner[8..];
      InnerRebuilt(inner);
      var crc := data[|data| - 4..|data| - 2];
      Be16OfVal(crc);
      assert data == data[..2] + inner + crc + data[|data| - 2..];
    }
  }

  lemma InnerRebuilt(inner: bytes)
    requires |inner| >= 8 && Val16(inner[6..8]) == |inner| - 8
    ensures inner == Be32(Val32(inner[..4])) + [inner[4], inner[5]] + Be16(|inner| - 8) + inner[8..]
  {
    Be32OfVal(inner[..4]);
    Be16OfVal(inner[6..8]);
  }

  // ── What the checksum detects ─────────────────────────────────────────────

  /** The part of a packet the register runs over: inner bytes and checksum. */
  function Codeword(data: bytes): bytes
    requires |data| >= 4
  {
    data[2..|data| - 2]
  }

  /** A message followed by two bytes leaves the register clear exactly when they are its checksum. */
  lemma ResidueIff(inner: bytes, crc: bytes)
    requires |crc| == 2
    ensures Val16(crc) == Checksum(inner) <==> Feed(ONES, Bits(inner + crc)) == ZEROS
  {
    var r := Feed(ONES, Bits(inner));
    BitsAppend(inner, crc);
    FeedAppend(ONES, Bits(inner), Bits(crc));
    FeedClears(r, Bits(crc));
    assert Align(Bits(crc)) == Bits(crc);
    Bits16(crc);
    ChecksumBits(inner);
    Pow2Values();
    FromToBits(Val16(crc), 16);
    FromToBits(Checksum(inner), 16);
  }

  /** Appending its own checksum to a message makes the checksum vanish. */
  lemma Residue(inner: bytes)
    ensures Checksum(inner + Be16(Checksum(inner))) == 0
  {
    ResidueIff(inner, Be16(Checksum(inner)));
    ZeroBits(16);
    Pow2Values();
    FromToBits(0, 16);
  }

  /** The checksum has the parity of the message. */
  lemma ChecksumParity(data: bytes)
    ensures Odd(ToBits(Checksum(data), 16)) == Odd(Bits(data))
  {
    ChecksumBits(data);
    FeedParity(ONES, Bits(data));
    OddOnes(16);
  }

  lemma {:induction false} OddOnes(n: nat)
    ensures Odd(Repeat(true, n)) == (n % 2 == 1)
    ensures !Odd(Repeat(false, n))
  {
    if n == 0 {
    } else {
      assert Repeat(true, n)[1..] == Repeat(true, n - 1);
      assert Repeat(false, n)[1..] == Repeat(false, n - 1);
      OddOnes(n - 1);
    }
  }

  /** Magic bytes in place and a register left clear. */
  predicate Checks(data: bytes)
  {
    |data| >= 14 && data[..2] == HEADER && data[|data| - 2..] == END &&
    Feed(ONES, Bits(Codeword(data))) == ZEROS
  }

  /** Decoding accepts what checks and has room for the payload length it declares. */
  lemma AcceptedChecks(data: bytes)
    ensures DecodePacket(data).Some? <==> Checks(data) && Val16(data[8..10]) <= |data| - 14
  {
    if |data| >= 14 {
      var inner, crc := data[2..|data| - 4], data[|data| - 4..|data| - 2];
      assert Codeword(data) == inner + crc;
      assert inner[6] == data[8] && inner[7] == data[9];
      ResidueIff(inner, crc);
    }
  }

  /**
   * The error patterns that slip past magics and checksum are exactly those that spare the
   * magics and are themselves code polynomials.
   */
  lemma Undetected(data: bytes, error: bytes)
    requires |data| == |error| && Checks(data)
    ensures Checks(Xor(data, error)) <==>
            error[..2] == [0, 0] && error[|data| - 2..] == [0, 0] && Feed(ZEROS, Bits(error)) == ZEROS
  {
    var c, a, e, z := Codeword(data), error[..2], Codeword(error), error[|data| - 2..];
    Parts(data);
    Parts(error);
    UndetectedParts(c, a, e, z);
  }

  lemma UndetectedParts(c: bytes, a: bytes, e: bytes, z: bytes)
    requires |c| == |e| >= 10 && |a| == |z| == 2 && Feed(ONES, Bits(c)) == ZEROS
    ensures Checks(Xor(HEADER + c + END, a + e + z)) <==>
            a == [0, 0] && z == [0, 0] && Feed(ZEROS, Bits(a + e + z)) == ZEROS
  {
    XorParts(HEADER, c, END, a, e, z);
    SpareMagic(HEADER, a);
    SpareMagic(END, z);
    SumOfCodewords(c, e);
    if a == [0, 0] && z == [0, 0] {
      Padded(a, e, z);
    }
  }

  lemma Parts(data: bytes)
    requires |data| >= 4
    ensures data == data[..2] + Codeword(data) + data[|data| - 2..]
  {
  }

  lemma XorParts(a: bytes, c: bytes, z: bytes, ea: bytes, ec: bytes, ez: bytes)
    requires |a| == |ea| == 2 && |c| == |ec| && |z| == |ez| == 2
    ensures Xor(a + c + z, ea + ec + ez) == Xor(a, ea) + Xor(c, ec) + Xor(z, ez)
    ensures Codeword(Xor(a + c + z, ea + ec + ez)) == Xor(c, ec)
    ensures Xor(a + c + z, ea + ec + ez)[..2] == Xor(a, ea)
    ensures Xor(a + c + z, ea + ec + ez)[2 + |c|..] == Xor(z, ez)
  {
    var x := Xor(a + c + z, ea + ec + ez);
    assert x == Xor(a, ea) + Xor(c, ec) + Xor(z, ez);
  }

  lemma SumOfCodewords(c: bytes, e: bytes)
    requires |c| == |e| && Feed(ONES, Bits(c)) == ZEROS
    ensures Feed(ONES, Bits(Xor(c, e))) == Feed(ZEROS, Bits(e))
  {
    BitsXor(c, e);
    FeedLinear(ONES, ZEROS, Bits(c), Bits(e));
    assert XorBits(ONES, ZEROS) == ONES;
    var r := Feed(ZEROS, Bits(e));
    assert XorBits(ZEROS, r) == r;
  }

  lemma SpareMagic(magic: bytes, e: bytes)
    requires |magic| == |e| == 2
    ensures Xor(magic, e) == magic <==> e == [0, 0]
  {
    XorByteFixed(magic[0], e[0]);
    XorByteFixed(magic[1], e[1]);
    var x := Xor(magic, e);
    assert x == [x[0], x[1]] && magic == [magic[0], magic[1]] && e == [e[0], e[1]];
  }

  lemma Padded(a: bytes, c: bytes, z: bytes)
    requires a == [0, 0] && z == [0, 0]
    ensures Feed(ZEROS, Bits(a + c + z)) == ZEROS <==> Feed(ZEROS, Bits(c)) == ZEROS
  {
    BitsOfZeros(a);
    BitsOfZeros(z);
    BitsAppend(a + c, z);
    BitsAppend(a, c);
    ZerosAround(Bits(c), 16, 16);
  }

  lemma ZerosAround(w: seq<bool>, before: nat, after: nat)
    ensures Feed(ZEROS, Repeat(false, before) + w + Repeat(false, after)) == ZEROS <==> Feed(ZEROS, w) == ZEROS
  {
    var pre, post := Repeat(false, before), Repeat(false, after);
    FeedAppend(ZEROS, pre + w, post);
    FeedAppend(ZEROS, pre, w);
    FeedZeros(before);
    FeedZeros(after);
    if Feed(Feed(ZEROS, w), post) == ZEROS {
      FeedInjective(Feed(ZEROS, w), ZEROS, post);
    }
  }

  /** All set bits lie among `len` consecutive positions from `lo`. */
  predicate Confined(bits: seq<bool>, lo: int, len: nat)
  {
    forall i :: 0 <= i < |bits| && bits[i] ==> lo <= i < lo + len
  }

  /** A non-empty burst of at most 16 bits never clears the register. */
  lemma BurstLeavesTrace(bits: seq<bool>, lo: int, len: nat, b: nat)
    requires len <= 16 && Confined(bits, lo, len) && b < |bits| && bits[b]
    ensures Feed(ZEROS, bits) != ZEROS
  {
    var from := if lo < 0 then 0 else lo;
    var to := if lo + len > |bits| then |bits| else lo + len;
    BurstWithin(bits, from, to, b);
  }

  lemma BurstWithin(bits: seq<bool>, from: nat, to: nat, b: nat)
    requires from <= b < to <= |bits| && to - from <= 16 && bits[b]
    requires (forall i :: 0 <= i < from ==> !bits[i]) && forall i :: to <= i < |bits| ==> !bits[i]
    ensures Feed(ZEROS, bits) != ZEROS
  {
    ClearBefore(bits, from);
    ClearAfter(bits, to);
    SplitAround(bits, from, to);
    ShortWordLeavesTrace(from, bits[from..to], |bits| - to, b - from);
  }

  lemma ClearBefore(bits: seq<bool>, n: nat)
    requires n <= |bits| && forall i :: 0 <= i < n ==> !bits[i]
    ensures bits[..n] == Repeat(false, n)
  {
  }

  lemma ClearAfter(bits: seq<bool>, n: nat)
    requires n <= |bits| && forall i :: n <= i < |bits| ==> !bits[i]
    ensures bits[n..] == Repeat(false, |bits| - n)
  {
  }

  lemma SplitAround(bits: seq<bool>, from: nat, to: nat)
    requires from <= to <= |bits|
    ensures bits == bits[..from] + bits[from..to] + bits[to..]
  {
  }

  lemma ShortWordLeavesTrace(before: nat, w: seq<bool>, after: nat, b: nat)
    requires b < |w| <= 16 && w[b]
    ensures Feed(ZEROS, Repeat(false, before) + w + Repeat(false, after)) != ZEROS
  {
    ZerosAround(w, before, after);
    FeedClears(ZEROS, w);
    assert Align(w)[b];
  }

  /**
   * Any error burst is caught: however a received packet is altered, if the flipped bits are
   * some of at most 16 consecutive ones the result is rejected.
   */
  lemma BurstDetected(data: bytes, error: bytes, lo: int, len: nat, b: nat)
    requires DecodePacket(data).Some? && |error| == |data|
    requires len <= 16 && Confined(Bits(error), lo, len) && b < |Bits(error)| && Bits(error)[b]
    ensures DecodePacket(Xor(data, error)) == None
  {
    if DecodePacket(Xor(data, error)).Some? {
      AcceptedChecks(data);
      AcceptedChecks(Xor(data, error));
      Undetected(data, error);
      BurstLeavesTrace(Bits(error), lo, len, b);
    }
  }

  /** Any odd number of flipped bits, anywhere in the packet, is caught. */
  lemma OddErrorDetected(data: bytes, error: bytes)
    requires DecodePacket(data).Some? && |error| == |data| && Odd(Bits(error))
    ensures DecodePacket(Xor(data, error)) == None
  {
    if DecodePacket(Xor(data, error)).Some? {
      AcceptedChecks(data);
      AcceptedChecks(Xor(data, error));
      Undetected(data, error);
      FeedParity(ZEROS, Bits(error));
      OddOnes(16);
    }
  }
}
