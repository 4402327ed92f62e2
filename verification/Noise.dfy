/**
 * Noise framing of the ESPHome API after the handshake (esphome_server.py), over an abstract
 * cipher with a counter nonce.
 */
module Noise {
  import opened Bytes
  import opened Packet
  import opened Streams
  import opened Varint

  const TAG := 16
  const SEND_FRAME_REQUEST := 151

  /** Noise Protocol Framework, section 5.1: 2^64 - 1 is reserved, and no nonce may reach it. */
  const MAX_NONCE := 0xFFFF_FFFF_FFFF_FFFF

  /**
   * The library's cipher: encryption and decryption under a nonce, and the longest plaintext it
   * agrees to encrypt. What it refuses leaves the nonce alone.
   */
  datatype Cipher = Cipher(seal: (nat, bytes) -> bytes, open: (nat, bytes) -> Option<bytes>, maxPlain: nat)

  /** Noise Protocol Framework, section 12.3: a ciphertext is 16 bytes longer than its plaintext. */
  ghost predicate Tagged(c: Cipher)
  {
    forall n: nat, p: bytes {:trigger c.seal(n, p)} :: n < MAX_NONCE ==> |c.seal(n, p)| == |p| + TAG
  }

  /** Authenticated encryption, idealised: the right nonce opens, and no other usable one does. */
  ghost predicate Aead(c: Cipher)
  {
    Tagged(c) &&
    (forall n: nat, p: bytes {:trigger c.seal(n, p)} :: n < MAX_NONCE ==> c.open(n, c.seal(n, p)) == Some(p)) &&
    forall n: nat, k: nat, p: bytes {:trigger c.open(k, c.seal(n, p))} ::
      n < MAX_NONCE && k < MAX_NONCE && k != n ==> c.open(k, c.seal(n, p)) == None
  }

  // ── A cipher of this kind ─────────────────────────────────────────────────

  /** Sixteen bytes that tell the usable nonces apart. */
  function Stamp(n: nat): (s: bytes)
    ensures |s| == TAG
  {
    Be32(n / 0x1_0000_0000 % 0x1_0000_0000) + Be32(n % 0x1_0000_0000) + Repeat(0 as byte, 8)
  }

  lemma StampInjective(n: nat, k: nat)
    requires n < MAX_NONCE && k < MAX_NONCE && Stamp(n) == Stamp(k)
    ensures n == k
  {
    StampParts(n);
    StampParts(k);
  }

  lemma StampParts(n: nat)
    requires n < MAX_NONCE
    ensures n == Val32(Stamp(n)[..4]) * 0x1_0000_0000 + Val32(Stamp(n)[4..8])
  {
    var high, low := n / 0x1_0000_0000, n % 0x1_0000_0000;
    Be32RoundTrip(high);
    Be32RoundTrip(low);
    assert Stamp(n)[..4] == Be32(high);
    assert Stamp(n)[4..8] == Be32(low);
  }

  function StampCipher(maxPlain: nat): Cipher
  {
    Cipher((n: nat, p: bytes) => Stamp(n) + p,
           (n: nat, s: bytes) => if |s| >= TAG && s[..TAG] == Stamp(n) then Some(s[TAG..]) else None,
           maxPlain)
  }

  /** The idealisation is consistent: there are ciphers like that, whatever plaintexts they accept. */
  lemma StampCipherIsAead(maxPlain: nat)
    ensures Aead(StampCipher(maxPlain)) && StampCipher(maxPlain).maxPlain == maxPlain
  {
    var c := StampCipher(maxPlain);
    forall n: nat, p: bytes | n < MAX_NONCE
      ensures |c.seal(n, p)| == |p| + TAG && c.open(n, c.seal(n, p)) == Some(p)
    {
      assert c.seal(n, p)[..TAG] == Stamp(n) && c.seal(n, p)[TAG..] == p;
    }
    forall n: nat, k: nat, p: bytes | n < MAX_NONCE && k < MAX_NONCE && k != n
      ensures c.open(k, c.seal(n, p)) == None
    {
      assert c.seal(n, p)[..TAG] == Stamp(n);
      if Stamp(n) == Stamp(k) {
        StampInjective(n, k);
      }
    }
  }

  // ── Sending ───────────────────────────────────────────────────────────────

  datatype SendError =
    NotHandshaken | TypeTooLarge | LengthTooLarge | CipherRefused | NonceExhausted | CiphertextTooLarge

  datatype Encoding = Frame(bytes: bytes) | Failed(error: SendError)

  function Plain(msgType: nat, payload: bytes): bytes
    requires msgType < 0x1_0000 && |payload| < 0x1_0000
  {
    Be16(msgType) + Be16(|payload|) + payload
  }

  /** The outcome of encode, and whether the cipher's nonce advanced. */
  datatype Attempt = Attempt(result: Encoding, advanced: bool)

  function Encode(c: Cipher, handshaken: bool, nonce: nat, msgType: nat, payload: bytes): Attempt
  {
    if !handshaken then Attempt(Failed(NotHandshaken), false)
    else if msgType > 0xFFFF then Attempt(Failed(TypeTooLarge), false)
    else if |payload| > 0xFFFF then Attempt(Failed(LengthTooLarge), false)
    else if 4 + |payload| > c.maxPlain then Attempt(Failed(CipherRefused), false)
    else if nonce >= MAX_NONCE then Attempt(Failed(NonceExhausted), false)
    else
      var ciphertext := c.seal(nonce, Plain(msgType, payload));
      if |ciphertext| > 0xFFFF then Attempt(Failed(CiphertextTooLarge), true)
      else Attempt(Frame([0x01] + Be16(|ciphertext|) + ciphertext), true)
  }

  /**
   * A frame is 01, the length of the ciphertext and the ciphertext of type, length and payload, with
   * two-byte big-endian numbers.
   */
  lemma FrameLayout(c: Cipher, nonce: nat, msgType: nat, payload: bytes)
    requires Encode(c, true, nonce, msgType, payload).result.Frame?
    ensures var f := Encode(c, true, nonce, msgType, payload).result.bytes;
            |f| >= 3 && f[0] == 0x01 && 0x100 * f[1] as int + f[2] as int == |f| - 3 &&
            exists p :: f[3..] == c.seal(nonce, p) && IsPlain(p, msgType, payload)
  {
    var p := Plain(msgType, payload);
    var f := Encode(c, true, nonce, msgType, payload).result.bytes;
    assert f[3..] == c.seal(nonce, p);
    assert p[4..] == payload;
    assert IsPlain(p, msgType, payload);
  }

  predicate IsPlain(p: bytes, msgType: nat, payload: bytes)
  {
    |p| >= 4 && 0x100 * p[0] as int + p[1] as int == msgType && 0x100 * p[2] as int + p[3] as int == |payload| &&
    p[4..] == payload
  }

  /** What the cipher is asked to encrypt, and does. */
  predicate Accepts(c: Cipher, handshaken: bool, nonce: nat, msgType: nat, payload: bytes)
  {
    handshaken && nonce < MAX_NONCE && msgType <= 0xFFFF && |payload| <= 0xFFFF && 4 + |payload| <= c.maxPlain
  }

  /** A frame comes out exactly for accepted payloads of up to 65515 bytes. */
  lemma EncodesIff(c: Cipher, handshaken: bool, nonce: nat, msgType: nat, payload: bytes)
    requires Tagged(c)
    ensures Encode(c, handshaken, nonce, msgType, payload).result.Frame? <==>
            Accepts(c, handshaken, nonce, msgType, payload) && |payload| <= 65515
  {
  }

  /**
   * A nonce is spent without a frame exactly on accepted payloads over 65515 bytes: with a cipher
   * that keeps ciphertexts within 65535 bytes there are none.
   */
  lemma NonceBurnedIff(c: Cipher, handshaken: bool, nonce: nat, msgType: nat, payload: bytes)
    requires Tagged(c)
    ensures var e := Encode(c, handshaken, nonce, msgType, payload);
            var burned := e.advanced && e.result.Failed?;
            (burned <==> Accepts(c, handshaken, nonce, msgType, payload) && |payload| > 65515) &&
            (c.maxPlain <= 65519 ==> !burned)
  {
  }

  // ── Receiving ─────────────────────────────────────────────────────────────

  /** One frame received under a nonce; None for anything that raises or is cut short. */
  function ReadNoise(c: Cipher, nonce: nat, s: bytes): (r: Option<(Received, nat)>)
    ensures r.Some? ==> 0 < r.value.1 <= |s|
  {
    if nonce >= MAX_NONCE || |s| < 3 || s[0] != 0x01 then None
    else
      var length := Val16(s[1..3]);
      if 3 + length > |s| then None
      else
        match c.open(nonce, s[3..3 + length])
        case None => None
        case Some(plain) =>
          if |plain| < 4 then None
          else
            var dataLen := Val16(plain[2..4]);
            if dataLen > |plain| - 4 then None
            else Some((Received(Val16(plain[..2]), plain[4..4 + dataLen]), 3 + length))
  }

  method ReadNoiseFrom(c: Cipher, nonce: nat, reader: StreamReader) returns (r: Option<(Received, nat)>)
    requires reader.Valid()
    modifies reader`pos
    ensures reader.Valid()
    ensures r == ReadNoise(c, nonce, old(reader.Rest()))
    ensures r.Some? ==> reader.Rest() == old(reader.Rest())[r.value.1..]
  {
    ghost var s := reader.Rest();
    var header := reader.ReadExactly(3);
    if header.None? || header.value[0] != 0x01 {
      return None;
    }
    var length := Val16(header.value[1..3]);
    FrameNext(s, length);
    var ciphertext := reader.ReadExactly(length);
    if ciphertext.None? {
      return None;
    }
    if nonce >= MAX_NONCE {
      return None;
    }
    var plain := c.open(nonce, ciphertext.value);
    if plain.None? || |plain.value| < 4 {
      return None;
    }
    var dataLen := Val16(plain.value[2..4]);
    if dataLen > |plain.value| - 4 {
      return None;
    }
    return Some((Received(Val16(plain.value[..2]), plain.value[4..4 + dataLen]), 3 + length));
  }

  lemma FrameNext(s: bytes, length: nat)
    requires |s| >= 3
    ensures s[..3][1..3] == s[1..3]
    ensures 3 + length <= |s| ==> s[3..][..length] == s[3..3 + length] && s[3..][length..] == s[3 + length..]
  {
  }

  /**
   * A read gives a message exactly if a whole frame begins the stream, its ciphertext opens, and the
   * length inside leaves room; the message is then the bytes at that place, and the rest is left.
   */
  lemma ReadNoiseIff(c: Cipher, nonce: nat, s: bytes)
    ensures ReadNoise(c, nonce, s).Some? <==>
            nonce < MAX_NONCE && |s| >= 3 && s[0] == 0x01 && 3 + 0x100 * s[1] as int + s[2] as int <= |s| &&
            var plain := c.open(nonce, s[3..3 + 0x100 * s[1] as int + s[2] as int]);
            plain.Some? && |plain.value| >= 4 &&
            4 + 0x100 * plain.value[2] as int + plain.value[3] as int <= |plain.value|
    ensures ReadNoise(c, nonce, s).Some? ==>
              var (m, used) := ReadNoise(c, nonce, s).value;
              used == 3 + 0x100 * s[1] as int + s[2] as int &&
              IsOpened(c.open(nonce, s[3..used]), m)
  {
  }

  /** The plaintext says type, length and then payload, and may go on behind it. */
  predicate IsOpened(plain: Option<bytes>, m: Received)
  {
    plain.Some? && |plain.value| >= 4 + |m.payload| &&
    0x100 * plain.value[0] as int + plain.value[1] as int == m.msgType &&
    0x100 * plain.value[2] as int + plain.value[3] as int == |m.payload| &&
    plain.value[4..4 + |m.payload|] == m.payload
  }

  /** What a peer counting nonces from `nonce` recovers from the wire. */
  function PeerReads(c: Cipher, nonce: nat, s: bytes): seq<Received>
    decreases |s|
  {
    match ReadNoise(c, nonce, s)
    case None => []
    case Some((message, used)) => [message] + PeerReads(c, nonce + 1, s[used..])
  }

  lemma FrameParts(ct: bytes, tail: bytes)
    requires |ct| < 0x1_0000
    ensures var s := [0x01] + Be16(|ct|) + ct + tail;
            |s| >= 3 && s[0] == 0x01 && s[1..3] == Be16(|ct|) && s[3..3 + |ct|] == ct && s[3 + |ct|..] == tail
  {
    var s := [0x01] + Be16(|ct|) + ct + tail;
    assert s[3..3 + |ct|] == ct;
    assert s[1..3] == Be16(|ct|);
  }

  lemma PlainParts(msgType: nat, payload: bytes)
    requires msgType < 0x1_0000 && |payload| < 0x1_0000
    ensures var p := Plain(msgType, payload);
            |p| == 4 + |payload| && Val16(p[..2]) == msgType && Val16(p[2..4]) == |payload| && p[4..] == payload
  {
    var p := Plain(msgType, payload);
    assert p[..2] == Be16(msgType) && p[2..4] == Be16(|payload|);
  }

  /** Under the sender's nonce a frame gives back its message; under any other it gives nothing. */
  lemma FrameReadBack(c: Cipher, nonce: nat, msgType: nat, payload: bytes, at: nat, tail: bytes)
    requires Aead(c) && Encode(c, true, nonce, msgType, payload).result.Frame?
    ensures var f := Encode(c, true, nonce, msgType, payload).result.bytes;
            PeerReads(c, at, f + tail) ==
              if at == nonce then [Received(msgType, payload)] + PeerReads(c, nonce + 1, tail) else []
  {
    var plain := Plain(msgType, payload);
    var ct := c.seal(nonce, plain);
    FrameParts(ct, tail);
    PlainParts(msgType, payload);
    assert plain[4..4 + |payload|] == plain[4..];
  }

  // ── Sizes through the whole stack ─────────────────────────────────────────

  /** BleServerSendFrameRequest(data).SerializeToString(): field 1, bytes; omitted when empty. */
  function WrapBytes(data: bytes): bytes
  {
    if data == [] then [] else [0x0A] + VarintBytes(|data|) + data
  }

  /** A short packet in its request, which is message 151: the field's tag, the length, the packet. */
  lemma WrapLayout(data: bytes)
    requires 0 < |data| < 128
    ensures WrapBytes(data) == [0x0A, |data|] + data && WrapBytes([]) == [] && SEND_FRAME_REQUEST == 151
  {
    VarintLayout(|data|);
  }

  lemma VarintSizes(n: nat)
    ensures |VarintBytes(n)| == 1 <==> n < 0x80
    ensures |VarintBytes(n)| == 2 <==> 0x80 <= n < 0x4000
    ensures |VarintBytes(n)| == 3 <==> 0x4000 <= n < 0x20_0000
  {
    assert n > 0x7F ==> |VarintBytes(n)| == 1 + |VarintBytes(n / 0x80)|;
    assert n / 0x80 > 0x7F ==> |VarintBytes(n / 0x80)| == 1 + |VarintBytes(n / 0x80 / 0x80)|;
    assert n / 0x80 / 0x80 == n / 0x4000;
    assert n / 0x4000 > 0x7F ==> |VarintBytes(n / 0x4000)| == 1 + |VarintBytes(n / 0x4000 / 0x80)|;
  }

  /**
   * A packet passes exactly up to 65511 bytes, though the packet format allows 65549. The sizes
   * just above are worse than refused: they spend a nonce, as far as the cipher encrypts them.
   */
  lemma PacketSizeLimit(c: Cipher, nonce: nat, packet: bytes)
    requires Tagged(c) && c.maxPlain >= 65519
    ensures var e := Encode(c, true, nonce, SEND_FRAME_REQUEST, WrapBytes(packet));
            (e.result.Frame? <==> nonce < MAX_NONCE && |packet| <= 65511) &&
            (e.advanced && e.result.Failed? <==>
              nonce < MAX_NONCE && 65512 <= |packet| <= 65531 && |packet| <= c.maxPlain - 8)
  {
    VarintSizes(|packet|);
  }

  /** In terms of the encoder's payload: accepted up to 65535 bytes, carried up to 65497. */
  lemma PayloadSizeLimit(c: Cipher, nonce: nat, passcode: nat, cmd: nat, payload: bytes)
    requires Tagged(c) && c.maxPlain >= 65519 && passcode < 0x1_0000_0000 && cmd < 256 && |payload| <= 65535
    ensures EncodePacket(passcode, cmd, payload, 0).Encoded?
    ensures var packet := EncodePacket(passcode, cmd, payload, 0).packet;
            Encode(c, true, nonce, SEND_FRAME_REQUEST, WrapBytes(packet)).result.Frame? <==>
              nonce < MAX_NONCE && |payload| <= 65497
  {
    PacketSizeLimit(c, nonce, EncodePacket(passcode, cmd, payload, 0).packet);
  }
}
