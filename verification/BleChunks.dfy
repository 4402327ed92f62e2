/** BLE chunking and reassembly (protocol.py, ble_gatt_server.py). */
module BleChunks {
  import opened Bytes

  const CONTINUES: byte := 0x00
  const FINAL: byte := 0x01

  // ── Splitting ─────────────────────────────────────────────────────────────

  function Chunks(data: bytes, size: nat): seq<bytes>
    requires size > 0
    decreases |data|
  {
    if data == [] then []
    else if |data| <= size then [[FINAL] + data]
    else [[CONTINUES] + data[..size]] + Chunks(data[size..], size)
  }

  lemma NextChunk(data: bytes, size: nat, offset: nat)
    requires size > 0 && offset < |data|
    ensures var end := if offset + size < |data| then offset + size else |data|;
            var flag := if end == |data| then FINAL else CONTINUES;
            Chunks(data[offset..], size) == [[flag] + data[offset..end]] + Chunks(data[end..], size)
  {
    var rest := data[offset..];
    if offset + size < |data| {
      assert rest[..size] == data[offset..offset + size] && rest[size..] == data[offset + size..];
    } else {
      assert data[offset..|data|] == rest && data[|data|..] == [];
    }
  }

  lemma Regrouped(chunks: seq<bytes>, chunk: bytes, more: seq<bytes>)
    ensures chunks + ([chunk] + more) == chunks + [chunk] + more
  {
  }

  /** encode_ble_chunks with size 508, _encode_chunks with size 244. */
  method EncodeChunks(data: bytes, size: nat) returns (chunks: seq<bytes>)
    requires size > 0
    ensures chunks == Chunks(data, size)
  {
    chunks := [];
    var offset := 0;
    assert data[0..] == data;
    while offset < |data|
      invariant offset <= |data|
      invariant chunks + Chunks(data[offset..], size) == Chunks(data, size)
    {
      var end := if offset + size < |data| then offset + size else |data|;
      var flag := if end == |data| then FINAL else CONTINUES;
      NextChunk(data, size, offset);
      Regrouped(chunks, [flag] + data[offset..end], Chunks(data[end..], size));
      chunks := chunks + [[flag] + data[offset..end]];
      offset := end;
    }
    assert data[offset..] == [];
  }

  /** decode_ble_chunks: the payloads joined, flags dropped. */
  function DecodeBleChunks(chunks: seq<bytes>): bytes
  {
    if chunks == [] then []
    else (if chunks[0] == [] then [] else chunks[0][1..]) + DecodeBleChunks(chunks[1..])
  }

  lemma {:induction false} DecodeAppend(a: seq<bytes>, b: seq<bytes>)
    ensures DecodeBleChunks(a + b) == DecodeBleChunks(a) + DecodeBleChunks(b)
  {
    if a == [] {
      assert a + b == b;
    } else {
      assert (a + b)[1..] == a[1..] + b;
      DecodeAppend(a[1..], b);
    }
  }

  lemma DecodeOne(w: bytes)
    ensures DecodeBleChunks([w]) == if w == [] then [] else w[1..]
  {
    assert [w] == [w] + [];
    assert DecodeBleChunks([w][1..]) == [];
  }

  lemma {:induction false} ChunksDecoded(data: bytes, size: nat)
    requires size > 0
    ensures DecodeBleChunks(Chunks(data, size)) == data
    decreases |data|
  {
    if 0 < |data| <= size {
      assert Chunks(data, size)[1..] == [];
    } else if data != [] {
      ChunksDecoded(data[size..], size);
      assert data == data[..size] + data[size..];
    }
  }

  /** Every chunk but the last is full and says 00, that more follow; the last is not empty and says 01. */
  lemma {:induction false} ChunkShape(data: bytes, size: nat, i: nat)
    requires size > 0 && i < |Chunks(data, size)|
    ensures var c, last := Chunks(data, size)[i], i == |Chunks(data, size)| - 1;
            1 < |c| <= 1 + size && (!last ==> |c| == 1 + size) && c[0] == if last then 0x01 else 0x00
    decreases |data|
  {
    if |data| > size && i > 0 {
      ChunkShape(data[size..], size, i - 1);
    } else if |data| > size {
      assert |Chunks(data[size..], size)| > 0;
    }
  }

  /** There are ceil(|data| / size) chunks. */
  lemma {:induction false} ChunkCount(data: bytes, size: nat)
    requires size > 0
    ensures |Chunks(data, size)| == (|data| + size - 1) / size
    decreases |data|
  {
    if data == [] {
      DivMod(size - 1, size, 0, size - 1);
    } else if |data| <= size {
      DivMod(|data| + size - 1, size, 1, |data| - 1);
    } else {
      ChunkCount(data[size..], size);
      var n := |data| - 1;
      DivMod(n + size, size, n / size + 1, n % size);
    }
  }

  // ── Reassembly ────────────────────────────────────────────────────────────

  /** What a receiver has completed so far, and the payload of the frame in progress. */
  datatype Rx = Rx(frames: seq<bytes>, buffer: bytes)

  /** One write: the payload is appended, and a final flag completes the frame. */
  function Receive(rx: Rx, write: bytes): Rx
  {
    if write == [] then rx
    else
      var buffer := rx.buffer + write[1..];
      if write[0] == FINAL then Rx(rx.frames + [buffer], []) else Rx(rx.frames, buffer)
  }

  function Reassemble(rx: Rx, writes: seq<bytes>): Rx
  {
    if writes == [] then rx
    else Receive(Reassemble(rx, writes[..|writes| - 1]), writes[|writes| - 1])
  }

  lemma ReassembleOne(rx: Rx, writes: seq<bytes>, w: bytes)
    ensures Reassemble(rx, writes + [w]) == Receive(Reassemble(rx, writes), w)
  {
    assert (writes + [w])[..|writes|] == writes;
  }

  lemma {:induction false} ReassembleAppend(rx: Rx, a: seq<bytes>, b: seq<bytes>)
    ensures Reassemble(rx, a + b) == Reassemble(Reassemble(rx, a), b)
    decreases |b|
  {
    if b == [] {
      assert a + b == a;
    } else {
      var n := |b| - 1;
      ReassembleAppend(rx, a, b[..n]);
      assert a + b == (a + b[..n]) + [b[n]];
      ReassembleOne(rx, a + b[..n], b[n]);
    }
  }

  lemma ReassembleFirst(rx: Rx, w: bytes, writes: seq<bytes>)
    ensures Reassemble(rx, [w] + writes) == Reassemble(Receive(rx, w), writes)
  {
    ReassembleAppend(rx, [w], writes);
    ReassembleOne(rx, [], w);
    assert [] + [w] == [w];
  }

  predicate NoFinal(writes: seq<bytes>)
  {
    forall i :: 0 <= i < |writes| && |writes[i]| > 0 ==> writes[i][0] != FINAL
  }

  lemma {:induction false} NoFinalBuffers(rx: Rx, writes: seq<bytes>)
    requires NoFinal(writes)
    ensures Reassemble(rx, writes) == Rx(rx.frames, rx.buffer + DecodeBleChunks(writes))
  {
    if writes == [] {
      assert rx.buffer + DecodeBleChunks(writes) == rx.buffer;
    } else {
      var n := |writes| - 1;
      NoFinalBuffers(rx, writes[..n]);
      DecodeAppend(writes[..n], [writes[n]]);
      assert writes == writes[..n] + [writes[n]];
      DecodeOne(writes[n]);
    }
  }

  /** A delivered frame is the payloads written since the previous final write, joined. */
  lemma FrameIsItsSegment(rx: Rx, writes: seq<bytes>, last: bytes)
    requires NoFinal(writes) && last != [] && last[0] == FINAL
    ensures Reassemble(rx, writes + [last])
         == Rx(rx.frames + [rx.buffer + DecodeBleChunks(writes + [last])], [])
  {
    NoFinalBuffers(rx, writes);
    ReassembleOne(rx, writes, last);
    DecodeAppend(writes, [last]);
    assert rx.buffer + DecodeBleChunks(writes) + last[1..] == rx.buffer + (DecodeBleChunks(writes) + last[1..]);
    DecodeOne(last);
  }

  /** All the chunks of a message complete it, behind whatever was already buffered. */
  lemma ChunksReassembled(rx: Rx, data: bytes, size: nat)
    requires size > 0 && data != []
    ensures Reassemble(rx, Chunks(data, size)) == Rx(rx.frames + [rx.buffer + data], [])
  {
    var c := Chunks(data, size);
    var n := |c| - 1;
    forall i | 0 <= i < |c|
      ensures c[i] != [] && c[i][0] == if i == n then FINAL else CONTINUES
    {
      ChunkShape(data, size, i);
    }
    assert c == c[..n] + [c[n]];
    FrameIsItsSegment(rx, c[..n], c[n]);
    ChunksDecoded(data, size);
  }

  /** Some but not all chunks of a message only lengthen the buffer, by whole chunk payloads. */
  lemma SomeChunksBuffered(rx: Rx, data: bytes, size: nat, k: nat)
    requires size > 0 && k < |Chunks(data, size)|
    ensures NoFinal(Chunks(data, size)[..k])
    ensures k * size <= |data|
    ensures Reassemble(rx, Chunks(data, size)[..k]) == Rx(rx.frames, rx.buffer + data[..k * size])
  {
    var c := Chunks(data, size);
    forall i | 0 <= i < k
      ensures c[i] != [] && c[i][0] != FINAL
    {
      ChunkShape(data, size, i);
    }
    NoFinalBuffers(rx, c[..k]);
    LeadingChunks(data, size, k);
  }

  lemma {:induction false} LeadingChunks(data: bytes, size: nat, k: nat)
    requires size > 0 && k < |Chunks(data, size)|
    ensures k * size <= |data|
    ensures DecodeBleChunks(Chunks(data, size)[..k]) == data[..k * size]
    decreases k
  {
    if k == 0 {
    } else {
      var rest := data[size..];
      LeadingChunks(rest, size, k - 1);
      assert k * size == size + (k - 1) * size;
      assert Chunks(data, size)[..k] == [[CONTINUES] + data[..size]] + Chunks(rest, size)[..k - 1];
      assert data[..k * size] == data[..size] + rest[..(k - 1) * size];
    }
  }

  // ── Whole conversations ───────────────────────────────────────────────────

  /** Messages chunked one after another, each at a chunk size of its own. */
  function Sent(messages: seq<bytes>, sizes: seq<nat>): seq<bytes>
    requires |messages| == |sizes| && forall i :: 0 <= i < |sizes| ==> sizes[i] > 0
  {
    if messages == [] then []
    else
      var n := |messages| - 1;
      Sent(messages[..n], sizes[..n]) + Chunks(messages[n], sizes[n])
  }

  /** Non-empty messages, chunked at any sizes, come out of an empty buffer unchanged and in order. */
  lemma {:induction false} ConversationDelivered(messages: seq<bytes>, sizes: seq<nat>)
    requires |messages| == |sizes|
    requires forall i :: 0 <= i < |messages| ==> messages[i] != [] && sizes[i] > 0
    ensures Reassemble(Rx([], []), Sent(messages, sizes)) == Rx(messages, [])
  {
    if messages == [] {
    } else {
      var n := |messages| - 1;
      ConversationDelivered(messages[..n], sizes[..n]);
      MessageDelivered(Sent(messages[..n], sizes[..n]), messages[..n], messages[n], sizes[n]);
      LastMessage(messages);
    }
  }

  lemma LastMessage(messages: seq<bytes>)
    requires messages != []
    ensures messages[..|messages| - 1] + [messages[|messages| - 1]] == messages
  {
  }

  lemma MessageDelivered(writes: seq<bytes>, frames: seq<bytes>, data: bytes, size: nat)
    requires size > 0 && data != [] && Reassemble(Rx([], []), writes) == Rx(frames, [])
    ensures Reassemble(Rx([], []), writes + Chunks(data, size)) == Rx(frames + [data], [])
  {
    ReassembleAppend(Rx([], []), writes, Chunks(data, size));
    ChunksReassembled(Rx(frames, []), data, size);
    assert [] + data == data;
  }

  /** More writes never change the frames already delivered. */
  lemma {:induction false} FramesGrow(rx: Rx, writes: seq<bytes>)
    ensures rx.frames <= Reassemble(rx, writes).frames
    decreases |writes|
  {
    if writes == [] {
    } else {
      FramesGrow(rx, writes[..|writes| - 1]);
    }
  }

  lemma PrefixDelivers(rx: Rx, part: seq<bytes>, whole: seq<bytes>)
    requires part <= whole
    ensures Reassemble(rx, part).frames <= Reassemble(rx, whole).frames
  {
    assert whole == part + whole[|part|..];
    ReassembleAppend(rx, part, whole[|part|..]);
    FramesGrow(Reassemble(rx, part), whole[|part|..]);
  }
}
