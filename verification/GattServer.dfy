/** The native BLE GATT server (ble_gatt_server.py, HaBleGattServer), one atomic step at a time. */
module GattServer {
  import opened Bytes
  import opened BleChunks
  import opened Packet

  const QUEUE_SIZE := 256
  const CHUNK_SIZE := 244

  /** A callback handed to the event loop with call_soon_threadsafe. */
  datatype Callback = OnConnect | OnDisconnect | OnFrame(frame: bytes)

  datatype Gatt = Gatt(
    loopSet: bool,             // start() has run
    serverUp: bool,            // _run has created the bless server
    connected: bool,
    rxBuf: bytes,
    txQueue: seq<bytes>,
    prevConnected: set<string>,
    scheduled: seq<Callback>)

  const CREATED := Gatt(false, false, false, [], [], {}, [])

  predicate Valid(g: Gatt)
  {
    |g.txQueue| <= QUEUE_SIZE && (g.connected ==> g.loopSet) && (g.txQueue != [] ==> g.connected)
  }

  // ── What each step does ───────────────────────────────────────────────────

  /** The chunks of a frame that find room in the queue. */
  function Admitted(g: Gatt, data: bytes): seq<bytes>
    requires Valid(g)
  {
    var chunks, free := Chunks(data, CHUNK_SIZE), QUEUE_SIZE - |g.txQueue|;
    if |chunks| <= free then chunks else chunks[..free]
  }

  predicate CanSend(g: Gatt)
  {
    g.connected && g.serverUp
  }

  function AfterSend(g: Gatt, data: bytes): Gatt
    requires Valid(g)
  {
    if CanSend(g) then g.(txQueue := g.txQueue + Admitted(g, data)) else g
  }

  predicate SendAccepted(g: Gatt, data: bytes)
    requires Valid(g)
  {
    CanSend(g) && Admitted(g, data) == Chunks(data, CHUNK_SIZE)
  }

  function AfterWrite(g: Gatt, value: bytes): Gatt
  {
    if value == [] then g
    else
      var buffer := g.rxBuf + value[1..];
      if value[0] != FINAL then g.(rxBuf := buffer)
      else if !g.loopSet then g.(rxBuf := [])
      else g.(rxBuf := [], connected := true,
              scheduled := g.scheduled + (if g.connected then [] else [OnConnect]) + [OnFrame(buffer)])
  }

  function AfterMarkDisconnected(g: Gatt): Gatt
  {
    if !g.connected then g
    else g.(connected := false, txQueue := [], scheduled := g.scheduled + [OnDisconnect])
  }

  /** How an attempt to notify one chunk ends. */
  datatype Notify = Delivered | NoSubscribers | NoCharacteristic | Raised

  /** One round of the TX worker; it waits while the queue is empty. */
  function AfterTick(g: Gatt, outcome: Notify): Gatt
  {
    if g.txQueue == [] then g
    else
      var g1 := g.(txQueue := g.txQueue[1..]);
      if g.serverUp && g.connected && outcome == NoSubscribers then AfterMarkDisconnected(g1) else g1
  }

  /** One poll of the connected devices. */
  function AfterPoll(g: Gatt, macs: set<string>): Gatt
  {
    (if g.prevConnected != {} && macs == {} && g.connected then AfterMarkDisconnected(g) else g)
    .(prevConnected := macs)
  }

  // ── The server of the source ──────────────────────────────────────────────

  class HaBleGattServer {
    var loopSet: bool
    var serverUp: bool
    var connected: bool
    var rxBuf: bytes
    var txQueue: seq<bytes>
    var prevConnected: set<string>
    var scheduled: seq<Callback>

    function State(): Gatt
      reads this
    {
      Gatt(loopSet, serverUp, connected, rxBuf, txQueue, prevConnected, scheduled)
    }

    constructor ()
      ensures State() == CREATED
    {
      loopSet, serverUp, connected := false, false, false;
      rxBuf, txQueue, prevConnected, scheduled := [], [], {}, [];
    }

    method Start()
      modifies this`loopSet
      ensures State() == old(State()).(loopSet := true)
    {
      loopSet := true;
    }

    method CreateServer()
      modifies this`serverUp
      ensures State() == old(State()).(serverUp := true)
    {
      serverUp := true;
    }

    method SendFrame(data: bytes) returns (accepted: bool)
      requires Valid(State())
      modifies this`txQueue
      ensures State() == AfterSend(old(State()), data)
      ensures accepted == SendAccepted(old(State()), data)
    {
      if !connected || !serverUp {
        return false;
      }
      var chunks := EncodeChunks(data, CHUNK_SIZE);
      for i := 0 to |chunks|
        invariant i <= QUEUE_SIZE - |old(txQueue)|
        invariant txQueue == old(txQueue) + chunks[..i]
      {
        if |txQueue| == QUEUE_SIZE {
          return false;
        }
        txQueue := txQueue + [chunks[i]];
      }
      assert chunks[..|chunks|] == chunks;
      return true;
    }

    method HandleWrite(value: bytes)
      modifies this
      ensures State() == AfterWrite(old(State()), value)
    {
      if value == [] {
        return;
      }
      rxBuf := rxBuf + value[1..];
      if value[0] == FINAL {
        var frame := rxBuf;
        rxBuf := [];
        if !loopSet {
          return;
        }
        if !connected {
          connected := true;
          scheduled := scheduled + [OnConnect];
        }
        scheduled := scheduled + [OnFrame(frame)];
      }
    }

    method MarkDisconnected()
      requires connected ==> loopSet
      modifies this
      ensures State() == AfterMarkDisconnected(old(State()))
    {
      if !connected {
        return;
      }
      connected := false;
      while txQueue != []
        modifies this`txQueue
      {
        txQueue := txQueue[1..];
      }
      scheduled := scheduled + [OnDisconnect];
    }

    method TxTick(outcome: Notify)
      requires Valid(State()) && txQueue != []
      modifies this
      ensures State() == AfterTick(old(State()), outcome)
    {
      txQueue := txQueue[1..];
      if !serverUp || !connected {
        return;
      }
      if outcome == NoSubscribers && connected {
        MarkDisconnected();
      }
    }

    method Poll(macs: set<string>)
      requires Valid(State())
      modifies this
      ensures State() == AfterPoll(old(State()), macs)
    {
      if prevConnected != {} && macs == {} && connected {
        MarkDisconnected();
      }
      prevConnected := macs;
    }

    /** The event loop takes the oldest callback. */
    method NextCallback() returns (c: Callback)
      requires scheduled != []
      modifies this`scheduled
      ensures c == old(scheduled)[0] && State() == old(State()).(scheduled := old(scheduled)[1..])
    {
      c := scheduled[0];
      scheduled := scheduled[1..];
    }
  }

  // ── Capacity ──────────────────────────────────────────────────────────────

  /** Accepted exactly when a client and the server are there and every chunk finds a slot. */
  lemma SendAcceptedIff(g: Gatt, data: bytes)
    requires Valid(g)
    ensures SendAccepted(g, data) <==> g.connected && g.serverUp && (|data| + 243) / 244 <= 256 - |g.txQueue|
  {
    ChunkCount(data, CHUNK_SIZE);
    var chunks, free := Chunks(data, CHUNK_SIZE), QUEUE_SIZE - |g.txQueue|;
    assert |chunks| > free ==> |chunks[..free]| < |chunks|;
  }

  /**
   * A refused frame leaves exactly the free slots' worth of leading chunks behind, every one
   * of them flagged as continuing: the receiver will prepend them to the frame that follows.
   */
  lemma RefusedFrameLeavesPrefix(g: Gatt, data: bytes, rx: Rx)
    requires Valid(g) && CanSend(g) && !SendAccepted(g, data)
    ensures var free := 256 - |g.txQueue|;
            AfterSend(g, data).txQueue == g.txQueue + Chunks(data, 244)[..free] &&
            |AfterSend(g, data).txQueue| == 256 && free * 244 < |data| && NoFinal(Admitted(g, data)) &&
            Reassemble(rx, Admitted(g, data)) == Rx(rx.frames, rx.buffer + data[..free * 244])
  {
    var free := QUEUE_SIZE - |g.txQueue|;
    ChunkCount(data, CHUNK_SIZE);
    SomeChunksBuffered(rx, data, CHUNK_SIZE, free);
  }

  /** However empty the queue, no frame over 62464 bytes is ever accepted, and up to that one can be. */
  lemma LargestAcceptedFrame(g: Gatt, data: bytes)
    requires Valid(g)
    ensures SendAccepted(g, data) ==> |data| <= 62464
    ensures CanSend(g) && g.txQueue == [] ==> (SendAccepted(g, data) <==> |data| <= 62464)
  {
    SendAcceptedIff(g, data);
  }

  /** In terms of the encoder's payload: encoded up to 65535 bytes, queued up to 62450. */
  lemma LargestAcceptedPayload(g: Gatt, passcode: nat, cmd: nat, payload: bytes)
    requires Valid(g) && passcode < 0x1_0000_0000 && cmd < 256 && |payload| <= 65535
    ensures EncodePacket(passcode, cmd, payload, 0).Encoded?
    ensures var packet := EncodePacket(passcode, cmd, payload, 0).packet;
            (SendAccepted(g, packet) ==> |payload| <= 62450) &&
            (CanSend(g) && g.txQueue == [] ==> (SendAccepted(g, packet) <==> |payload| <= 62450))
  {
    LargestAcceptedFrame(g, EncodePacket(passcode, cmd, payload, 0).packet);
  }
}
