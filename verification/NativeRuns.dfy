/**
 * Whole runs of the native server (ble_gatt_server.py): the GATT server, the event loop's
 * deferred callbacks and the dispatcher, interleaved in any order up to stop().
 */
module NativeRuns {
  import opened Bytes
  import opened BleChunks
  import opened GattServer
  import D = Dispatcher

  // ── Steps ─────────────────────────────────────────────────────────────────

  datatype Event =
    | Start
    | CreateServer
    | Write(value: bytes)
    | Send(data: bytes)
    | Tick(outcome: Notify)
    | Poll(macs: set<string>)
    | RunCallback

  /** A chunk given to update_value, with the connection it was queued in and that it was given in. */
  datatype Given = Given(chunk: bytes, queuedIn: nat, givenIn: nat)

  /** A send_frame on a live connection: how many of its chunks were queued, and its result. */
  datatype Attempt = Attempt(data: bytes, kept: nat, accepted: bool)

  /** What has happened; log, received and lost concern the current connection only. */
  datatype History = History(
    epoch: nat,
    tags: seq<nat>,
    given: seq<Given>,
    log: seq<Attempt>,
    received: seq<bytes>,
    lost: bool,
    frames: seq<bytes>,
    incoming: seq<bytes>)

  datatype World = World(gatt: Gatt, client: D.Client, past: History)

  const BEGIN := World(CREATED, D.NO_CLIENT, History(0, [], [], [], [], false, [], []))

  function OnCallback(client: D.Client, c: Callback): D.Client
  {
    match c
    case OnConnect => D.OnConnected(client)
    case OnDisconnect => D.OnDisconnected(client)
    case OnFrame(_) => client
  }

  function Step(w: World, e: Event): World
    requires Inv(w)
  {
    var g, h := w.gatt, w.past;
    match e
    case Start => w.(gatt := g.(loopSet := true))
    case CreateServer => w.(gatt := g.(serverUp := true))
    case Write(value) =>
      var g1 := AfterWrite(g, value);
      var h1 := if g1.connected && !g.connected
                then h.(epoch := h.epoch + 1, log := [], received := [], lost := false) else h;
      var done := g.loopSet && value != [] && value[0] == FINAL;
      w.(gatt := g1, past := h1.(frames := h.frames + if done then [g.rxBuf + value[1..]] else []))
    case Send(data) =>
      if !CanSend(g) then w
      else
        var n := |Admitted(g, data)|;
        w.(gatt := AfterSend(g, data),
           past := h.(tags := h.tags + Repeat(h.epoch, n),
                      log := h.log + [Attempt(data, n, SendAccepted(g, data))]))
    case Tick(outcome) =>
      if g.txQueue == [] then w
      else
        var g1, chunk := AfterTick(g, outcome), g.txQueue[0];
        w.(gatt := g1,
           past := h.(tags := if g1.connected then h.tags[1..] else [],
                      given := h.given + if outcome.NoCharacteristic? then [] else [Given(chunk, h.tags[0], h.epoch)],
                      received := h.received + if outcome.Delivered? then [chunk] else [],
                      lost := h.lost || outcome.NoCharacteristic? || outcome.Raised?))
    case Poll(macs) =>
      var g1 := AfterPoll(g, macs);
      w.(gatt := g1, past := h.(tags := if g1.connected then h.tags else []))
    case RunCallback =>
      if g.scheduled == [] then w
      else
        var c := g.scheduled[0];
        World(g.(scheduled := g.scheduled[1..]), OnCallback(w.client, c),
              h.(incoming := h.incoming + if c.OnFrame? then [c.frame] else []))
  }

  // ── The invariant ─────────────────────────────────────────────────────────

  /** Every chunk the attempts queued, in order. */
  function LogChunks(log: seq<Attempt>): seq<bytes>
  {
    if log == [] then []
    else
      var n := |log| - 1;
      LogChunks(log[..n]) + Queued(log[n])
  }

  function Queued(a: Attempt): seq<bytes>
  {
    var chunks := Chunks(a.data, CHUNK_SIZE);
    if a.kept <= |chunks| then chunks[..a.kept] else chunks
  }

  predicate WellLogged(log: seq<Attempt>)
  {
    forall i :: 0 <= i < |log| ==>
      log[i].kept <= |Chunks(log[i].data, CHUNK_SIZE)| &&
      (log[i].accepted <==> log[i].kept == |Chunks(log[i].data, CHUNK_SIZE)|)
  }

  /** Whether the pending callbacks alternate connects and disconnects, with frames only while connected. */
  predicate WellSequenced(connected: bool, pending: seq<Callback>)
    decreases pending
  {
    pending == [] ||
    match pending[0]
    case OnConnect => !connected && WellSequenced(true, pending[1..])
    case OnDisconnect => connected && WellSequenced(false, pending[1..])
    case OnFrame(_) => connected && WellSequenced(connected, pending[1..])
  }

  /** The dispatcher's flag once all pending callbacks have run. */
  function Eventually(connected: bool, pending: seq<Callback>): bool
    decreases pending
  {
    if pending == [] then connected
    else
      match pending[0]
      case OnConnect => Eventually(true, pending[1..])
      case OnDisconnect => Eventually(false, pending[1..])
      case OnFrame(_) => Eventually(connected, pending[1..])
  }

  function PendingFrames(pending: seq<Callback>): seq<bytes>
  {
    if pending == [] then []
    else (if pending[0].OnFrame? then [pending[0].frame] else []) + PendingFrames(pending[1..])
  }

  /** Queued chunks belong to the current connection; so did every chunk given away to its own. */
  predicate Isolated(w: World)
  {
    |w.past.tags| == |w.gatt.txQueue| &&
    (forall i :: 0 <= i < |w.past.tags| ==> w.past.tags[i] == w.past.epoch) &&
    forall i :: 0 <= i < |w.past.given| ==> w.past.given[i].queuedIn == w.past.given[i].givenIn
  }

  /** Nothing lost: what the client has, then the queue, is what the attempts queued. */
  predicate Delivering(w: World)
  {
    WellLogged(w.past.log) &&
    (!w.past.lost ==>
      w.past.received + w.gatt.txQueue <= LogChunks(w.past.log) &&
      (w.gatt.connected ==> w.past.received + w.gatt.txQueue == LogChunks(w.past.log)))
  }

  predicate Deferred(w: World)
  {
    WellSequenced(w.client.connected, w.gatt.scheduled) &&
    Eventually(w.client.connected, w.gatt.scheduled) == w.gatt.connected &&
    w.past.incoming + PendingFrames(w.gatt.scheduled) == w.past.frames
  }

  predicate Inv(w: World)
  {
    Valid(w.gatt) && (w.gatt.txQueue != [] ==> w.gatt.serverUp) &&
    Isolated(w) && Delivering(w) && Deferred(w) && D.Safe(w.client) && D.Synced(w.client)
  }

  lemma BeginInv()
    ensures Inv(BEGIN)
  {
  }

  lemma {:induction false} SchedulingKeeps(connected: bool, pending: seq<Callback>, c: Callback)
    requires WellSequenced(connected, pending)
    requires match c case OnConnect => !Eventually(connected, pending)
                     case OnDisconnect => Eventually(connected, pending)
                     case OnFrame(_) => Eventually(connected, pending)
    ensures WellSequenced(connected, pending + [c])
    ensures Eventually(connected, pending + [c]) == !c.OnDisconnect?
    ensures PendingFrames(pending + [c]) == PendingFrames(pending) + if c.OnFrame? then [c.frame] else []
    decreases |pending|
  {
    if pending == [] {
      assert (pending + [c])[1..] == [];
    } else {
      assert (pending + [c])[1..] == pending[1..] + [c];
      var next := if pending[0].OnConnect? then true else if pending[0].OnDisconnect? then false else connected;
      SchedulingKeeps(next, pending[1..], c);
    }
  }

  lemma LogGrows(log: seq<Attempt>, a: Attempt)
    ensures LogChunks(log + [a]) == LogChunks(log) + Queued(a)
  {
    assert (log + [a])[..|log|] == log;
  }

  // ── Every step keeps it ───────────────────────────────────────────────────

  lemma WriteKeeps(w: World, value: bytes)
    requires Inv(w)
    ensures Inv(Step(w, Write(value)))
  {
    WriteKeepsIsolated(w, value);
    WriteKeepsDelivering(w, value);
    WriteKeepsDeferred(w, value);
  }

  lemma WriteKeepsIsolated(w: World, value: bytes)
    requires Inv(w)
    ensures Isolated(Step(w, Write(value)))
  {
  }

  lemma WriteKeepsDelivering(w: World, value: bytes)
    requires Inv(w)
    ensures Delivering(Step(w, Write(value)))
  {
    var r := Step(w, Write(value));
    if r.gatt.connected == w.gatt.connected {
      SameDelivering(w, r);
    } else {
      NothingDelivered(r);
    }
  }

  lemma SameDelivering(w: World, r: World)
    requires Delivering(w) && r.gatt.txQueue == w.gatt.txQueue && r.gatt.connected == w.gatt.connected
    requires r.past.log == w.past.log && r.past.received == w.past.received && r.past.lost == w.past.lost
    ensures Delivering(r)
  {
  }

  lemma NothingDelivered(r: World)
    requires r.gatt.txQueue == [] && r.past.log == [] && r.past.received == []
    ensures Delivering(r)
  {
  }

  /** A completed frame is scheduled behind a connect if the server is not yet connected. */
  lemma FrameScheduled(connected: bool, pending: seq<Callback>, up: bool, frame: bytes)
    requires WellSequenced(connected, pending) && Eventually(connected, pending) == up
    ensures var after := pending + (if up then [] else [OnConnect]) + [OnFrame(frame)];
            WellSequenced(connected, after) && Eventually(connected, after) &&
            PendingFrames(after) == PendingFrames(pending) + [frame]
  {
    if up {
      assert pending + [] == pending;
      SchedulingKeeps(connected, pending, OnFrame(frame));
    } else {
      SchedulingKeeps(connected, pending, OnConnect);
      SchedulingKeeps(connected, pending + [OnConnect], OnFrame(frame));
      assert PendingFrames(pending) + [] == PendingFrames(pending);
    }
  }

  lemma WriteKeepsDeferred(w: World, value: bytes)
    requires Inv(w)
    ensures Deferred(Step(w, Write(value)))
  {
    var g, h := w.gatt, w.past;
    if value != [] && value[0] == FINAL && g.loopSet {
      var frame := g.rxBuf + value[1..];
      FrameScheduled(w.client.connected, g.scheduled, g.connected, frame);
      assert h.incoming + (PendingFrames(g.scheduled) + [frame]) == h.incoming + PendingFrames(g.scheduled) + [frame];
    } else {
      assert h.frames + [] == h.frames;
    }
  }

  lemma SendKeeps(w: World, data: bytes)
    requires Inv(w)
    ensures Inv(Step(w, Send(data)))
  {
    SendKeepsIsolated(w, data);
    SendKeepsDelivering(w, data);
  }

  lemma SendKeepsIsolated(w: World, data: bytes)
    requires Inv(w)
    ensures Isolated(Step(w, Send(data)))
  {
  }

  lemma SendKeepsDelivering(w: World, data: bytes)
    requires Inv(w)
    ensures Delivering(Step(w, Send(data)))
  {
    if CanSend(w.gatt) {
      var a := Attempt(data, |Admitted(w.gatt, data)|, SendAccepted(w.gatt, data));
      AdmittedQueued(w.gatt, data);
      LogGrows(w.past.log, a);
      if !w.past.lost {
        OneMoreQueued(w.past.received, w.gatt.txQueue, Queued(a), LogChunks(w.past.log));
      }
    }
  }

  lemma AdmittedQueued(g: Gatt, data: bytes)
    requires Valid(g)
    ensures Queued(Attempt(data, |Admitted(g, data)|, SendAccepted(g, data))) == Admitted(g, data)
  {
    var chunks := Chunks(data, CHUNK_SIZE);
    assert chunks[..|chunks|] == chunks;
  }

  lemma OneMoreQueued(received: seq<bytes>, queue: seq<bytes>, more: seq<bytes>, all: seq<bytes>)
    requires received + queue == all
    ensures received + (queue + more) == all + more
  {
    assert received + (queue + more) == received + queue + more;
  }

  lemma DisconnectKeeps(w: World)
    requires Inv(w) && w.gatt.connected
    ensures var g := AfterMarkDisconnected(w.gatt);
            Deferred(w.(gatt := g)) && Valid(g)
  {
    SchedulingKeeps(w.client.connected, w.gatt.scheduled, OnDisconnect);
  }

  lemma TickKeeps(w: World, outcome: Notify)
    requires Inv(w)
    ensures Inv(Step(w, Tick(outcome)))
  {
    TickKeepsIsolated(w, outcome);
    TickKeepsDelivering(w, outcome);
    if w.gatt.connected {
      DisconnectKeeps(w);
    }
  }

  lemma TickKeepsIsolated(w: World, outcome: Notify)
    requires Inv(w)
    ensures Isolated(Step(w, Tick(outcome)))
  {
  }

  lemma TickKeepsDelivering(w: World, outcome: Notify)
    requires Inv(w)
    ensures Delivering(Step(w, Tick(outcome)))
  {
    var g, h := w.gatt, w.past;
    if g.txQueue != [] {
      assert h.received + g.txQueue == h.received + [g.txQueue[0]] + g.txQueue[1..];
      assert h.received + [] == h.received;
    }
  }

  lemma PollKeeps(w: World, macs: set<string>)
    requires Inv(w)
    ensures Inv(Step(w, Poll(macs)))
  {
    if w.gatt.connected {
      DisconnectKeeps(w);
    }
  }

  lemma RunCallbackKeeps(w: World)
    requires Inv(w)
    ensures Inv(Step(w, RunCallback))
  {
    if w.gatt.scheduled != [] {
      D.ClientSignalsKeep(w.client);
      CallbackKeepsDeferred(w);
    }
  }

  lemma CallbackKeepsDeferred(w: World)
    requires Inv(w) && w.gatt.scheduled != []
    ensures Deferred(Step(w, RunCallback))
  {
    D.ClientSignalsKeep(w.client);
    CallbackTaken(w.client.connected, w.gatt.scheduled, w.past.incoming);
  }

  /** The oldest callback runs; up says what it leaves the dispatcher's flag at. */
  lemma CallbackTaken(connected: bool, pending: seq<Callback>, incoming: seq<bytes>)
    requires pending != [] && WellSequenced(connected, pending)
    ensures var c := pending[0];
            var up := if c.OnFrame? then connected else c.OnConnect?;
            WellSequenced(up, pending[1..]) && Eventually(up, pending[1..]) == Eventually(connected, pending) &&
            incoming + PendingFrames(pending)
              == incoming + (if c.OnFrame? then [c.frame] else []) + PendingFrames(pending[1..])
  {
    var own := if pending[0].OnFrame? then [pending[0].frame] else [];
    FramesRegrouped(incoming, own, PendingFrames(pending[1..]));
  }

  lemma FramesRegrouped(a: seq<bytes>, b: seq<bytes>, c: seq<bytes>)
    ensures a + (b + c) == a + b + c
  {
  }

  lemma StepKeeps(w: World, e: Event)
    requires Inv(w)
    ensures Inv(Step(w, e))
  {
    match e
    case Start =>
    case CreateServer =>
    case Write(value) => WriteKeeps(w, value);
    case Send(data) => SendKeeps(w, data);
    case Tick(outcome) => TickKeeps(w, outcome);
    case Poll(macs) => PollKeeps(w, macs);
    case RunCallback => RunCallbackKeeps(w);
  }

  /** The state any sequence of steps leads to. */
  function RunFrom(w: World, events: seq<Event>): (r: World)
    requires Inv(w)
    ensures Inv(r)
    decreases events
  {
    if events == [] then w
    else
      StepKeeps(w, events[0]);
      RunFrom(Step(w, events[0]), events[1..])
  }

  function Run(events: seq<Event>): (w: World)
    ensures Inv(w)
  {
    BeginInv();
    RunFrom(BEGIN, events)
  }

  // ── Results ───────────────────────────────────────────────────────────────

  /** A disconnected server holds no chunks, and no chunk ever crosses into another connection. */
  lemma EpochIsolation(events: seq<Event>)
    ensures var w := Run(events);
            (!w.gatt.connected ==> w.gatt.txQueue == []) &&
            |w.gatt.txQueue| == |w.past.tags| <= 256 && (forall tag <- w.past.tags :: tag == w.past.epoch) &&
            (forall given <- w.past.given :: given.queuedIn == given.givenIn)
  {
  }

  /** What a client should make of the attempts: refused frames leave a stub before the next one. */
  function Expected(log: seq<Attempt>): Rx
    requires WellLogged(log)
  {
    if log == [] then Rx([], [])
    else
      var n := |log| - 1;
      var rx, a := Expected(log[..n]), log[n];
      if !a.accepted then
        SomeChunksBuffered(rx, a.data, CHUNK_SIZE, a.kept);
        Rx(rx.frames, rx.buffer + a.data[..a.kept * CHUNK_SIZE])
      else if a.data == [] then rx
      else Rx(rx.frames + [rx.buffer + a.data], [])
  }

  lemma {:induction false} LogReassembled(log: seq<Attempt>)
    requires WellLogged(log)
    ensures Reassemble(Rx([], []), LogChunks(log)) == Expected(log)
  {
    if log == [] {
    } else {
      var n := |log| - 1;
      LogReassembled(log[..n]);
      var rx, a := Expected(log[..n]), log[n];
      var chunks := Chunks(a.data, CHUNK_SIZE);
      ReassembleAppend(Rx([], []), LogChunks(log[..n]), Queued(a));
      assert chunks[..|chunks|] == chunks;
      if !a.accepted {
        SomeChunksBuffered(rx, a.data, CHUNK_SIZE, a.kept);
      } else if a.data != [] {
        ChunksReassembled(rx, a.data, CHUNK_SIZE);
      }
    }
  }

  lemma ReceivedByNow(w: World)
    requires Inv(w) && !w.past.lost
    ensures w.past.received <= LogChunks(w.past.log) && WellLogged(w.past.log)
    ensures Reassemble(Rx([], []), w.past.received).frames <= Expected(w.past.log).frames
    ensures w.gatt.connected && w.gatt.txQueue == [] ==>
              Reassemble(Rx([], []), w.past.received) == Expected(w.past.log)
  {
    LogReassembled(w.past.log);
    PrefixDelivers(Rx([], []), w.past.received, LogChunks(w.past.log));
    assert w.past.received + [] == w.past.received;
  }

  /**
   * On every connection, unless a chunk was lost in notifying, the client's chunks are an initial
   * stretch of those queued, so its frames are an initial stretch of the expected ones; once the
   * queue has drained they are all of them.
   */
  lemma ClientReceives(events: seq<Event>)
    requires !Run(events).past.lost
    ensures var w := Run(events);
            w.past.received <= LogChunks(w.past.log) && WellLogged(w.past.log) &&
            Reassemble(Rx([], []), w.past.received).frames <= Expected(w.past.log).frames &&
            (w.gatt.connected && w.gatt.txQueue == [] ==>
              Reassemble(Rx([], []), w.past.received) == Expected(w.past.log))
  {
    ReceivedByNow(Run(events));
  }

  /** The frames of the attempts, those without a single byte left out. */
  function Frames(log: seq<Attempt>): seq<bytes>
  {
    if log == [] then []
    else Frames(log[..|log| - 1]) + if log[|log| - 1].data == [] then [] else [log[|log| - 1].data]
  }

  /** With every frame of the connection accepted, the client is owed exactly those frames. */
  lemma {:induction false} AllAcceptedExpected(log: seq<Attempt>)
    requires WellLogged(log) && forall i :: 0 <= i < |log| ==> log[i].accepted
    ensures Expected(log) == Rx(Frames(log), [])
  {
    if log == [] {
    } else {
      AllAcceptedExpected(log[..|log| - 1]);
      assert [] + log[|log| - 1].data == log[|log| - 1].data;
    }
  }

  predicate AllAccepted(log: seq<Attempt>)
  {
    forall i :: 0 <= i < |log| ==> log[i].accepted
  }

  /**
   * If every frame of a connection was accepted and no chunk lost, the client has received an
   * initial stretch of exactly those frames, and all of them once the queue has drained.
   */
  lemma AcceptedFramesArrive(events: seq<Event>)
    requires !Run(events).past.lost
    requires AllAccepted(Run(events).past.log)
    ensures var w := Run(events);
            var rx := Reassemble(Rx([], []), w.past.received);
            rx.frames <= Frames(w.past.log) &&
            (w.gatt.connected && w.gatt.txQueue == [] ==> rx == Rx(Frames(w.past.log), []))
  {
    ClientReceives(events);
    AllAcceptedExpected(Run(events).past.log);
  }

  function Writes(events: seq<Event>): seq<bytes>
    decreases events
  {
    if events == [] then []
    else if events[0].Write? then [events[0].value] + Writes(events[1..])
    else Writes(events[1..])
  }

  /**
   * Once the loop is set, the frames handed to it are those the writes spell out, whatever
   * sends, notifications, polls, callbacks and disconnects happen in between.
   */
  lemma {:induction false} ReassemblyUndisturbed(w: World, events: seq<Event>)
    requires Inv(w) && w.gatt.loopSet
    ensures var r := RunFrom(w, events);
            Rx(r.past.frames, r.gatt.rxBuf) == Reassemble(Rx(w.past.frames, w.gatt.rxBuf), Writes(events))
    decreases events
  {
    if events == [] {
    } else {
      RxStep(w, events[0]);
      ReassemblyUndisturbed(Step(w, events[0]), events[1..]);
      if events[0].Write? {
        ReassembleFirst(Rx(w.past.frames, w.gatt.rxBuf), events[0].value, Writes(events[1..]));
      }
    }
  }

  lemma RxStep(w: World, e: Event)
    requires Inv(w) && w.gatt.loopSet
    ensures var r := Step(w, e);
            Inv(r) && r.gatt.loopSet &&
            Rx(r.past.frames, r.gatt.rxBuf) ==
              if e.Write? then Receive(Rx(w.past.frames, w.gatt.rxBuf), e.value)
              else Rx(w.past.frames, w.gatt.rxBuf)
  {
    StepKeeps(w, e);
  }

  lemma {:induction false} EarlierFramesStay(frames: seq<bytes>, rx: Rx, writes: seq<bytes>)
    ensures Reassemble(Rx(frames + rx.frames, rx.buffer), writes)
         == Rx(frames + Reassemble(rx, writes).frames, Reassemble(rx, writes).buffer)
    decreases |writes|
  {
    if writes == [] {
    } else {
      EarlierFramesStay(frames, rx, writes[..|writes| - 1]);
      var before := Reassemble(rx, writes[..|writes| - 1]);
      var buffer := before.buffer + if writes[|writes| - 1] == [] then [] else writes[|writes| - 1][1..];
      assert frames + before.frames + [buffer] == frames + (before.frames + [buffer]);
    }
  }

  /** Non-empty messages chunked at any sizes reach the loop unchanged and in order. */
  lemma MessagesDelivered(w: World, events: seq<Event>, messages: seq<bytes>, sizes: seq<nat>)
    requires Inv(w) && w.gatt.loopSet && w.gatt.rxBuf == []
    requires |messages| == |sizes|
    requires forall i :: 0 <= i < |messages| ==> messages[i] != [] && sizes[i] > 0
    requires Writes(events) == Sent(messages, sizes)
    ensures RunFrom(w, events).past.frames == w.past.frames + messages
    ensures RunFrom(w, events).gatt.rxBuf == []
  {
    ReassemblyUndisturbed(w, events);
    ConversationDelivered(messages, sizes);
    EarlierFramesStay(w.past.frames, Rx([], []), Writes(events));
    assert w.past.frames + [] == w.past.frames;
  }

  /** A step that ends the connection: a poll that sees nobody, or a notification without subscribers. */
  predicate Disconnects(w: World, e: Event)
    requires Inv(w)
  {
    w.gatt.connected && !Step(w, e).gatt.connected
  }

  lemma DisconnectsIff(w: World, e: Event)
    requires Inv(w)
    ensures Disconnects(w, e) <==>
            w.gatt.connected &&
            ((e.Poll? && w.gatt.prevConnected != {} && e.macs == {}) ||
             (e.Tick? && w.gatt.txQueue != [] && e.outcome == NoSubscribers))
  {
  }

  /**
   * The buffer survives a disconnect, however that comes about: what a vanished client left
   * unfinished is put in front of the next client's first message, which therefore arrives intact
   * exactly if nothing was left.
   */
  lemma LeftoverReachesNextClient(w: World, e: Event, message: bytes, size: nat, events: seq<Event>)
    requires Inv(w) && Disconnects(w, e) && message != [] && size > 0
    requires Writes(events) == Chunks(message, size)
    ensures Inv(Step(w, e))
    ensures var frames := RunFrom(Step(w, e), events).past.frames;
            frames == w.past.frames + [w.gatt.rxBuf + message] &&
            (frames == w.past.frames + [message] <==> w.gatt.rxBuf == [])
  {
    DisconnectsIff(w, e);
    RxStep(w, e);
    ReassemblyUndisturbed(Step(w, e), events);
    ChunksReassembled(Rx(w.past.frames, w.gatt.rxBuf), message, size);
    SameLastFrame(w.past.frames, w.gatt.rxBuf, message);
  }

  /** Such leftovers do occur, with either way of losing the client. */
  lemma LeftoverOccurs(part: byte)
    ensures var w := Run([Start, CreateServer, Write([FINAL]), Write([CONTINUES, part]), Poll({"peer"})]);
            Disconnects(w, Poll({})) && Step(w, Poll({})).gatt.rxBuf == [part]
    ensures var w := Run([Start, CreateServer, Write([FINAL]), Send([part]), Write([CONTINUES, part])]);
            Disconnects(w, Tick(NoSubscribers)) && Step(w, Tick(NoSubscribers)).gatt.rxBuf == [part]
  {
    PollExample(part);
    TickExample(part);
  }

  lemma StepFirst(w: World, e: Event, rest: seq<Event>)
    requires Inv(w)
    ensures Inv(Step(w, e)) && RunFrom(w, [e] + rest) == RunFrom(Step(w, e), rest)
  {
    StepKeeps(w, e);
    assert ([e] + rest)[1..] == rest;
  }

  lemma {:induction false} RunFromAppend(w: World, a: seq<Event>, b: seq<Event>)
    requires Inv(w)
    ensures RunFrom(w, a + b) == RunFrom(RunFrom(w, a), b)
    decreases a
  {
    if a == [] {
      assert a + b == b;
    } else {
      StepKeeps(w, a[0]);
      assert (a + b)[1..] == a[1..] + b;
      RunFromAppend(Step(w, a[0]), a[1..], b);
    }
  }

  /** The common beginning: a client connects by an empty frame. */
  lemma ClientConnects(rest: seq<Event>)
    ensures var up := [Start, CreateServer] + [Write([FINAL])];
            Run(up).gatt == Gatt(true, true, true, [], [], {}, [OnConnect, OnFrame([])]) &&
            Run(up + rest) == RunFrom(Run(up), rest)
  {
    var ready: seq<Event> := [Start, CreateServer];
    BeginInv();
    RunFromAppend(BEGIN, ready + [Write([FINAL])], rest);
    RunFromAppend(BEGIN, ready, [Write([FINAL])]);
    ServerReady();
    OneMore(Run(ready), Write([FINAL]));
    EmptyFrameConnects(Run(ready).gatt, [FINAL]);
  }

  lemma ServerReady()
    ensures Run([Start, CreateServer]).gatt == Gatt(true, true, false, [], [], {}, [])
  {
    BeginInv();
    TwoMore(BEGIN, Start, CreateServer);
  }

  lemma EmptyFrameConnects(g: Gatt, value: bytes)
    requires g == Gatt(true, true, false, [], [], {}, []) && value == [FINAL]
    ensures AfterWrite(g, value) == Gatt(true, true, true, [], [], {}, [OnConnect, OnFrame([])])
  {
    assert g.rxBuf + value[1..] == [];
  }

  lemma OneMore(w: World, e: Event)
    requires Inv(w)
    ensures Inv(Step(w, e)) && RunFrom(w, [e]) == Step(w, e)
  {
    StepFirst(w, e, []);
    assert [e] == [e] + [];
  }

  lemma PollExample(part: byte)
    ensures var w := Run([Start, CreateServer, Write([FINAL]), Write([CONTINUES, part]), Poll({"peer"})]);
            Disconnects(w, Poll({})) && Step(w, Poll({})).gatt.rxBuf == [part]
  {
    var up: seq<Event> := [Start, CreateServer] + [Write([FINAL])];
    var rest: seq<Event> := [Write([CONTINUES, part]), Poll({"peer"})];
    ClientConnects(rest);
    var w := Run(up);
    TwoMore(w, Write([CONTINUES, part]), Poll({"peer"}));
    assert up + rest == [Start, CreateServer, Write([FINAL]), Write([CONTINUES, part]), Poll({"peer"})];
  }

  lemma TickExample(part: byte)
    ensures var w := Run([Start, CreateServer, Write([FINAL]), Send([part]), Write([CONTINUES, part])]);
            Disconnects(w, Tick(NoSubscribers)) && Step(w, Tick(NoSubscribers)).gatt.rxBuf == [part]
  {
    var up: seq<Event> := [Start, CreateServer] + [Write([FINAL])];
    var rest: seq<Event> := [Send([part]), Write([CONTINUES, part])];
    ClientConnects(rest);
    var w := Run(up);
    TwoMore(w, Send([part]), Write([CONTINUES, part]));
    assert up + rest == [Start, CreateServer, Write([FINAL]), Send([part]), Write([CONTINUES, part])];
  }

  lemma TwoMore(w: World, e: Event, f: Event)
    requires Inv(w)
    ensures Inv(Step(w, e)) && Inv(Step(Step(w, e), f)) && RunFrom(w, [e, f]) == Step(Step(w, e), f)
  {
    StepFirst(w, e, [f]);
    StepFirst(Step(w, e), f, []);
    assert [e, f] == [e] + [f] && [f] == [f] + [];
  }

  lemma SameLastFrame(frames: seq<bytes>, left: bytes, message: bytes)
    ensures frames + [left + message] == frames + [message] <==> left == []
  {
    var n := |frames|;
    assert (frames + [left + message])[n] == left + message && (frames + [message])[n] == message;
    assert |left + message| == |left| + |message|;
    if left == [] {
      assert left + message == message;
    }
  }

  /**
   * The dispatcher's flag trails the server's by exactly the pending callbacks: running them all
   * brings it level, each connect finds it down, each disconnect and each frame finds it up, and
   * the dispatcher is handed the frames in the order they were completed. With nothing pending,
   * a state listener is live exactly while the server has a client.
   */
  lemma DeferredConnection(events: seq<Event>)
    ensures var w := Run(events);
            && Eventually(w.client.connected, w.gatt.scheduled) == w.gatt.connected
            && (w.gatt.scheduled != [] ==> (w.client.connected <==> !w.gatt.scheduled[0].OnConnect?))
            && w.past.incoming <= w.past.frames
            && (w.gatt.scheduled == [] ==>
                 w.client.connected == w.gatt.connected && (w.client.live != {} <==> w.gatt.connected) &&
                 w.past.incoming == w.past.frames)
  {
  }

  // ── The bridge object ─────────────────────────────────────────────────────

  /** GATT server and dispatcher wired together; incoming lists the packets handed to the handler. */
  class NativeBleServer {
    const gatt: HaBleGattServer
    const dispatcher: D.PacketDispatcher
    var incoming: seq<bytes>

    constructor (codec: D.Codec, passcode: nat)
      ensures fresh(gatt) && fresh(dispatcher)
      ensures gatt.State() == CREATED && dispatcher.AsClient() == D.NO_CLIENT && incoming == []
    {
      gatt := new HaBleGattServer();
      dispatcher := new D.PacketDispatcher(codec, passcode);
      incoming := [];
    }

    method RunCallback()
      requires gatt.scheduled != []
      modifies this, gatt, dispatcher
      ensures var c := old(gatt.scheduled)[0];
              gatt.State() == old(gatt.State()).(scheduled := old(gatt.scheduled)[1..]) &&
              dispatcher.AsClient() == OnCallback(old(dispatcher.AsClient()), c) &&
              incoming == old(incoming) + if c.OnFrame? then [c.frame] else []
    {
      var c := gatt.NextCallback();
      match c
      case OnConnect => dispatcher.OnBleClientConnected();
      case OnDisconnect => dispatcher.OnBleClientDisconnected();
      case OnFrame(frame) => incoming := incoming + [frame];
    }

    /** The result of send_frame is dropped. */
    method SendRaw(data: bytes)
      requires Valid(gatt.State())
      modifies gatt`txQueue
      ensures gatt.State() == AfterSend(old(gatt.State()), data)
    {
      var _ := gatt.SendFrame(data);
    }
  }
}
