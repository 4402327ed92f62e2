/**
 * What the native server gets done (ble_gatt_server.py): callbacks scheduled do run, chunks queued do
 * reach the client, and a poll ends a connection exactly when the last client seen is gone.
 */
module NativeProgress {
  import opened Bytes
  import opened BleChunks
  import opened GattServer
  import opened NativeRuns
  import D = Dispatcher

  lemma RunNext(events: seq<Event>, e: Event)
    ensures Run(events + [e]) == Step(Run(events), e)
  {
    BeginInv();
    RunFromAppend(BEGIN, events, [e]);
    OneMore(Run(events), e);
  }

  // ── Polls ─────────────────────────────────────────────────────────────────

  /** The addresses seen by the latest poll; none before the first. */
  function LastPoll(events: seq<Event>): set<string>
  {
    if events == [] then {}
    else
      var n := |events| - 1;
      if events[n].Poll? then events[n].macs else LastPoll(events[..n])
  }

  lemma {:induction false} PollRemembered(events: seq<Event>)
    ensures Run(events).gatt.prevConnected == LastPoll(events)
  {
    if events == [] {
    } else {
      var n := |events| - 1;
      PollRemembered(events[..n]);
      RunNext(events[..n], events[n]);
      assert events == events[..n] + [events[n]];
      OnlyPollsRemember(Run(events[..n]), events[n]);
    }
  }

  lemma OnlyPollsRemember(w: World, e: Event)
    requires Inv(w)
    ensures Step(w, e).gatt.prevConnected == if e.Poll? then e.macs else w.gatt.prevConnected
  {
  }

  /** In any run a poll ends the connection exactly when it sees nobody and the poll before it saw somebody. */
  lemma PollDisconnectsIff(events: seq<Event>, macs: set<string>)
    ensures !Run(events + [Poll(macs)]).gatt.connected <==>
            !Run(events).gatt.connected || (macs == {} && LastPoll(events) != {})
  {
    PollRemembered(events);
    RunNext(events, Poll(macs));
  }

  // ── Callbacks ─────────────────────────────────────────────────────────────

  /** The event loop has caught up: every frame was handed over, and the dispatcher knows of the client. */
  predicate CaughtUp(w: World)
  {
    w.gatt.scheduled == [] && w.past.incoming == w.past.frames && w.client.connected == w.gatt.connected
  }

  lemma CallbackTakesOne(w: World)
    requires Inv(w) && w.gatt.scheduled != []
    ensures var r := Step(w, RunCallback);
            r.gatt == w.gatt.(scheduled := w.gatt.scheduled[1..]) && r.past.frames == w.past.frames
  {
  }

  /** As many callbacks as are scheduled: the loop has caught up, and nothing else about the bridge has changed. */
  lemma {:induction false} CallbacksCatchUp(w: World, callbacks: seq<Event>)
    requires Inv(w) && callbacks == Repeat(RunCallback, |w.gatt.scheduled|)
    ensures var r := RunFrom(w, callbacks);
            CaughtUp(r) && r.gatt == w.gatt.(scheduled := []) && r.past.frames == w.past.frames
    decreases |callbacks|
  {
    if callbacks == [] {
      assert w.past.incoming + [] == w.past.incoming;
    } else {
      StepKeeps(w, RunCallback);
      CallbackTakesOne(w);
      CallbacksCatchUp(Step(w, RunCallback), callbacks[1..]);
    }
  }

  // ── Notifications ─────────────────────────────────────────────────────────

  lemma TickDeliversOne(w: World)
    requires Inv(w) && w.gatt.txQueue != []
    ensures var r := Step(w, Tick(Delivered));
            r.gatt == w.gatt.(txQueue := w.gatt.txQueue[1..]) &&
            r.past.received == w.past.received + [w.gatt.txQueue[0]] &&
            r.past.log == w.past.log && r.past.lost == w.past.lost && r.past.epoch == w.past.epoch
  {
  }

  /** As many deliveries as chunks wait: the client has received them all, in order, behind what it had. */
  lemma {:induction false} QueueIsDelivered(w: World, ticks: seq<Event>)
    requires Inv(w) && ticks == Repeat(Tick(Delivered), |w.gatt.txQueue|)
    ensures var r := RunFrom(w, ticks);
            r.gatt == w.gatt.(txQueue := []) && r.past.received == w.past.received + w.gatt.txQueue &&
            r.past.log == w.past.log && r.past.lost == w.past.lost && r.past.epoch == w.past.epoch
    decreases |ticks|
  {
    if ticks == [] {
      assert w.past.received + [] == w.past.received;
    } else {
      StepKeeps(w, Tick(Delivered));
      TickDeliversOne(w);
      QueueIsDelivered(Step(w, Tick(Delivered)), ticks[1..]);
      ChunksRegrouped(w.past.received, w.gatt.txQueue);
    }
  }

  lemma ChunksRegrouped(received: seq<bytes>, queue: seq<bytes>)
    requires queue != []
    ensures received + [queue[0]] + queue[1..] == received + queue
  {
  }

  /**
   * In any run, while a connection stands on which nothing was lost and every frame accepted, as many
   * deliveries as chunks wait give the client every frame of the connection.
   */
  lemma AcceptedFramesAllArrive(events: seq<Event>, ticks: seq<Event>)
    requires Run(events).gatt.connected && !Run(events).past.lost && AllAccepted(Run(events).past.log)
    requires ticks == Repeat(Tick(Delivered), |Run(events).gatt.txQueue|)
    ensures var w := Run(events + ticks);
            w.gatt.connected && w.past.log == Run(events).past.log &&
            Reassemble(Rx([], []), w.past.received) == Rx(Frames(w.past.log), [])
  {
    BeginInv();
    RunFromAppend(BEGIN, events, ticks);
    QueueIsDelivered(Run(events), ticks);
    AcceptedFramesArrive(events + ticks);
  }

  /** A frame that finds room on a standing connection is the last the client gets once its chunks are delivered. */
  lemma SentFrameArrives(events: seq<Event>, data: bytes, ticks: seq<Event>)
    requires Run(events).gatt.connected && Run(events).gatt.serverUp && !Run(events).past.lost
    requires AllAccepted(Run(events).past.log) && data != []
    requires (|data| + 243) / 244 <= 256 - |Run(events).gatt.txQueue|
    requires ticks == Repeat(Tick(Delivered), |Run(events + [Send(data)]).gatt.txQueue|)
    ensures Reassemble(Rx([], []), Run(events + [Send(data)] + ticks).past.received)
         == Rx(Frames(Run(events).past.log) + [data], [])
  {
    var w := Run(events);
    RunNext(events, Send(data));
    SendAcceptedIff(w.gatt, data);
    SendLogged(w, data);
    AcceptedFramesAllArrive(events + [Send(data)], ticks);
  }

  lemma SendLogged(w: World, data: bytes)
    requires Inv(w) && SendAccepted(w.gatt, data) && AllAccepted(w.past.log) && data != []
    ensures var r := Step(w, Send(data));
            r.gatt.connected && r.past.lost == w.past.lost && AllAccepted(r.past.log) &&
            Frames(r.past.log) == Frames(w.past.log) + [data]
  {
    var a := Attempt(data, |Admitted(w.gatt, data)|, true);
    assert (w.past.log + [a])[..|w.past.log|] == w.past.log;
  }

  // ── Connecting ────────────────────────────────────────────────────────────

  /** A client is there from the first frame that a write completes once the loop is set. */
  lemma ConnectsIff(w: World, e: Event)
    requires Inv(w) && !w.gatt.connected
    ensures Step(w, e).gatt.connected <==> e.Write? && e.value != [] && e.value[0] == 0x01 && w.gatt.loopSet
  {
  }

  /** Not started: nobody connected, nothing handed on, and this much of a frame in the buffer. */
  predicate Unstarted(w: World, buffer: bytes)
  {
    !w.gatt.loopSet && !w.gatt.connected && w.past.frames == [] && w.gatt.scheduled == [] && w.gatt.rxBuf == buffer
  }

  /** Until the server is started, frames are dropped whole, and no client is ever there. */
  lemma {:induction false} NothingBeforeStart(events: seq<Event>)
    requires Start !in events
    ensures Unstarted(Run(events), Reassemble(Rx([], []), Writes(events)).buffer)
  {
    if events == [] {
    } else {
      var n := |events| - 1;
      NothingBeforeStart(events[..n]);
      RunNext(events[..n], events[n]);
      assert events == events[..n] + [events[n]];
      WritesNext(events[..n], events[n]);
      BeforeStart(Run(events[..n]), events[n], Reassemble(Rx([], []), Writes(events[..n])));
    }
  }

  lemma BeforeStart(w: World, e: Event, rx: Rx)
    requires Inv(w) && Unstarted(w, rx.buffer) && e != Start
    ensures Unstarted(Step(w, e), (if e.Write? then Receive(rx, e.value) else rx).buffer)
  {
  }

  lemma WritesNext(events: seq<Event>, e: Event)
    ensures var rx := Reassemble(Rx([], []), Writes(events));
            Reassemble(Rx([], []), Writes(events + [e])) == if e.Write? then Receive(rx, e.value) else rx
  {
    WritesAppend(events, e);
    assert Writes(events) + [] == Writes(events);
    if e.Write? {
      ReassembleOne(Rx([], []), Writes(events), e.value);
    }
  }

  lemma {:induction false} WritesAppend(events: seq<Event>, e: Event)
    ensures Writes(events + [e]) == Writes(events) + if e.Write? then [e.value] else []
    decreases events
  {
    if events == [] {
      assert [] + [e] == [e] && [e][1..] == [];
    } else {
      assert (events + [e])[1..] == events[1..] + [e];
      WritesAppend(events[1..], e);
    }
  }

  /** A chunk that could not be notified is not tried again. */
  lemma FailedChunkIsGone(w: World, outcome: Notify)
    requires Inv(w) && w.gatt.txQueue != [] && (outcome == NoCharacteristic || outcome == Raised)
    ensures var r := Step(w, Tick(outcome));
            r.gatt == w.gatt.(txQueue := w.gatt.txQueue[1..]) && r.past.received == w.past.received && r.past.lost
  {
  }
}
