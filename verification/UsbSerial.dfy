/** The USB-serial bridge (usb_serial_server.py): outgoing queue, wire, demultiplexer, life cycle. */
module UsbSerial {
  import opened Bytes
  import opened Packet
  import opened Streams
  import opened UsbFraming
  import opened Exposure
  import opened Replies
  import D = Dispatcher

  const QUEUE_SIZE := 64
  const BRACE: byte := 0x7B

  function Ascii(s: string): (r: bytes)
    ensures |r| == |s| && forall i :: 0 <= i < |s| ==> r[i] == s[i] as int % 256
  {
    seq(|s|, i requires 0 <= i < |s| => s[i] as int % 256)
  }

  function RestartAdv(): (m: bytes)
    ensures 0 < |m| <= MAX_FRAME
  {
    Ascii("{\"type\":\"restart_adv\"}")
  }

  // ── Steps ─────────────────────────────────────────────────────────────────

  /**
   * The server between steps. queue is None while no bridge is up. The last three fields concern
   * the latest connection: messages passed to _send_raw, those put in the queue, and how many of
   * them the worker has written.
   */
  datatype Usb = Usb(
    stopped: bool,
    queue: Option<seq<bytes>>,
    workerAlive: bool,
    wire: bytes,
    client: D.Client,
    sent: seq<bytes>,
    queued: seq<bytes>,
    written: nat)

  const CREATED := Usb(false, None, false, [], D.NO_CLIENT, [], [], 0)

  datatype Event =
    | BridgeUp                        // _bridge up to its reader loop
    | Send(data: bytes)               // _send_raw
    | Work(ok: bool)                  // one round of the write worker
    | Control(connected: bool)        // client_connected or client_disconnected
    | BridgeDown                      // the finally block of _bridge
    | Stop                            // stop(), up to the cancellation it requests

  function AfterSend(u: Usb, data: bytes): Usb
  {
    if u.queue.None? then u
    else
      match FrameForUsb(data)
      case None => u
      case Some(frame) =>
        var u1 := u.(sent := u.sent + [data]);
        if |u.queue.value| >= QUEUE_SIZE then u1
        else u1.(queue := Some(u.queue.value + [frame]), queued := u.queued + [data])
  }

  function Step(u: Usb, e: Event): Usb
  {
    match e
    case BridgeUp =>
      if u.stopped || u.queue.Some? then u
      else AfterSend(u.(queue := Some([]), workerAlive := true, wire := [], sent := [], queued := [], written := 0),
                     RestartAdv())
    case Send(data) => AfterSend(u, data)
    case Work(ok) =>
      if u.queue.None? || u.queue.value == [] || !u.workerAlive then u
      else
        var u1 := u.(queue := Some(u.queue.value[1..]));
        if ok then u1.(wire := u.wire + u.queue.value[0], written := u.written + 1)
        else u1.(workerAlive := false)
    case Control(connected) =>
      if u.queue.None? || u.stopped then u
      else u.(client := if connected then D.OnConnected(u.client) else D.OnDisconnected(u.client))
    case BridgeDown =>
      if u.queue.None? then u
      else u.(queue := None, workerAlive := false, client := D.OnDisconnected(u.client))
    case Stop => u.(stopped := true, client := D.Unsubscribe(u.client))
  }

  function Run(events: seq<Event>): Usb
  {
    if events == [] then CREATED else Step(Run(events[..|events| - 1]), events[|events| - 1])
  }

  // ── The wire carries whole frames ─────────────────────────────────────────

  /** a arises from b by leaving messages out. */
  predicate Subsequence(a: seq<bytes>, b: seq<bytes>)
    decreases |b|
  {
    a == [] ||
    (b != [] &&
     ((a[|a| - 1] == b[|b| - 1] && Subsequence(a[..|a| - 1], b[..|b| - 1])) || Subsequence(a, b[..|b| - 1])))
  }

  lemma SubsequenceGrows(a: seq<bytes>, b: seq<bytes>, m: bytes)
    requires Subsequence(a, b)
    ensures Subsequence(a, b + [m]) && Subsequence(a + [m], b + [m])
  {
    assert (b + [m])[..|b|] == b && (a + [m])[..|a|] == a;
  }

  predicate Framable(messages: seq<bytes>)
  {
    forall i :: 0 <= i < |messages| ==> |messages[i]| < 0x1_0000_0000
  }

  function Frames(messages: seq<bytes>): (r: seq<bytes>)
    requires Framable(messages)
    ensures |r| == |messages|
    ensures forall i :: 0 <= i < |messages| ==> r[i] == Framed(messages[i])
  {
    seq(|messages|, i requires 0 <= i < |messages| => Framed(messages[i]))
  }

  lemma FramesAppend(messages: seq<bytes>, m: bytes)
    requires Framable(messages) && |m| < 0x1_0000_0000
    ensures Framable(messages + [m]) && Frames(messages + [m]) == Frames(messages) + [Framed(m)]
  {
  }

  /** While the worker lives, the wire is the frames written so far and the queue those to come. */
  predicate WholeFrames(u: Usb)
  {
    Framable(u.queued) && Subsequence(u.queued, u.sent) && u.written <= |u.queued| &&
    u.wire == Concat(Frames(u.queued[..u.written])) &&
    (u.workerAlive ==> u.queue == Some(Frames(u.queued[u.written..])))
  }

  lemma OneMoreQueued(queued: seq<bytes>, n: nat, m: bytes)
    requires Framable(queued) && n <= |queued| && |m| < 0x1_0000_0000
    ensures (queued + [m])[..n] == queued[..n] && Framable(queued + [m])
    ensures Frames((queued + [m])[n..]) == Frames(queued[n..]) + [Framed(m)]
  {
    assert (queued + [m])[n..] == queued[n..] + [m];
    FramesAppend(queued[n..], m);
  }

  lemma SendKeeps(u: Usb, data: bytes)
    requires WholeFrames(u)
    ensures WholeFrames(AfterSend(u, data))
  {
    if u.queue.Some? && FrameForUsb(data).Some? {
      SubsequenceGrows(u.queued, u.sent, data);
      if |u.queue.value| < QUEUE_SIZE {
        OneMoreQueued(u.queued, u.written, data);
      }
    }
  }

  lemma NextWritten(queued: seq<bytes>, n: nat)
    requires Framable(queued) && n < |queued|
    ensures Concat(Frames(queued[..n + 1])) == Concat(Frames(queued[..n])) + Framed(queued[n])
    ensures Frames(queued[n..])[0] == Framed(queued[n]) && Frames(queued[n..])[1..] == Frames(queued[n + 1..])
  {
    var done, next := queued[..n], queued[n];
    assert queued[..n + 1] == done + [next];
    FramesAppend(done, next);
    ConcatAppend(Frames(done), [Framed(next)]);
    ConcatOne(Framed(next));
  }

  lemma ConcatOne(part: bytes)
    ensures Concat([part]) == part
  {
    assert [part][1..] == [];
    assert part + [] == part;
  }

  lemma WorkKeeps(u: Usb)
    requires WholeFrames(u) && u.workerAlive && u.queue.value != []
    ensures WholeFrames(Step(u, Work(true)))
  {
    NextWritten(u.queued, u.written);
  }

  lemma {:induction false} WireHoldsWholeFrames(events: seq<Event>)
    ensures WholeFrames(Run(events))
  {
    if events == [] {
    } else {
      var u, e := Run(events[..|events| - 1]), events[|events| - 1];
      WireHoldsWholeFrames(events[..|events| - 1]);
      match e
      case BridgeUp =>
        SendKeeps(u.(queue := Some([]), workerAlive := true, wire := [], sent := [], queued := [], written := 0),
                  RestartAdv());
      case Send(data) => SendKeeps(u, data);
      case Work(ok) =>
        if ok && u.queue.Some? && u.queue.value != [] && u.workerAlive {
          WorkKeeps(u);
        }
      case Control(_) =>
      case BridgeDown =>
      case Stop =>
    }
  }

  predicate Deliverable(messages: seq<bytes>)
  {
    forall i :: 0 <= i < |messages| ==> 0 < |messages[i]| <= MAX_FRAME
  }

  lemma FirstFrameRead(m: bytes, tail: bytes)
    requires 0 < |m| <= MAX_FRAME
    ensures ReadAll(Framed(m) + tail) == [m] + ReadAll(tail)
  {
    assert [] + Framed(m) + tail == Framed(m) + tail;
    ReadAllStep([], m, tail);
  }

  lemma FramesFirst(messages: seq<bytes>)
    requires Framable(messages) && messages != []
    ensures Framable(messages[1..]) && Frames(messages)[0] == Framed(messages[0])
    ensures Frames(messages)[1..] == Frames(messages[1..])
  {
  }

  lemma {:induction false} FramesReadBack(messages: seq<bytes>)
    requires Framable(messages) && Deliverable(messages)
    ensures ReadAll(Concat(Frames(messages))) == messages
  {
    if messages == [] {
    } else {
      var rest := messages[1..];
      FramesFirst(messages);
      FirstFrameRead(messages[0], Concat(Frames(rest)));
      FramesReadBack(rest);
    }
  }

  lemma {:induction false} SubsequenceDeliverable(a: seq<bytes>, b: seq<bytes>)
    requires Subsequence(a, b) && Deliverable(b)
    ensures Deliverable(a)
    decreases |b|
  {
    if a == [] {
    } else {
      if a[|a| - 1] == b[|b| - 1] && Subsequence(a[..|a| - 1], b[..|b| - 1]) {
        SubsequenceDeliverable(a[..|a| - 1], b[..|b| - 1]);
        assert forall i :: 0 <= i < |a| - 1 ==> a[i] == a[..|a| - 1][i];
      } else {
        SubsequenceDeliverable(a, b[..|b| - 1]);
      }
    }
  }

  /** Whatever is passed to _send_raw can be delivered. */
  predicate SendsDeliverable(events: seq<Event>)
  {
    forall i :: 0 <= i < |events| && events[i].Send? ==> 0 < |events[i].data| <= MAX_FRAME
  }

  /** Besides those, only the restart message of a new bridge is ever sent. */
  lemma {:induction false} SentDeliverable(events: seq<Event>)
    requires SendsDeliverable(events)
    ensures Deliverable(Run(events).sent)
  {
    if events == [] {
    } else {
      var n := |events| - 1;
      SentDeliverable(events[..n]);
      assert events[n].Send? ==> 0 < |events[n].data| <= MAX_FRAME;
      StepDeliverable(Run(events[..n]), events[n]);
    }
  }

  lemma StepDeliverable(u: Usb, e: Event)
    requires Deliverable(u.sent) && (e.Send? ==> 0 < |e.data| <= MAX_FRAME)
    ensures Deliverable(Step(u, e).sent)
  {
  }

  /**
   * However sends, worker rounds and drops interleave, the peer reads off the wire exactly the
   * messages written so far, which are those sent on this connection in order with the dropped
   * ones left out whole.
   */
  lemma UsbEndToEnd(events: seq<Event>)
    requires SendsDeliverable(events)
    ensures var u := Run(events);
            u.written <= |u.queued| && ReadAll(u.wire) == u.queued[..u.written] && Subsequence(u.queued, u.sent)
  {
    var u := Run(events);
    WireHoldsWholeFrames(events);
    SentDeliverable(events);
    SubsequenceDeliverable(u.queued, u.sent);
    FramesReadBack(u.queued[..u.written]);
  }

  /** The queue was never full when a message was sent. */
  predicate NeverFull(events: seq<Event>)
  {
    forall i :: 0 <= i < |events| && events[i].Send? ==>
      var u := Run(events[..i]); u.queue.Some? ==> |u.queue.value| < 64
  }

  lemma StepKeepsAll(u: Usb, e: Event)
    requires u.queued == u.sent && (e.Send? && u.queue.Some? ==> |u.queue.value| < 64)
    ensures Step(u, e).queued == Step(u, e).sent
  {
  }

  /** Messages are dropped only while 64 frames are waiting. */
  lemma {:induction false} NothingDroppedBelowCapacity(events: seq<Event>)
    requires NeverFull(events)
    ensures Run(events).queued == Run(events).sent
  {
    if events == [] {
    } else {
      var before := events[..|events| - 1];
      assert forall i :: 0 <= i < |before| ==> before[..i] == events[..i];
      NothingDroppedBelowCapacity(before);
      assert events[..|before|] == before;
      StepKeepsAll(Run(before), events[|before|]);
    }
  }

  // ── Progress ──────────────────────────────────────────────────────────────

  lemma RunNext(events: seq<Event>, e: Event)
    ensures Run(events + [e]) == Step(Run(events), e)
  {
    assert (events + [e])[..|events|] == events;
  }

  /** The worker writes n times over. */
  function Rounds(n: nat): seq<Event>
  {
    if n == 0 then [] else Rounds(n - 1) + [Work(true)]
  }

  /** A living worker appends exactly the oldest frame to the wire and takes exactly it off the queue. */
  lemma RoundWritesOldest(events: seq<Event>)
    requires Run(events).workerAlive && Run(events).queue != Some([])
    ensures var u, r := Run(events), Run(events + [Work(true)]);
            u.queue.Some? && r.workerAlive && r.queue == Some(u.queue.value[1..]) &&
            r.wire == u.wire + u.queue.value[0] && r.queued == u.queued
  {
    WireHoldsWholeFrames(events);
    RunNext(events, Work(true));
  }

  /** n frames have gone from the queue to the wire. */
  predicate Wrote(u: Usb, r: Usb, n: nat)
    requires u.queue.Some? && n <= |u.queue.value|
  {
    r.workerAlive && r.queue == Some(u.queue.value[n..]) && r.wire == u.wire + Concat(u.queue.value[..n]) &&
    r.queued == u.queued
  }

  /** The state after n rounds of the worker. */
  function Worked(u: Usb, n: nat): Usb
  {
    if n == 0 then u else Step(Worked(u, n - 1), Work(true))
  }

  lemma {:induction false} RunRounds(events: seq<Event>, n: nat)
    ensures Run(events + Rounds(n)) == Worked(Run(events), n)
  {
    if n == 0 {
      assert events + Rounds(0) == events;
    } else {
      RunRounds(events, n - 1);
      RunNext(events + Rounds(n - 1), Work(true));
      assert events + Rounds(n) == events + Rounds(n - 1) + [Work(true)];
    }
  }

  lemma {:induction false} RoundsWrite(u: Usb, n: nat)
    requires u.workerAlive && u.queue.Some? && n <= |u.queue.value|
    ensures Wrote(u, Worked(u, n), n)
  {
    if n == 0 {
      assert u.wire + [] == u.wire;
    } else {
      RoundsWrite(u, n - 1);
      WroteNext(u, Worked(u, n - 1), n - 1);
    }
  }

  lemma WroteNext(u: Usb, p: Usb, n: nat)
    requires u.queue.Some? && n < |u.queue.value| && Wrote(u, p, n)
    ensures Wrote(u, Step(p, Work(true)), n + 1)
  {
    NextFrame(u.wire, u.queue.value, n);
  }

  lemma NextFrame(wire: bytes, queue: seq<bytes>, n: nat)
    requires n < |queue|
    ensures wire + Concat(queue[..n]) + queue[n] == wire + Concat(queue[..n + 1])
    ensures queue[n..] != [] && queue[n..][0] == queue[n] && queue[n..][1..] == queue[n + 1..]
  {
    assert queue[..n + 1] == queue[..n] + [queue[n]];
    ConcatAppend(queue[..n], [queue[n]]);
    ConcatOne(queue[n]);
  }

  /** As many rounds of a living worker as frames are waiting write them all, in order. */
  lemma QueueDrains(events: seq<Event>)
    requires Run(events).workerAlive
    ensures var u := Run(events);
            u.queue.Some? &&
            var r := Run(events + Rounds(|u.queue.value|));
            r.workerAlive && r.queue == Some([]) && r.wire == u.wire + Concat(u.queue.value) && r.queued == u.queued
  {
    WireHoldsWholeFrames(events);
    var queue := Run(events).queue.value;
    RunRounds(events, |queue|);
    RoundsWrite(Run(events), |queue|);
    assert queue[..|queue|] == queue && queue[|queue|..] == [];
  }

  /** Nothing is left lying: the peer then has every message queued on this connection. */
  lemma QueueArrives(events: seq<Event>)
    requires Run(events).workerAlive && SendsDeliverable(events)
    ensures var u := Run(events);
            u.queue.Some? && ReadAll(Run(events + Rounds(|u.queue.value|)).wire) == u.queued
  {
    QueueDrains(events);
    var n := |Run(events).queue.value|;
    RoundsDeliverable(events, n);
    UsbEndToEnd(events + Rounds(n));
    WireHoldsWholeFrames(events + Rounds(n));
    AllWritten(Run(events + Rounds(n)));
  }

  lemma AllWritten(u: Usb)
    requires WholeFrames(u) && u.workerAlive && u.queue == Some([])
    ensures u.queued[..u.written] == u.queued
  {
    assert |Frames(u.queued[u.written..])| == |u.queued| - u.written;
  }

  lemma {:induction false} RoundsDeliverable(events: seq<Event>, n: nat)
    requires SendsDeliverable(events)
    ensures SendsDeliverable(events + Rounds(n))
  {
    if n == 0 {
      assert events + Rounds(0) == events;
    } else {
      RoundsDeliverable(events, n - 1);
      assert events + Rounds(n) == events + Rounds(n - 1) + [Work(true)];
    }
  }

  function Sends(ds: seq<bytes>): (r: seq<Event>)
    ensures |r| == |ds| && forall i :: 0 <= i < |ds| ==> r[i] == Send(ds[i])
  {
    seq(|ds|, i requires 0 <= i < |ds| => Send(ds[i]))
  }

  /** The bridge stands, its worker lives, and there is room in the queue for these messages. */
  predicate RoomFor(u: Usb, ds: seq<bytes>)
  {
    u.workerAlive && u.queue.Some? && |u.queue.value| + |ds| <= 64
  }

  /** They are queued, framed, behind what waits. */
  predicate QueuedBehind(u: Usb, r: Usb, ds: seq<bytes>)
    requires u.queue.Some? && Framable(ds)
  {
    r.queue == Some(u.queue.value + Frames(ds)) && r.queued == u.queued + ds && r.wire == u.wire && r.workerAlive
  }

  lemma {:induction false} SendsQueue(events: seq<Event>, ds: seq<bytes>)
    requires RoomFor(Run(events), ds) && Framable(ds)
    ensures QueuedBehind(Run(events), Run(events + Sends(ds)), ds)
  {
    if ds == [] {
      assert events + Sends(ds) == events;
      assert Run(events).queue.value + Frames(ds) == Run(events).queue.value;
    } else {
      var n := |ds| - 1;
      SendsQueue(events, ds[..n]);
      assert events + Sends(ds) == events + Sends(ds[..n]) + [Send(ds[n])];
      RunNext(events + Sends(ds[..n]), Send(ds[n]));
      SendQueues(Run(events), Run(events + Sends(ds[..n])), ds, n);
    }
  }

  lemma SendQueues(u: Usb, p: Usb, ds: seq<bytes>, n: nat)
    requires Framable(ds) && |ds| == n + 1 && RoomFor(u, ds) && QueuedBehind(u, p, ds[..n])
    ensures QueuedBehind(u, AfterSend(p, ds[n]), ds)
  {
    OneMoreFrame(u.queue.value, ds, n);
  }

  lemma OneMoreFrame(queue: seq<bytes>, ds: seq<bytes>, n: nat)
    requires Framable(ds) && |ds| == n + 1
    ensures queue + Frames(ds[..n]) + [Framed(ds[n])] == queue + Frames(ds) && ds[..n] + [ds[n]] == ds
  {
    assert ds[..n] + [ds[n]] == ds;
    FramesAppend(ds[..n], ds[n]);
    FrameBehind(queue, Frames(ds[..n]), Framed(ds[n]));
  }

  lemma FrameBehind(queue: seq<bytes>, frames: seq<bytes>, frame: bytes)
    ensures queue + frames + [frame] == queue + (frames + [frame])
  {
  }

  /** Without a bridge a message goes nowhere. */
  lemma NoBridgeNoSend(events: seq<Event>, d: bytes)
    requires Run(events).queue.None?
    ensures Run(events + [Send(d)]) == Run(events)
  {
    RunNext(events, Send(d));
  }

  /** A message is never queued beyond the 64th place: it is dropped, and nothing else changes. */
  lemma FullQueueDrops(events: seq<Event>, d: bytes)
    requires Run(events).queue.Some? && |Run(events).queue.value| >= 64 && |d| < 0x1_0000_0000
    ensures Run(events + [Send(d)]) == Run(events).(sent := Run(events).sent + [d])
  {
    RunNext(events, Send(d));
  }

  /**
   * Sent on a bridge that stands, with room for them, messages reach the peer behind those queued
   * before: in the state r after the worker has written what waits, that is all it has read.
   */
  lemma SentArrives(events: seq<Event>, ds: seq<bytes>, sent: seq<Event>, r: Usb)
    requires RoomFor(Run(events), ds) && SendsDeliverable(events) && Deliverable(ds)
    requires sent == events + Sends(ds) && r == Run(sent + Rounds(|Run(events).queue.value| + |ds|))
    ensures r.queue == Some([]) && ReadAll(r.wire) == Run(events).queued + ds
  {
    SendsQueue(events, ds);
    SendsMore(events, ds);
    BehindArrives(Run(events), ds, sent, r);
  }

  lemma BehindArrives(u: Usb, ds: seq<bytes>, events: seq<Event>, r: Usb)
    requires RoomFor(u, ds) && Framable(ds) && QueuedBehind(u, Run(events), ds) && SendsDeliverable(events)
    requires r == Run(events + Rounds(|u.queue.value| + |ds|))
    ensures r.queue == Some([]) && ReadAll(r.wire) == u.queued + ds
  {
    ReadOnceWritten(events, |u.queue.value| + |ds|, r);
  }

  lemma ReadOnceWritten(events: seq<Event>, n: nat, r: Usb)
    requires Run(events).workerAlive && SendsDeliverable(events) && r == Run(events + Rounds(n))
    requires Run(events).queue.Some? && |Run(events).queue.value| == n
    ensures r.queue == Some([]) && ReadAll(r.wire) == Run(events).queued
  {
    QueueDrains(events);
    QueueArrives(events);
  }

  lemma SendsMore(events: seq<Event>, ds: seq<bytes>)
    requires SendsDeliverable(events) && Deliverable(ds)
    ensures SendsDeliverable(events + Sends(ds))
  {
  }

  /** A bridge that comes up greets the peer: the restart message is the first thing it reads. */
  lemma BridgeGreets(events: seq<Event>)
    requires !Run(events).stopped && Run(events).queue.None?
    ensures var u := Run(events + [BridgeUp]);
            u.workerAlive && u.wire == [] && u.queue == Some([Framed(RestartAdv())])
    ensures ReadAll(Run(events + [BridgeUp] + [Work(true)]).wire) == [RestartAdv()]
  {
    RunNext(events, BridgeUp);
    assert [] + [Framed(RestartAdv())] == [Framed(RestartAdv())];
    RoundWritesOldest(events + [BridgeUp]);
    FirstFrameRead(RestartAdv(), []);
    NothingToRead();
    assert Run(events + [BridgeUp] + [Work(true)]).wire == Framed(RestartAdv()) + [];
    assert [RestartAdv()] + [] == [RestartAdv()];
  }

  lemma NothingToRead()
    ensures ReadAll([]) == []
  {
    assert FirstPlausible([]).None?;
  }

  /** A failed write loses the frame and ends the worker: until the next bridge the wire stands still. */
  lemma {:induction false} FailedWriteSilences(events: seq<Event>, more: seq<Event>)
    requires Run(events).workerAlive && Run(events).queue != Some([]) && BridgeUp !in more
    ensures var u, r := Run(events), Run(events + [Work(false)] + more);
            !r.workerAlive && r.wire == u.wire
    decreases |more|
  {
    if more == [] {
      assert events + [Work(false)] + more == events + [Work(false)];
      WireHoldsWholeFrames(events);
      RunNext(events, Work(false));
    } else {
      var n := |more| - 1;
      var before := events + [Work(false)] + more[..n];
      FailedWriteSilences(events, more[..n]);
      RunNext(before, more[n]);
      assert before + [more[n]] == events + [Work(false)] + more;
    }
  }

  /** Whatever a dispatcher answers is deliverable, and the peer's side takes none of it for a control message. */
  lemma {:induction false} EmitDeliverable(codec: D.Codec, passcode: nat, replies: seq<D.Reply>)
    requires passcode < 0x1_0000_0000 && forall i :: 0 <= i < |replies| ==> replies[i].cmd < 256
    ensures Deliverable(D.Emit(codec, passcode, replies).sent)
    ensures forall m <- D.Emit(codec, passcode, replies).sent :: !IsControl(m)
  {
    if replies != [] && D.EncodeReply(codec, passcode, replies[0]).Encoded? {
      EmitDeliverable(codec, passcode, replies[1..]);
      RoundTrip(passcode, replies[0].cmd, D.PayloadBytes(codec, replies[0]), 0);
      var p := D.EncodeReply(codec, passcode, replies[0]).packet;
      if IsControl(p) {
        PacketsAreNotControl(p);
      }
      JoinDeliverable([p], D.Emit(codec, passcode, replies[1..]).sent);
    }
  }

  lemma JoinDeliverable(a: seq<bytes>, b: seq<bytes>)
    requires Deliverable(a) && Deliverable(b)
    ensures Deliverable(a + b)
  {
  }

  lemma PlannedCommands(home: Home, outcome: D.ServiceOutcome, cmd: nat, payload: Json)
    requires cmd < 256
    ensures forall r <- D.PlanFor(home, outcome, cmd, payload).replies :: r.cmd < 256
  {
  }

  lemma HandledDeliverable(codec: D.Codec, passcode: nat, input: Input)
    requires passcode < 0x1_0000_0000
    ensures Deliverable(SentFor(codec, passcode, input))
    ensures forall m <- SentFor(codec, passcode, input) :: !IsControl(m)
  {
    var m := DecodePacket(input.raw);
    if m.Some? {
      if m.value.passcode != passcode {
        EmitDeliverable(codec, passcode, [D.WRONG_PASSCODE]);
      } else {
        var payload := D.Parse(codec, m.value.payload);
        PlannedCommands(input.home, input.outcome, m.value.cmd, payload);
        EmitDeliverable(codec, passcode, D.PlanFor(input.home, input.outcome, m.value.cmd, payload).replies);
      }
    }
  }

  /** Everything a dispatcher sends in a session meets what UsbEndToEnd asks of the messages sent. */
  lemma {:induction false} ServedDeliverable(codec: D.Codec, passcode: nat, inputs: seq<Input>)
    requires passcode < 0x1_0000_0000
    ensures Deliverable(Serve(codec, passcode, inputs))
    ensures forall m <- Serve(codec, passcode, inputs) :: !IsControl(m)
  {
    if inputs == [] {
    } else {
      var n := |inputs| - 1;
      ServedDeliverable(codec, passcode, inputs[..n]);
      HandledDeliverable(codec, passcode, inputs[n]);
      JoinDeliverable(Serve(codec, passcode, inputs[..n]), SentFor(codec, passcode, inputs[n]));
    }
  }

  lemma {:induction false} EachDeliverable(codec: D.Codec, passcode: nat, replies: seq<D.Reply>)
    requires passcode < 0x1_0000_0000 && forall r <- replies :: r.cmd < 256
    ensures Deliverable(EachSent(codec, passcode, replies))
    ensures forall m <- EachSent(codec, passcode, replies) :: !IsControl(m)
  {
    if replies == [] {
    } else {
      EachDeliverable(codec, passcode, replies[1..]);
      EmitDeliverable(codec, passcode, [replies[0]]);
      JoinDeliverable(D.Emit(codec, passcode, [replies[0]]).sent, EachSent(codec, passcode, replies[1..]));
    }
  }

  /** What makes a dispatcher send: a packet that arrives, or a change of state. */
  datatype Cause = Arrival(input: Input) | StateChange(home: Home, newState: Option<EntityState>)

  function Caused(codec: D.Codec, passcode: nat, cause: Cause): seq<bytes>
  {
    match cause
    case Arrival(input) => SentFor(codec, passcode, input)
    case StateChange(home, newState) => EachSent(codec, passcode, D.Pushed(home, newState))
  }

  ghost predicate FromDispatcher(codec: D.Codec, passcode: nat, packet: bytes)
  {
    exists cause :: packet in Caused(codec, passcode, cause)
  }

  /** If a dispatcher is all that sends, UsbEndToEnd applies: no further condition on the run is needed. */
  lemma DispatcherSendsDeliverable(codec: D.Codec, passcode: nat, events: seq<Event>)
    requires passcode < 0x1_0000_0000
    requires forall i :: 0 <= i < |events| && events[i].Send? ==> FromDispatcher(codec, passcode, events[i].data)
    ensures SendsDeliverable(events)
    ensures forall i :: 0 <= i < |events| && events[i].Send? ==> !IsControl(events[i].data)
  {
    forall i | 0 <= i < |events| && events[i].Send?
      ensures 0 < |events[i].data| <= MAX_FRAME && !IsControl(events[i].data)
    {
      DispatchedDeliverable(codec, passcode, events[i].data);
    }
  }

  lemma DispatchedDeliverable(codec: D.Codec, passcode: nat, packet: bytes)
    requires passcode < 0x1_0000_0000 && FromDispatcher(codec, passcode, packet)
    ensures 0 < |packet| <= MAX_FRAME && !IsControl(packet)
  {
    var cause :| packet in Caused(codec, passcode, cause);
    CausedDeliverable(codec, passcode, cause);
    Member(Caused(codec, passcode, cause), packet);
  }

  lemma CausedDeliverable(codec: D.Codec, passcode: nat, cause: Cause)
    requires passcode < 0x1_0000_0000
    ensures Deliverable(Caused(codec, passcode, cause))
    ensures forall m <- Caused(codec, passcode, cause) :: !IsControl(m)
  {
    match cause
    case Arrival(input) => HandledDeliverable(codec, passcode, input);
    case StateChange(home, newState) => EachDeliverable(codec, passcode, D.Pushed(home, newState));
  }

  lemma Member(messages: seq<bytes>, m: bytes)
    requires Deliverable(messages) && m in messages
    ensures 0 < |m| <= MAX_FRAME
  {
  }

  // ── Demultiplexing what arrives ───────────────────────────────────────────

  predicate IsControl(raw: bytes)
  {
    raw[..if |raw| > 0 then 1 else 0] == [BRACE]
  }

  /** No valid packet is ever taken for a control message. */
  lemma PacketsAreNotControl(raw: bytes)
    requires IsControl(raw)
    ensures DecodePacket(raw) == None
  {
    if |raw| >= 14 {
      assert raw[..1][0] == raw[0] && raw[..2][0] == raw[0];
    }
  }

  datatype ControlMessage = ClientConnected | ClientDisconnected | OtherMessage | Unparsable | NotAnObject

  /** What a control message means for the client; log and OTA messages mean nothing. */
  function ReadControl(codec: D.Codec, raw: bytes): ControlMessage
  {
    match codec.loads(raw)
    case None => Unparsable
    case Some(Obj(fields)) =>
      var kind := D.Get(fields, "type", Null);
      if kind == Str("client_connected") then ClientConnected
      else if kind == Str("client_disconnected") then ClientDisconnected
      else OtherMessage
    case Some(_) => NotAnObject
  }

  function AfterControl(u: Usb, message: ControlMessage): Usb
  {
    match message
    case ClientConnected => Step(u, Control(true))
    case ClientDisconnected => Step(u, Control(false))
    case _ => u
  }

  /** What the loop hands on: a control message to _handle_control, a packet to the dispatcher. */
  datatype Taken = AsControl(raw: bytes) | AsPacket(raw: bytes)

  function Take(raw: bytes): Taken
  {
    if IsControl(raw) then AsControl(raw) else AsPacket(raw)
  }

  function Demultiplexed(raws: seq<bytes>): (taken: seq<Taken>)
    ensures |taken| == |raws| && forall i :: 0 <= i < |raws| ==> taken[i] == Take(raws[i])
  {
    seq(|raws|, i requires 0 <= i < |raws| => Take(raws[i]))
  }

  /** Reading one more frame moves it from what is to come to what was taken. */
  lemma TakeNext(got: seq<Taken>, s: bytes)
    requires ReadFrame(s).outcome.Frame?
    ensures var r := ReadFrame(s);
            r.used > 0 &&
            got + [Take(r.outcome.payload)] + Demultiplexed(ReadAll(s[r.used..])) == got + Demultiplexed(ReadAll(s))
  {
    var r := ReadFrame(s);
    DemultiplexedFirst(got, r.outcome.payload, ReadAll(s[r.used..]));
  }

  lemma DemultiplexedFirst(got: seq<Taken>, raw: bytes, raws: seq<bytes>)
    ensures got + [Take(raw)] + Demultiplexed(raws) == got + Demultiplexed([raw] + raws)
  {
  }

  lemma NothingMore(got: seq<Taken>, s: bytes)
    requires !ReadFrame(s).outcome.Frame?
    ensures got + Demultiplexed(ReadAll(s)) == got
  {
  }

  /** The reader loop until the stream ends or cannot be resynchronised. */
  method ReaderLoop(reader: StreamReader) returns (taken: seq<Taken>)
    requires reader.Valid()
    modifies reader`pos
    ensures taken == Demultiplexed(ReadAll(old(reader.Rest())))
  {
    taken := [];
    assert [] + Demultiplexed(ReadAll(reader.Rest())) == Demultiplexed(ReadAll(reader.Rest()));
    while true
      invariant reader.Valid()
      invariant taken + Demultiplexed(ReadAll(reader.Rest())) == Demultiplexed(ReadAll(old(reader.Rest())))
      decreases |reader.Rest()|
    {
      ghost var s := reader.Rest();
      var o := RfcommReadFrame(reader);
      match o {
        case Frame(raw) =>
          TakeNext(taken, s);
          if IsControl(raw) {
            taken := taken + [AsControl(raw)];
          } else {
            taken := taken + [AsPacket(raw)];
          }
        case _ =>
          NothingMore(taken, s);
          return;
      }
    }
  }

  // ── Life cycle of the subscription ────────────────────────────────────────

  /** No bridge, no client; and unless stop() intervened, a listener exactly while a client is there. */
  predicate Tended(u: Usb)
  {
    D.Safe(u.client) && (u.queue.None? ==> !u.client.connected) && (!u.stopped ==> D.Synced(u.client))
  }

  lemma {:induction false} SubscriptionTended(events: seq<Event>)
    ensures Tended(Run(events))
    ensures Run(events).stopped ==> Run(events).client.live == {}
  {
    if events == [] {
    } else {
      var u := Run(events[..|events| - 1]);
      SubscriptionTended(events[..|events| - 1]);
      if !u.stopped {
        D.ClientSignalsKeep(u.client);
      }
    }
  }

  /**
   * While a bridge stands and the server runs, a control message that reports a client makes it
   * listen for changes, and one that reports its departure or the end of the bridge stops that.
   */
  lemma ControlSubscribes(events: seq<Event>)
    requires Run(events).queue.Some? && !Run(events).stopped
    ensures var c := Run(events + [Control(true)]).client; c.connected && |c.live| == 1
    ensures var c := Run(events + [Control(false)]).client; !c.connected && c.live == {}
    ensures var u := Run(events + [BridgeDown]);
            u.queue.None? && !u.workerAlive && !u.client.connected && u.client.live == {}
  {
    SubscriptionTended(events);
    RunNext(events, Control(true));
    RunNext(events, Control(false));
    RunNext(events, BridgeDown);
    D.ClientSignalsKeep(Run(events).client);
    ListenersAre(D.OnConnected(Run(events).client));
  }

  lemma ListenersAre(c: D.Client)
    requires D.Safe(c) && D.Synced(c)
    ensures |c.live| == if c.connected then 1 else 0
  {
  }

  lemma ReadControlIs(codec: D.Codec, raw: bytes)
    ensures var j, m := codec.loads(raw), ReadControl(codec, raw);
            (m.Unparsable? <==> j.None?) && (m.NotAnObject? <==> j.Some? && !j.value.Obj?) &&
            (m.ClientConnected? <==> IsOfType(j, "client_connected")) &&
            (m.ClientDisconnected? <==> IsOfType(j, "client_disconnected"))
  {
  }

  /** A control message of this type. */
  predicate IsOfType(j: Option<Json>, kind: string)
  {
    j.Some? && j.value.Obj? && "type" in j.value.fields && j.value.fields["type"] == Str(kind)
  }

  /**
   * While a bridge stands and the server runs, the text that reports a client makes it listen for
   * changes, the one that reports its departure stops that, and no other changes anything; nor does the
   * bridge lose or gain a frame by any.
   */
  lemma ControlMeans(events: seq<Event>, codec: D.Codec, raw: bytes)
    requires Run(events).queue.Some? && !Run(events).stopped
    ensures var u, r := Run(events), AfterControl(Run(events), ReadControl(codec, raw));
            if IsOfType(codec.loads(raw), "client_connected") then
              r == u.(client := r.client) && r.client.connected && |r.client.live| == 1
            else if IsOfType(codec.loads(raw), "client_disconnected") then
              r == u.(client := r.client) && !r.client.connected && r.client.live == {}
            else r == u
  {
    ReadControlIs(codec, raw);
    ControlSubscribes(events);
    RunNext(events, Control(true));
    RunNext(events, Control(false));
  }

  /**
   * stop() takes the listener away at once but leaves the client flag standing; ending the bridge
   * then lowers the flag too, so that both are off.
   */
  lemma StopThenBridgeDown(events: seq<Event>)
    requires Run(events).queue.Some? && !Run(events).stopped && Run(events).client.connected
    ensures var u := Run(events + [Stop]);
            u.client.connected && u.client.live == {} && !D.Synced(u.client)
    ensures var u := Run(events + [Stop, BridgeDown]);
            !u.client.connected && u.client.live == {} && D.Synced(u.client)
  {
    SubscriptionTended(events);
    assert (events + [Stop])[..|events|] == events;
    assert (events + [Stop, BridgeDown])[..|events| + 1] == events + [Stop];
  }

  /** Once stopped, no bridge comes up any more, and nobody listens. */
  lemma {:induction false} NoBridgeAfterStop(events: seq<Event>, more: seq<Event>)
    ensures var u := Run(events + [Stop] + more);
            u.stopped && u.client.live == {} && (Run(events).queue.None? ==> u.queue.None?)
    decreases |more|
  {
    SubscriptionTended(events + [Stop] + more);
    if more == [] {
      assert events + [Stop] + more == events + [Stop];
      RunNext(events, Stop);
    } else {
      var n := |more| - 1;
      NoBridgeAfterStop(events, more[..n]);
      RunNext(events + [Stop] + more[..n], more[n]);
      assert events + [Stop] + more[..n] + [more[n]] == events + [Stop] + more;
    }
  }

  // ── The server object ─────────────────────────────────────────────────────

  class UsbSerialServer {
    const dispatcher: D.PacketDispatcher
    var running: bool
    var writeQueue: Option<seq<bytes>>
    var workerAlive: bool
    var wire: bytes

    constructor (dispatcher: D.PacketDispatcher)
      ensures this.dispatcher == dispatcher && running && writeQueue == None && !workerAlive && wire == []
    {
      this.dispatcher := dispatcher;
      running, writeQueue, workerAlive, wire := true, None, false, [];
    }

    /** Everything the specification keeps in real fields. */
    predicate Shows(u: Usb)
      reads this, dispatcher
    {
      running == !u.stopped && writeQueue == u.queue && workerAlive == u.workerAlive && wire == u.wire &&
      dispatcher.AsClient() == u.client
    }

    /** The result says whether framing raised. */
    method SendRaw(data: bytes, ghost u: Usb) returns (raised: bool)
      requires Shows(u)
      modifies this`writeQueue
      ensures Shows(AfterSend(u, data))
      ensures raised <==> writeQueue.Some? && |data| >= 0x1_0000_0000
    {
      if writeQueue.None? {
        return false;
      }
      var frame := FrameForUsb(data);
      if frame.None? {
        return true;
      }
      if |writeQueue.value| < QUEUE_SIZE {
        writeQueue := Some(writeQueue.value + [frame.value]);
      }
      return false;
    }

    /** ok says whether writing succeeds; if not, the worker is gone. */
    method WriteWorkerRound(ok: bool, ghost u: Usb)
      requires Shows(u) && workerAlive && writeQueue.Some? && writeQueue.value != []
      modifies this`writeQueue, this`wire, this`workerAlive
      ensures Shows(Step(u, Work(ok)))
    {
      var data := writeQueue.value[0];
      writeQueue := Some(writeQueue.value[1..]);
      if ok {
        wire := wire + data;
      } else {
        workerAlive := false;
      }
    }

    method BridgeBegins(ghost u: Usb)
      requires Shows(u) && running && writeQueue.None?
      modifies this`writeQueue, this`wire, this`workerAlive
      ensures Shows(Step(u, BridgeUp))
    {
      writeQueue := Some([]);
      workerAlive := true;
      wire := [];
      var _ := SendRaw(RestartAdv(), u.(queue := Some([]), workerAlive := true, wire := [],
                                        sent := [], queued := [], written := 0));
    }

    method BridgeEnds(ghost u: Usb)
      requires Shows(u) && writeQueue.Some? && dispatcher as object != this
      modifies this`writeQueue, this`workerAlive, dispatcher
      ensures Shows(Step(u, BridgeDown))
    {
      writeQueue := None;
      workerAlive := false;
      dispatcher.OnBleClientDisconnected();
    }

    /** The result says whether the message was no object, which raises. */
    method HandleControl(raw: bytes, ghost u: Usb) returns (raised: bool)
      requires Shows(u) && writeQueue.Some? && running && dispatcher as object != this
      modifies dispatcher
      ensures Shows(AfterControl(u, ReadControl(dispatcher.codec, raw)))
      ensures raised <==> ReadControl(dispatcher.codec, raw).NotAnObject?
    {
      var message := ReadControl(dispatcher.codec, raw);
      raised := message.NotAnObject?;
      match message
      case ClientConnected => dispatcher.OnBleClientConnected();
      case ClientDisconnected => dispatcher.OnBleClientDisconnected();
      case _ =>
    }

    method StopRequested(ghost u: Usb)
      requires Shows(u) && dispatcher as object != this
      modifies this`running, dispatcher
      ensures Shows(Step(u, Stop))
    {
      running := false;
      dispatcher.UnsubscribeStateChanges();
    }
  }
}
