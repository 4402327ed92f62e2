/**
 * A client's conversation with the native bridge, end to end: chunks in, frames to handler tasks,
 * their replies and the pushed changes through send_frame and the TX worker, and back to the
 * client's own reassembly.
 */
module NativeTasks {
  import opened Bytes
  import opened GattServer
  import opened NativeRuns
  import opened Replies
  import D = Dispatcher
  import E = Exposure

  // ── Tasks ─────────────────────────────────────────────────────────────────

  /** Why a packet is sent: it answers the packet, or tells the change, of this number. */
  datatype Cause = Answers(value: nat) | Tells(change: int)

  datatype Item = Item(packet: bytes, cause: Cause)

  function Stamped(packets: seq<bytes>, cause: Cause): (items: seq<Item>)
    ensures |items| == |packets|
    ensures forall k :: 0 <= k < |packets| ==> items[k] == Item(packets[k], cause)
  {
    seq(|packets|, k requires 0 <= k < |packets| => Item(packets[k], cause))
  }

  function Packets(items: seq<Item>): (packets: seq<bytes>)
    ensures |packets| == |items| && forall k :: 0 <= k < |items| ==> packets[k] == items[k].packet
  {
    seq(|items|, k requires 0 <= k < |items| => items[k].packet)
  }

  /**
   * What a dispatcher's handlers send: in reply to a packet, and to push a change. calls says
   * whether the packet asks for a service call.
   */
  datatype Handlers = Handlers(replies: Input -> seq<bytes>, calls: Input -> bool, told: D.Reply -> seq<bytes>)

  function HandlersOf(codec: D.Codec, passcode: nat): (h: Handlers)
    ensures forall x :: h.replies(x) == SentFor(codec, passcode, x)
    ensures forall x :: h.calls(x) <==> KindOf(passcode, x.raw) == Request(D.CALL_SERVICE)
    ensures forall r :: h.told(r) == D.Emit(codec, passcode, [r]).sent
  {
    Handlers((x: Input) => SentFor(codec, passcode, x),
             (x: Input) => KindOf(passcode, x.raw) == Request(D.CALL_SERVICE),
             (r: D.Reply) => D.Emit(codec, passcode, [r]).sent)
  }

  predicate AllFull(packets: seq<bytes>)
  {
    forall k :: 0 <= k < |packets| ==> packets[k] != []
  }

  /** No packet is empty. */
  ghost predicate Full(h: Handlers)
  {
    (forall x: Input :: AllFull(h.replies(x))) && forall r: D.Reply :: r.cmd == D.STATE_CHANGE ==> AllFull(h.told(r))
  }

  /** The pushes of a sequence of changes, each sent by a task of its own. */
  function EachTold(h: Handlers, changes: seq<D.Reply>): seq<bytes>
  {
    if changes == [] then [] else h.told(changes[0]) + EachTold(h, changes[1..])
  }

  lemma {:induction false} EachToldAppend(h: Handlers, a: seq<D.Reply>, b: seq<D.Reply>)
    ensures EachTold(h, a + b) == EachTold(h, a) + EachTold(h, b)
  {
    if a == [] {
      assert a + b == b;
    } else {
      assert (a + b)[1..] == a[1..] + b;
      EachToldAppend(h, a[1..], b);
      MoveFirst(h.told(a[0]), EachTold(h, a[1..]), EachTold(h, b));
    }
  }

  /** The handler of this packet waits for a service call, between its acknowledgement and its answer. */
  predicate Suspends(h: Handlers, input: Input)
  {
    h.calls(input) && |h.replies(input)| > 1
  }

  /** What a handler sends before it first lets go of the loop. */
  function Immediate(h: Handlers, input: Input): seq<bytes>
  {
    if Suspends(h, input) then h.replies(input)[..1]
    else h.replies(input)
  }

  function Late(h: Handlers, input: Input): seq<bytes>
  {
    if Suspends(h, input) then h.replies(input)[1..] else []
  }

  /**
   * handled lists the packets whose handler has begun and suspended those waiting for a service;
   * changes are the pushes scheduled and waiting those whose task has not run. The tasks that did
   * run put their packets in line, of which the first `sent` went to send_frame; logged are the places
   * in line of those sent while the current connection stood. base counts those sent before it, clean
   * those sent in it before one was refused, and firstFrame and firstChange are the numbers of frames
   * completed and of changes scheduled before it.
   */
  datatype Session = Session(
    world: World,
    handled: seq<Input>,
    suspended: set<nat>,
    changes: seq<D.Reply>,
    waiting: seq<D.Reply>,
    line: seq<Item>,
    sent: nat,
    base: nat,
    clean: nat,
    logged: seq<nat>,
    firstFrame: nat,
    firstChange: nat)

  datatype Move =
    | Native(event: Event)                                         // any step but a send
    | Begin(home: E.Home, outcome: D.ServiceOutcome)               // the next packet's handler starts
    | Resume(index: nat)                                           // a service call returns
    | Change(home: E.Home, newState: Option<E.EntityState>)        // state_changed
    | PushRuns                                                     // the oldest push task
    | Issue                                                        // the running task calls _send_raw

  const OPENING := Session(BEGIN, [], {}, [], [], [], 0, 0, 0, [], 0, 0)

  /** The bridge has moved on to w; a new connection starts new counts. */
  function InWorld(s: Session, w: World): Session
  {
    if w.past.epoch == s.world.past.epoch then s.(world := w)
    else
      s.(world := w, base := s.sent, clean := 0, logged := [],
         firstFrame := |s.world.past.frames|, firstChange := |s.changes|)
  }

  function Begun(h: Handlers, s: Session, input: Input): Session
  {
    var i := |s.handled|;
    s.(handled := s.handled + [input],
       suspended := s.suspended + if Suspends(h, input) then {i} else {},
       line := s.line + Stamped(Immediate(h, input), Answers(i)))
  }

  function Resumed(h: Handlers, s: Session, i: nat): Session
    requires i < |s.handled|
  {
    s.(suspended := s.suspended - {i},
       line := s.line + Stamped(Late(h, s.handled[i]), Answers(i)))
  }

  function Changed(s: Session, more: seq<D.Reply>): Session
  {
    s.(changes := s.changes + more, waiting := s.waiting + more)
  }

  function Told(h: Handlers, s: Session): Session
    requires s.waiting != []
  {
    s.(waiting := s.waiting[1..],
       line := s.line + Stamped(h.told(s.waiting[0]), Tells(|s.changes| - |s.waiting|)))
  }

  function Issued(s: Session): Session
    requires Inv(s.world) && s.sent < |s.line|
  {
    var packet := s.line[s.sent].packet;
    s.(world := Step(s.world, Send(packet)), sent := s.sent + 1,
       logged := s.logged + if CanSend(s.world.gatt) then [s.sent] else [],
       clean := if s.base + s.clean == s.sent && SendAccepted(s.world.gatt, packet) then s.clean + 1 else s.clean)
  }

  /** A task that runs sends all it has to send before anything else happens. */
  function After(h: Handlers, s: Session, m: Move): Session
    requires Inv(s.world)
  {
    if m.Issue? != (s.sent < |s.line|) then s else Moved(h, s, m)
  }

  function Moved(h: Handlers, s: Session, m: Move): Session
    requires Inv(s.world) && m.Issue? == (s.sent < |s.line|)
  {
    match m
    case Native(e) => if e.Send? then s else InWorld(s, Step(s.world, e))
    case Begin(home, outcome) =>
      if |s.handled| >= |s.world.past.incoming| then s
      else Begun(h, s, Input(s.world.past.incoming[|s.handled|], home, outcome))
    case Resume(i) => if i !in s.suspended || i >= |s.handled| then s else Resumed(h, s, i)
    case Change(home, newState) =>
      if s.world.client.live == {} then s else Changed(s, D.Pushed(home, newState))
    case PushRuns => if s.waiting == [] then s else Told(h, s)
    case Issue => Issued(s)
  }

  // ── The packets of one cause ──────────────────────────────────────────────

  function Part(line: seq<Item>, cause: Cause): seq<bytes>
  {
    if line == [] then []
    else
      var n := |line| - 1;
      Part(line[..n], cause) + if line[n].cause == cause then [line[n].packet] else []
  }

  lemma PartNext(line: seq<Item>, item: Item, cause: Cause)
    ensures Part(line + [item], cause) == Part(line, cause) + if item.cause == cause then [item.packet] else []
  {
    assert (line + [item])[..|line|] == line;
  }

  lemma {:induction false} PartStamped(line: seq<Item>, packets: seq<bytes>, own: Cause, cause: Cause)
    ensures Part(line + Stamped(packets, own), cause) == Part(line, cause) + if own == cause then packets else []
    decreases |packets|
  {
    if packets == [] {
      assert line + Stamped(packets, own) == line;
    } else {
      var n := |packets| - 1;
      PartStamped(line, packets[..n], own, cause);
      PartNext(line + Stamped(packets[..n], own), Item(packets[n], own), cause);
      StampedNext(line, packets, own);
      LastPacket(packets);
    }
  }

  lemma StampedNext(line: seq<Item>, packets: seq<bytes>, own: Cause)
    requires packets != []
    ensures var n := |packets| - 1;
            line + Stamped(packets, own) == line + Stamped(packets[..n], own) + [Item(packets[n], own)]
  {
  }

  lemma LastPacket(packets: seq<bytes>)
    requires packets != []
    ensures packets[..|packets| - 1] + [packets[|packets| - 1]] == packets
  {
  }

  /** The packets that tell changes. */
  function Pushes(line: seq<Item>): seq<bytes>
  {
    if line == [] then []
    else
      var n := |line| - 1;
      Pushes(line[..n]) + if line[n].cause.Tells? then [line[n].packet] else []
  }

  lemma PushesNext(line: seq<Item>, item: Item)
    ensures Pushes(line + [item]) == Pushes(line) + if item.cause.Tells? then [item.packet] else []
  {
    assert (line + [item])[..|line|] == line;
  }

  lemma {:induction false} PushesStamped(line: seq<Item>, packets: seq<bytes>, own: Cause)
    ensures Pushes(line + Stamped(packets, own)) == Pushes(line) + if own.Tells? then packets else []
    decreases |packets|
  {
    if packets == [] {
      assert line + Stamped(packets, own) == line;
    } else {
      var n := |packets| - 1;
      PushesStamped(line, packets[..n], own);
      PushesNext(line + Stamped(packets[..n], own), Item(packets[n], own));
      StampedNext(line, packets, own);
      LastPacket(packets);
    }
  }
}
