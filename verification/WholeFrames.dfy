/**
 * The whole frames a client hears before one of its connection is refused, and which of them answer
 * an earlier client. Chunks of refused packets are not looked at here.
 */
module WholeFrames {
  import opened Bytes
  import opened BleChunks
  import opened GattServer
  import opened NativeRuns
  import opened NativeTasks
  import opened NativeSession
  import opened NativeHearing
  import opened NativeReach
  import opened NextClient
  import opened Replies
  import D = Dispatcher

  /** The most that fits an empty TX queue. */
  const LARGEST := 62464

  /** The packet answers one that was completed before the current connection. */
  predicate StaleReply(s: Session, item: Item)
  {
    item.cause.Answers? && item.cause.value < s.firstFrame
  }

  /** Every whole frame heard before a refusal that is a reply answers a packet completed in this connection. */
  predicate OwnOnly(s: Session)
  {
    s.base + Whole(s) <= |s.line| && forall p :: s.base <= p < s.base + Whole(s) ==> !StaleReply(s, s.line[p])
  }

  // ── What is owed ──────────────────────────────────────────────────────────

  predicate Small(packet: Option<bytes>)
  {
    packet.Some? && |packet.value| <= LARGEST
  }

  /** An acknowledgement, which is what a packet that calls a service gets first, always fits. */
  ghost predicate Acknowledges(h: Handlers, first: First)
  {
    forall x: Input :: h.calls(x) ==> Small(first(x.raw))
  }

  /** A service call is out whose answer fits the queue. */
  predicate AnswerOwed(h: Handlers, s: Session)
  {
    exists i :: i in s.suspended && i < |s.handled| && |h.replies(s.handled[i])| > 1 &&
                |h.replies(s.handled[i])[1]| <= LARGEST
  }

  /** That, or a completed packet is not handled yet and the next reply due for any such fits the queue. */
  predicate Owes(h: Handlers, first: First, s: Session)
  {
    AnswerOwed(h, s) ||
    (|s.handled| <= |s.world.past.frames| && Small(FirstOwed(first, s.world.past.frames[|s.handled|..])))
  }

  // ── If nothing is owed ────────────────────────────────────────────────────

  /** A packet was refused in this connection: from here on nothing counts as heard. */
  predicate Frozen(s: Session)
  {
    s.base + s.clean < s.sent
  }

  /** The next packet is stale, and too large for the queue. */
  predicate Doomed(s: Session)
  {
    s.sent < |s.line| && StaleReply(s, s.line[s.sent]) && |s.line[s.sent].packet| > LARGEST
  }

  predicate Calm(h: Handlers, first: First, s: Session)
  {
    (forall i <- s.suspended :: i < s.firstFrame && i < |s.handled| && |h.replies(s.handled[i])| > 1 ==>
      |h.replies(s.handled[i])[1]| > LARGEST) &&
    (|s.handled| < s.firstFrame ==>
      s.firstFrame <= |s.world.past.frames| &&
      !Small(FirstOwed(first, s.world.past.frames[|s.handled|..s.firstFrame]))) &&
    NoneStaleReply(s, s.sent, |s.line|)
  }

  predicate NoneStaleReply(s: Session, from: nat, to: nat)
    requires to <= |s.line|
  {
    forall p :: from <= p < to ==> !StaleReply(s, s.line[p])
  }

  predicate Guarded(h: Handlers, first: First, s: Session)
  {
    s.base + s.clean <= |s.line| && NoneStaleReply(s, s.base, s.base + s.clean) &&
    (Frozen(s) || Doomed(s) || Calm(h, first, s))
  }

  lemma AcceptedFits(w: World, packet: bytes)
    requires Inv(w) && SendAccepted(w.gatt, packet)
    ensures |packet| <= LARGEST
  {
    LargestAcceptedFrame(w.gatt, packet);
  }

  lemma IssueGuarded(h: Handlers, first: First, s: Session)
    requires Inv(s.world) && Logging(s) && s.sent < |s.line| && Guarded(h, first, s)
    ensures Guarded(h, first, Issued(s))
  {
    SendHistory(s.world, s.line[s.sent].packet);
    if SendAccepted(s.world.gatt, s.line[s.sent].packet) {
      AcceptedFits(s.world, s.line[s.sent].packet);
    }
  }

  lemma NativeGuarded(h: Handlers, first: First, s: Session, w: World)
    requires s.sent == |s.line| && Guarded(h, first, s)
    requires w.past.epoch == s.world.past.epoch && s.world.past.frames <= w.past.frames
    ensures Guarded(h, first, InWorld(s, w))
  {
    if |s.handled| < s.firstFrame <= |s.world.past.frames| {
      assert w.past.frames[|s.handled|..s.firstFrame] == s.world.past.frames[|s.handled|..s.firstFrame];
    }
  }

  /** More packets in line that answer no stale packet, or begin with a stale one too large. */
  lemma LineGuarded(s: Session, packets: seq<bytes>, cause: Cause)
    requires s.sent == |s.line| && NoneStaleReply(s, s.sent, |s.line|)
    ensures var t := s.(line := s.line + Stamped(packets, cause));
            ((cause.Tells? || cause.value >= s.firstFrame || packets == [] ==> NoneStaleReply(t, t.sent, |t.line|)) &&
             (packets != [] && cause.Answers? && cause.value < s.firstFrame && |packets[0]| > LARGEST ==> Doomed(t)))
  {
  }

  lemma BegunGuarded(h: Handlers, first: First, s: Session, input: Input)
    requires Lawful(h, first) && Acknowledges(h, first)
    requires Inv(s.world) && Answering(h, s) && s.sent == |s.line| && Guarded(h, first, s)
    requires |s.handled| < |s.world.past.incoming| && input.raw == s.world.past.incoming[|s.handled|]
    ensures Guarded(h, first, Begun(h, s, input))
  {
    if Frozen(s) {
      FrozenStays(h, first, s, Begun(h, s, input));
    } else {
      CalmBegun(h, first, s, input);
      LineExtends(h, first, s, Begun(h, s, input));
    }
  }

  /** Nothing counts as heard any more, or the tasks to come are harmless: either way what was counted stays. */
  lemma FrozenStays(h: Handlers, first: First, s: Session, t: Session)
    requires Guarded(h, first, s) && Frozen(s) && s.line <= t.line
    requires t.base == s.base && t.clean == s.clean && t.sent == s.sent && t.firstFrame == s.firstFrame
    ensures Guarded(h, first, t)
  {
  }

  lemma LineExtends(h: Handlers, first: First, s: Session, t: Session)
    requires Guarded(h, first, s) && s.line <= t.line && (Doomed(t) || Calm(h, first, t))
    requires t.base == s.base && t.clean == s.clean && t.firstFrame == s.firstFrame
    ensures Guarded(h, first, t)
  {
  }

  lemma CalmBegun(h: Handlers, first: First, s: Session, input: Input)
    requires Lawful(h, first) && Acknowledges(h, first)
    requires Inv(s.world) && Answering(h, s) && s.sent == |s.line| && Calm(h, first, s)
    requires |s.handled| < |s.world.past.incoming| && input.raw == s.world.past.incoming[|s.handled|]
    ensures Doomed(Begun(h, s, input)) || Calm(h, first, Begun(h, s, input))
  {
    if |s.handled| < s.firstFrame {
      StaleBegun(h, first, s, input);
    } else {
      OwnBegun(h, first, s, input);
    }
  }

  lemma OwnBegun(h: Handlers, first: First, s: Session, input: Input)
    requires Answering(h, s) && s.sent == |s.line| && Calm(h, first, s) && |s.handled| >= s.firstFrame
    ensures Calm(h, first, Begun(h, s, input))
  {
    LineGuarded(s, Immediate(h, input), Answers(|s.handled|));
    SuspendedCalm(h, s, input);
  }

  lemma SuspendedCalm(h: Handlers, s: Session, input: Input)
    requires forall i <- s.suspended :: i < |s.handled|
    ensures var t := Begun(h, s, input);
            forall i <- t.suspended :: i < |s.handled| ==> i in s.suspended && t.handled[i] == s.handled[i]
  {
  }

  lemma StaleBegun(h: Handlers, first: First, s: Session, input: Input)
    requires Lawful(h, first) && Acknowledges(h, first)
    requires Inv(s.world) && Answering(h, s) && s.sent == |s.line| && Calm(h, first, s)
    requires |s.handled| < |s.world.past.incoming| && input.raw == s.world.past.incoming[|s.handled|]
    requires |s.handled| < s.firstFrame
    ensures Doomed(Begun(h, s, input)) || Calm(h, first, Begun(h, s, input))
  {
    NextStale(first, s.world.past.frames, |s.handled|, s.firstFrame);
    LineGuarded(s, Immediate(h, input), Answers(|s.handled|));
    BegunAsFirst(h, first, input);
    LargeBegun(h, first, input);
    if first(input.raw).None? {
      SuspendedCalm(h, s, input);
      SilentBegun(h, first, s, input);
    }
  }

  lemma SilentBegun(h: Handlers, first: First, s: Session, input: Input)
    requires Calm(h, first, s) && s.sent == |s.line| && |s.handled| < s.firstFrame
    requires Immediate(h, input) == [] && !Suspends(h, input)
    requires FirstOwed(first, s.world.past.frames[|s.handled|..s.firstFrame])
          == FirstOwed(first, s.world.past.frames[|s.handled| + 1..s.firstFrame])
    requires forall i <- s.suspended :: i < |s.handled|
    ensures Calm(h, first, Begun(h, s, input))
  {
    SuspendedCalm(h, s, input);
  }

  lemma ResumedGuarded(h: Handlers, first: First, s: Session, i: nat)
    requires Answering(h, s) && i in s.suspended && i < |s.handled| && s.sent == |s.line| && Guarded(h, first, s)
    ensures Guarded(h, first, Resumed(h, s, i))
  {
    var late := Late(h, s.handled[i]);
    assert late[0] == h.replies(s.handled[i])[1];
    if Frozen(s) {
      FrozenStays(h, first, s, Resumed(h, s, i));
    } else {
      LineGuarded(s, late, Answers(i));
      LineExtends(h, first, s, Resumed(h, s, i));
    }
  }

  lemma PushGuarded(h: Handlers, first: First, s: Session)
    requires s.waiting != [] && s.sent == |s.line| && Guarded(h, first, s)
    ensures Guarded(h, first, Told(h, s))
  {
    if Frozen(s) {
      FrozenStays(h, first, s, Told(h, s));
    } else {
      LineGuarded(s, h.told(s.waiting[0]), Tells(|s.changes| - |s.waiting|));
      LineExtends(h, first, s, Told(h, s));
    }
  }

  lemma MoveGuarded(h: Handlers, first: First, s: Session, m: Move)
    requires Lawful(h, first) && Acknowledges(h, first)
    requires Sound(h, s) && Guarded(h, first, s)
    requires After(h, s, m).world.past.epoch == s.world.past.epoch
    ensures Guarded(h, first, After(h, s, m))
  {
    if m.Issue? == (s.sent < |s.line|) {
      if m.Issue? {
        IssueGuarded(h, first, s);
      } else if !m.Native? {
        TaskGuarded(h, first, s, m);
      } else if !m.event.Send? {
        NativeStep(s.world, m.event);
        NativeGuarded(h, first, s, Step(s.world, m.event));
      }
    }
  }

  lemma TaskGuarded(h: Handlers, first: First, s: Session, m: Move)
    requires Lawful(h, first) && Acknowledges(h, first)
    requires Inv(s.world) && Answering(h, s) && s.sent == |s.line| && Guarded(h, first, s)
    requires !m.Issue? && !m.Native?
    ensures Guarded(h, first, Moved(h, s, m))
  {
    match m
    case Begin(home, outcome) =>
      if |s.handled| < |s.world.past.incoming| {
        BegunGuarded(h, first, s, Input(s.world.past.incoming[|s.handled|], home, outcome));
      }
    case Resume(i) =>
      if i in s.suspended && i < |s.handled| {
        ResumedGuarded(h, first, s, i);
      }
    case Change(_, _) =>
    case PushRuns =>
      if s.waiting != [] {
        PushGuarded(h, first, s);
      }
  }

  lemma {:induction false} ConnectionGuarded(h: Handlers, first: First, s: Session, moves: seq<Move>)
    requires Full(h) && Lawful(h, first) && Acknowledges(h, first)
    requires Sound(h, s) && Guarded(h, first, s)
    requires PlayFrom(h, s, moves).world.past.epoch == s.world.past.epoch
    ensures Guarded(h, first, PlayFrom(h, s, moves))
    decreases moves
  {
    if moves == [] {
    } else {
      AfterKeeps(h, s, moves[0]);
      EpochGrows(h, s, moves[0]);
      EpochsGrow(h, After(h, s, moves[0]), moves[1..]);
      MoveGuarded(h, first, s, moves[0]);
      ConnectionGuarded(h, first, After(h, s, moves[0]), moves[1..]);
    }
  }

  lemma GuardedHears(h: Handlers, first: First, s: Session)
    requires Guarded(h, first, s)
    ensures OwnOnly(s)
  {
  }

  lemma LargeBegun(h: Handlers, first: First, input: Input)
    requires Acknowledges(h, first)
    ensures first(input.raw).Some? && !Small(first(input.raw)) ==> !Suspends(h, input)
  {
  }

  // ── If something is owed ──────────────────────────────────────────────────

  /** The packet heads the TX queue, whole, and nothing has been notified yet. */
  predicate Heads(s: Session, packet: bytes)
  {
    s.world.gatt.connected && Chunks(packet, CHUNK_SIZE) <= s.world.gatt.txQueue && s.world.past.received == [] &&
    !s.world.past.lost && s.clean > 0
  }

  lemma FirstIssued(s: Session)
    requires Inv(s.world) && Unused(s) && s.sent < |s.line| && |s.line[s.sent].packet| <= LARGEST
    ensures Same(s, Issued(s)) && Heads(Issued(s), s.line[s.sent].packet)
  {
    var packet := s.line[s.sent].packet;
    SendHistory(s.world, packet);
    LargestAcceptedFrame(s.world.gatt, packet);
    assert [] + Chunks(packet, CHUNK_SIZE) == Chunks(packet, CHUNK_SIZE);
  }

  lemma NextIssued(s: Session, packet: bytes)
    requires Inv(s.world) && Heads(s, packet) && s.sent < |s.line|
    ensures Same(s, Issued(s)) && Heads(Issued(s), packet)
  {
    SendHistory(s.world, s.line[s.sent].packet);
    assert Chunks(packet, CHUNK_SIZE) <= s.world.gatt.txQueue <= Issued(s).world.gatt.txQueue;
  }

  lemma {:induction false} RestIssued(h: Handlers, t: Session, packet: bytes) returns (u: Session)
    requires Full(h) && Sound(h, t) && Heads(t, packet)
    ensures Reaches(h, t, u) && Same(t, u) && Heads(u, packet) && u.sent == |u.line|
    decreases |t.line| - t.sent
  {
    if t.sent == |t.line| {
      u := t;
      ReachesItself(h, t);
    } else {
      var v := OneIssued(h, t, packet);
      u := RestIssued(h, v, packet);
      ReachesOn(h, t, v, u);
    }
  }

  lemma OneIssued(h: Handlers, t: Session, packet: bytes) returns (u: Session)
    requires Full(h) && Sound(h, t) && Heads(t, packet) && t.sent < |t.line|
    ensures Reaches(h, t, u) && Same(t, u) && Heads(u, packet) && u.sent == t.sent + 1
  {
    u := Issued(t);
    NextIssued(t, packet);
    ReachesIssued(h, t);
  }

  lemma FirstOneIssued(h: Handlers, t: Session) returns (u: Session)
    requires Full(h) && Sound(h, t) && Unused(t) && t.sent < |t.line| && |t.line[t.sent].packet| <= LARGEST
    ensures Reaches(h, t, u) && Same(t, u) && Heads(u, t.line[t.sent].packet)
  {
    u := Issued(t);
    FirstIssued(t);
    ReachesIssued(h, t);
  }

  /** The first packet sent in a connection, if it fits the queue, can be the first frame heard. */
  lemma FirstHeard(h: Handlers, t: Session) returns (u: Session)
    requires Full(h) && Sound(h, t) && Unused(t) && t.sent < |t.line| && |t.line[t.sent].packet| <= LARGEST
    ensures Reaches(h, t, u) && Same(t, u) && !u.world.past.lost
    ensures Whole(u) > 0 && Heard(u).frames == [t.line[t.sent].packet]
  {
    var packet := t.line[t.sent].packet;
    assert packet != [] by {
      assert NoneEmpty(t.line);
    }
    var v := FirstOneIssued(h, t);
    var w := RestIssued(h, v, packet);
    ReachesOn(h, t, v, w);
    u := QueueHeard(h, w, packet);
    ReachesOn(h, t, w, u);
  }

  lemma QueueHeard(h: Handlers, t: Session, packet: bytes) returns (u: Session)
    requires Full(h) && Sound(h, t) && Heads(t, packet) && t.sent == |t.line| && packet != []
    ensures Reaches(h, t, u) && Same(t, u) && !u.world.past.lost
    ensures Whole(u) > 0 && Heard(u).frames == [packet]
  {
    u := ChunksNotified(h, t, |Chunks(packet, CHUNK_SIZE)|);
    QueuedHeard(t, u, packet);
  }

  lemma QueuedHeard(t: Session, u: Session, packet: bytes)
    requires Heads(t, packet) && packet != [] && u.clean == t.clean
    requires u.world.past.received == t.world.past.received + t.world.gatt.txQueue[..|Chunks(packet, CHUNK_SIZE)|]
    ensures Whole(u) > 0 && Heard(u).frames == [packet]
  {
    PrefixTaken(Chunks(packet, CHUNK_SIZE), t.world.gatt.txQueue);
    PacketHeard(packet, u);
  }

  lemma PrefixTaken(chunks: seq<bytes>, queue: seq<bytes>)
    requires chunks <= queue
    ensures [] + queue[..|chunks|] == chunks
  {
  }

  lemma PacketHeard(packet: bytes, s: Session)
    requires packet != [] && s.world.past.received == Chunks(packet, CHUNK_SIZE)
    ensures Heard(s).frames == [packet]
  {
    ChunksReassembled(Rx([], []), packet, CHUNK_SIZE);
    assert [] + packet == packet;
  }

  lemma StaleHeard(h: Handlers, t: Session, cause: Cause) returns (u: Session)
    requires Full(h) && Sound(h, t) && OneTask(t, t, cause) && StaleReply(t, Item([], cause))
    requires |t.line[t.sent].packet| <= LARGEST
    ensures Reaches(h, t, u) && Same(t, u) && !u.world.past.lost && !OwnOnly(u)
    ensures Heard(u).frames == [t.line[t.sent].packet]
  {
    u := FirstHeard(h, t);
    assert StaleReply(u, u.line[u.base]);
  }

  lemma OwedHeard(h: Handlers, first: First, s: Session, t: Session) returns (u: Session)
    requires Full(h) && Lawful(h, first) && Sound(h, t) && JustConnected(s, t) && Owes(h, first, s)
    requires |s.handled| <= |s.world.past.frames|
    ensures InConnection(h, t, u) && !u.world.past.lost && !OwnOnly(u)
  {
    var v := ServerThere(h, s, t);
    var w, cause := OwedNext(h, first, s, v);
    ReachesOn(h, t, v, w);
    u := StaleHeard(h, w, cause);
    ReachesOn(h, t, w, u);
  }

  lemma OwedNext(h: Handlers, first: First, s: Session, t: Session) returns (u: Session, cause: Cause)
    requires Full(h) && Lawful(h, first) && Sound(h, t) && Owes(h, first, s)
    requires |s.handled| <= |s.world.past.frames|
    requires Unused(t) && t.sent == |t.line| && t.handled == s.handled && t.suspended == s.suspended
    requires t.firstFrame == |s.world.past.frames| && s.world.past.frames <= t.world.past.frames
    ensures Reaches(h, t, u) && OneTask(t, u, cause) && StaleReply(u, Item([], cause))
    ensures |u.line[u.sent].packet| <= LARGEST
  {
    if AnswerOwed(h, s) {
      u, cause := OwedAnswerNext(h, s, t);
    } else {
      assert OwedRaws(t) == s.world.past.frames[|s.handled|..];
      u, cause := OwedPacketNext(h, first, t);
    }
  }

  lemma OwedAnswerNext(h: Handlers, s: Session, t: Session) returns (u: Session, cause: Cause)
    requires Full(h) && Sound(h, t) && AnswerOwed(h, s) && |s.handled| <= t.firstFrame
    requires Unused(t) && t.sent == |t.line| && t.handled == s.handled && t.suspended == s.suspended
    ensures Reaches(h, t, u) && OneTask(t, u, cause) && StaleReply(u, Item([], cause))
    ensures |u.line[u.sent].packet| <= LARGEST
  {
    var i :| i in s.suspended && i < |s.handled| && |h.replies(s.handled[i])| > 1 &&
             |h.replies(s.handled[i])[1]| <= LARGEST;
    assert Suspends(h, t.handled[i]);
    u := AnswerNext(h, t, i);
    cause := Answers(i);
  }

  lemma OwedPacketNext(h: Handlers, first: First, t: Session) returns (u: Session, cause: Cause)
    requires Full(h) && Lawful(h, first) && Sound(h, t) && Unused(t) && t.sent == |t.line|
    requires |t.handled| <= t.firstFrame <= |t.world.past.frames| && Small(FirstOwed(first, OwedRaws(t)))
    ensures Reaches(h, t, u) && OneTask(t, u, cause) && StaleReply(u, Item([], cause))
    ensures |u.line[u.sent].packet| <= LARGEST
  {
    var j: nat;
    u, j := PacketNext(h, first, t);
    cause := Answers(j);
  }

  lemma NothingOwedGuarded(h: Handlers, first: First, s: Session, t: Session)
    requires Sound(h, s) && Answering(h, t) && JustConnected(s, t) && !Owes(h, first, s)
    ensures Guarded(h, first, t)
  {
    assert |s.handled| <= |s.world.past.incoming| <= |s.world.past.frames|;
    if |t.handled| < t.firstFrame {
      assert t.world.past.frames[|t.handled|..t.firstFrame] == s.world.past.frames[|s.handled|..];
    }
    forall i | i in t.suspended && i < t.firstFrame && i < |t.handled| && |h.replies(t.handled[i])| > 1
      ensures |h.replies(t.handled[i])[1]| > LARGEST
    {
      assert !AnswerOwed(h, s);
    }
  }

  lemma NothingOwedHears(h: Handlers, first: First, s: Session, t: Session, u: Session)
    requires Full(h) && Lawful(h, first) && Acknowledges(h, first)
    requires Sound(h, s) && Sound(h, t) && JustConnected(s, t) && !Owes(h, first, s)
    requires InConnection(h, t, u)
    ensures OwnOnly(u)
  {
    NothingOwedGuarded(h, first, s, t);
    var moves :| PlayFrom(h, t, moves) == u;
    ConnectionGuarded(h, first, t, moves);
    GuardedHears(h, first, u);
  }

  /**
   * Whatever follows in a connection, the whole frames its client hears before one is refused, as
   * far as they are replies, answer packets completed in it, exactly if nothing was owed when it
   * connected: no service call was out whose answer could be queued, and handling the packets
   * already completed would not lead to a reply that could. A larger answer is no whole frame, but
   * chunks of it do arrive: NextClient.ReceivesOwnIff is about those as well.
   */
  lemma HearsOnlyOwnIff(h: Handlers, first: First, s: Session, m: Move)
    requires Full(h) && Lawful(h, first) && Acknowledges(h, first)
    requires Sound(h, s) && Connects(h, s, m)
    ensures Sound(h, After(h, s, m))
    ensures var t := After(h, s, m);
            (forall u :: InConnection(h, t, u) && !u.world.past.lost ==>
              OwnOnly(u))
            <==> !Owes(h, first, s)
  {
    var t := After(h, s, m);
    AfterKeeps(h, s, m);
    ConnectsFresh(h, s, m);
    HandledFirst(s.world, |s.handled|);
    if Owes(h, first, s) {
      var u := OwedHeard(h, first, s, t);
    } else {
      forall u | InConnection(h, t, u)
        ensures OwnOnly(u)
      {
        NothingOwedHears(h, first, s, t, u);
      }
    }
  }

  lemma DispatcherAcknowledges(codec: D.Codec, passcode: nat)
    requires passcode < 0x1_0000_0000
    ensures Acknowledges(HandlersOf(codec, passcode), FirstOf(codec, passcode))
  {
    forall x: Input | KindOf(passcode, x.raw) == Request(D.CALL_SERVICE)
      ensures Small(FirstReply(codec, passcode, x.raw))
    {
      FirstReplyIs(codec, passcode, x);
    }
  }
}
