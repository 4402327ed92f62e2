/**
 * What a client can receive of the conversation with an earlier one. Draining the TX queue on a
 * disconnect is meant to keep the two apart; it does so exactly if nothing is due at the time the
 * next client connects.
 */
module NextClient {
  import opened Bytes
  import opened BleChunks
  import opened GattServer
  import opened NativeRuns
  import opened NativeTasks
  import opened NativeSession
  import opened NativeHearing
  import opened NativeReach
  import opened Packet
  import opened Replies
  import D = Dispatcher

  /** The packet answers one completed, or tells a change scheduled, before the current connection. */
  predicate Stale(s: Session, item: Item)
  {
    match item.cause
    case Answers(i) => i < s.firstFrame
    case Tells(n) => n < s.firstChange
  }

  /** Everything sent in this connection belongs to it. */
  predicate SendsOwn(s: Session)
  {
    s.sent <= |s.line| && forall p :: s.base <= p < s.sent ==> !Stale(s, s.line[p])
  }

  /** So does everything its client has received, down to single chunks. */
  predicate ReceivesOwn(s: Session)
  {
    s.sent <= |s.line| &&
    forall c <- s.world.past.received ::
      exists p :: s.base <= p < s.sent && !Stale(s, s.line[p]) && HasChunk(s.line[p], c)
  }

  predicate HasChunk(item: Item, chunk: bytes)
  {
    chunk in Chunks(item.packet, CHUNK_SIZE)
  }

  /** A service call is out, a completed packet unhandled that will be answered, or a change untold that fits. */
  predicate Due(h: Handlers, first: First, s: Session)
  {
    s.suspended != {} ||
    (|s.handled| <= |s.world.past.frames| && FirstOwed(first, s.world.past.frames[|s.handled|..]).Some?) ||
    EachTold(h, s.waiting) != []
  }

  // ── If nothing is due ─────────────────────────────────────────────────────

  predicate NoneStale(s: Session)
  {
    forall p :: s.base <= p < |s.line| ==> !Stale(s, s.line[p])
  }

  /** No task that is still to run will send anything stale. */
  predicate Settled(h: Handlers, first: First, s: Session)
  {
    NoneStale(s) && (forall i <- s.suspended :: i >= s.firstFrame) &&
    (|s.handled| < s.firstFrame ==>
      s.firstFrame <= |s.world.past.frames| && FirstOwed(first, OwedRaws(s)).None?) &&
    s.firstChange <= |s.changes| &&
    forall n :: |s.changes| - |s.waiting| <= n < s.firstChange && 0 <= n ==> h.told(s.changes[n]) == []
  }

  lemma LineSettled(s: Session, packets: seq<bytes>, cause: Cause)
    requires NoneStale(s)
    requires packets == [] || !Stale(s, Item([], cause))
    ensures NoneStale(s.(line := s.line + Stamped(packets, cause)))
  {
  }

  lemma NativeSettled(h: Handlers, first: First, s: Session, w: World)
    requires Settled(h, first, s)
    requires w.past.epoch == s.world.past.epoch && s.world.past.frames <= w.past.frames
    ensures Settled(h, first, InWorld(s, w))
  {
    if |s.handled| < s.firstFrame {
      assert w.past.frames[|s.handled|..s.firstFrame] == OwedRaws(s);
    }
  }

  lemma BegunSettled(h: Handlers, first: First, s: Session, input: Input)
    requires Lawful(h, first) && Settled(h, first, s) && Inv(s.world)
    requires |s.handled| < |s.world.past.incoming| && input.raw == s.world.past.incoming[|s.handled|]
    ensures Settled(h, first, Begun(h, s, input))
  {
    if |s.handled| < s.firstFrame {
      assert input.raw == s.world.past.frames[|s.handled|];
      NextStale(first, s.world.past.frames, |s.handled|, s.firstFrame);
      BegunAsFirst(h, first, input);
      NothingInLineYet(h, s, input);
    } else {
      LineSettled(s, Immediate(h, input), Answers(|s.handled|));
    }
  }

  lemma ResumedSettled(h: Handlers, first: First, s: Session, i: nat)
    requires Settled(h, first, s) && i in s.suspended && i < |s.handled|
    ensures Settled(h, first, Resumed(h, s, i))
  {
    LineSettled(s, Late(h, s.handled[i]), Answers(i));
  }

  lemma ToldSettled(h: Handlers, first: First, s: Session)
    requires Settled(h, first, s) && Telling(h, s) && s.waiting != []
    ensures Settled(h, first, Told(h, s))
  {
    LineSettled(s, h.told(s.waiting[0]), Tells(|s.changes| - |s.waiting|));
  }

  lemma ChangedSettled(h: Handlers, first: First, s: Session, more: seq<D.Reply>)
    requires Settled(h, first, s) && Telling(h, s)
    ensures Settled(h, first, Changed(s, more))
  {
  }

  lemma TaskSettled(h: Handlers, first: First, s: Session, m: Move)
    requires Lawful(h, first) && Settled(h, first, s) && Inv(s.world) && Telling(h, s)
    requires s.sent == |s.line| && !m.Issue? && !m.Native?
    ensures Settled(h, first, Moved(h, s, m))
  {
    match m
    case Begin(home, outcome) =>
      if |s.handled| < |s.world.past.incoming| {
        BegunSettled(h, first, s, Input(s.world.past.incoming[|s.handled|], home, outcome));
      }
    case Resume(i) =>
      if i in s.suspended && i < |s.handled| {
        ResumedSettled(h, first, s, i);
      }
    case Change(home, newState) => ChangedSettled(h, first, s, D.Pushed(home, newState));
    case PushRuns =>
      if s.waiting != [] {
        ToldSettled(h, first, s);
      }
  }

  lemma IssuedSettled(h: Handlers, first: First, s: Session)
    requires Settled(h, first, s) && Inv(s.world) && s.sent < |s.line|
    ensures Settled(h, first, Issued(s))
  {
    SendHistory(s.world, s.line[s.sent].packet);
  }

  lemma MoveSettled(h: Handlers, first: First, s: Session, m: Move)
    requires Lawful(h, first) && Sound(h, s) && Settled(h, first, s)
    requires After(h, s, m).world.past.epoch == s.world.past.epoch
    ensures Settled(h, first, After(h, s, m))
  {
    if m.Issue? == (s.sent < |s.line|) {
      if m.Issue? {
        IssuedSettled(h, first, s);
      } else if !m.Native? {
        TaskSettled(h, first, s, m);
      } else if !m.event.Send? {
        NativeStep(s.world, m.event);
        NativeSettled(h, first, s, Step(s.world, m.event));
      }
    }
  }

  lemma {:induction false} ConnectionSettled(h: Handlers, first: First, s: Session, moves: seq<Move>)
    requires Full(h) && Lawful(h, first) && Sound(h, s) && Settled(h, first, s)
    requires PlayFrom(h, s, moves).world.past.epoch == s.world.past.epoch
    ensures Settled(h, first, PlayFrom(h, s, moves))
    decreases moves
  {
    if moves == [] {
    } else {
      AfterKeeps(h, s, moves[0]);
      EpochGrows(h, s, moves[0]);
      EpochsGrow(h, After(h, s, moves[0]), moves[1..]);
      MoveSettled(h, first, s, moves[0]);
      ConnectionSettled(h, first, After(h, s, moves[0]), moves[1..]);
    }
  }

  lemma NothingDueSettled(h: Handlers, first: First, s: Session, t: Session)
    requires JustConnected(s, t) && !Due(h, first, s) && Telling(h, t) && |s.handled| <= |s.world.past.frames|
    ensures Settled(h, first, t)
  {
    assert OwedRaws(t) == s.world.past.frames[|s.handled|..];
    NothingTold(h, t.waiting);
    forall n | |t.changes| - |t.waiting| <= n < t.firstChange && 0 <= n
      ensures h.told(t.changes[n]) == []
    {
      assert t.changes[n] == t.waiting[n - (|t.changes| - |t.waiting|)];
    }
  }

  lemma {:induction false} NothingTold(h: Handlers, waiting: seq<D.Reply>)
    requires EachTold(h, waiting) == []
    ensures forall n :: 0 <= n < |waiting| ==> h.told(waiting[n]) == []
  {
    if waiting == [] {
    } else {
      NothingTold(h, waiting[1..]);
      assert forall n :: 1 <= n < |waiting| ==> waiting[n] == waiting[1..][n - 1];
    }
  }

  // ── Where chunks come from ────────────────────────────────────────────────

  /** Every chunk received or waiting is one of those the attempts of this connection queued. */
  predicate Traced(w: World)
  {
    (forall c <- w.past.received :: c in LogChunks(w.past.log)) &&
    forall c <- w.gatt.txQueue :: c in LogChunks(w.past.log)
  }

  lemma StepTraced(w: World, e: Event)
    requires Inv(w) && Traced(w)
    ensures Traced(Step(w, e))
  {
    if e.Send? && CanSend(w.gatt) {
      AdmittedQueued(w.gatt, e.data);
      LogGrows(w.past.log, Attempt(e.data, |Admitted(w.gatt, e.data)|, SendAccepted(w.gatt, e.data)));
    }
  }

  lemma MoveTraced(h: Handlers, s: Session, m: Move)
    requires Inv(s.world) && Traced(s.world)
    ensures Traced(After(h, s, m).world)
  {
    if m.Issue? == (s.sent < |s.line|) {
      if m.Issue? {
        StepTraced(s.world, Send(s.line[s.sent].packet));
      } else if m.Native? && !m.event.Send? {
        StepTraced(s.world, m.event);
      }
    }
  }

  lemma {:induction false} PlayTraced(h: Handlers, s: Session, moves: seq<Move>)
    requires Full(h) && Sound(h, s) && Traced(s.world)
    ensures Traced(PlayFrom(h, s, moves).world)
    decreases moves
  {
    if moves == [] {
    } else {
      AfterKeeps(h, s, moves[0]);
      MoveTraced(h, s, moves[0]);
      PlayTraced(h, After(h, s, moves[0]), moves[1..]);
    }
  }

  lemma {:induction false} ChunkOfAttempt(log: seq<Attempt>, chunk: bytes) returns (i: nat)
    requires chunk in LogChunks(log)
    ensures i < |log| && chunk in Chunks(log[i].data, CHUNK_SIZE)
  {
    var n := |log| - 1;
    if chunk in Queued(log[n]) {
      i := n;
    } else {
      i := ChunkOfAttempt(log[..n], chunk);
    }
  }

  /** A client is given chunks of packets sent in its connection only. */
  lemma SentIsReceived(s: Session)
    requires Placed(s) && Traced(s.world) && SendsOwn(s)
    ensures ReceivesOwn(s)
  {
    forall c | c in s.world.past.received
      ensures exists p :: s.base <= p < s.sent && !Stale(s, s.line[p]) && HasChunk(s.line[p], c)
    {
      var i := ChunkOfAttempt(s.world.past.log, c);
      assert HasChunk(s.line[s.logged[i]], c);
    }
  }

  // ── If something is due ───────────────────────────────────────────────────

  /** The next task to send in this connection is a stale one. */
  lemma StaleTaskNext(h: Handlers, first: First, s: Session, t: Session) returns (u: Session, cause: Cause)
    requires Full(h) && Lawful(h, first) && Sound(h, t) && Due(h, first, s)
    requires |s.handled| <= |s.world.past.frames| && Unused(t) && t.sent == |t.line|
    requires t.handled == s.handled && t.suspended == s.suspended && t.waiting == s.waiting && t.changes == s.changes
    requires t.firstFrame == |s.world.past.frames| && s.world.past.frames <= t.world.past.frames
    requires t.firstChange == |s.changes|
    ensures Reaches(h, t, u) && OneTask(t, u, cause) && Stale(u, Item([], cause))
  {
    if s.suspended != {} {
      var i :| i in s.suspended;
      u, cause := StaleAnswerNext(h, t, i);
    } else if EachTold(h, s.waiting) != [] {
      u, cause := StaleChangeNext(h, t);
    } else {
      assert OwedRaws(t) == s.world.past.frames[|s.handled|..];
      u, cause := StalePacketNext(h, first, t);
    }
  }

  lemma StaleChangeNext(h: Handlers, t: Session) returns (u: Session, cause: Cause)
    requires Full(h) && Sound(h, t) && Unused(t) && t.sent == |t.line| && EachTold(h, t.waiting) != []
    requires t.firstChange == |t.changes|
    ensures Reaches(h, t, u) && OneTask(t, u, cause) && Stale(u, Item([], cause))
  {
    var n: int;
    u, n := PushNext(h, t);
    cause := Tells(n);
  }

  lemma StalePacketNext(h: Handlers, first: First, t: Session) returns (u: Session, cause: Cause)
    requires Full(h) && Lawful(h, first) && Sound(h, t) && Unused(t) && t.sent == |t.line|
    requires |t.handled| <= t.firstFrame <= |t.world.past.frames| && FirstOwed(first, OwedRaws(t)).Some?
    ensures Reaches(h, t, u) && OneTask(t, u, cause) && Stale(u, Item([], cause))
  {
    var j: nat;
    u, j := PacketNext(h, first, t);
    cause := Answers(j);
  }

  lemma StaleAnswerNext(h: Handlers, t: Session, i: nat) returns (u: Session, cause: Cause)
    requires Full(h) && Sound(h, t) && Unused(t) && t.sent == |t.line| && i in t.suspended
    requires |t.handled| <= t.firstFrame
    ensures Reaches(h, t, u) && OneTask(t, u, cause) && Stale(u, Item([], cause))
  {
    assert i < |t.handled| && Suspends(h, t.handled[i]);
    u := AnswerNext(h, t, i);
    cause := Answers(i);
  }

  /** A stale task's packets can be all that is sent, and the first chunk of them all that is received. */
  lemma StaleReceived(h: Handlers, t: Session, cause: Cause) returns (u: Session)
    requires Full(h) && Sound(h, t) && OneTask(t, t, cause) && Stale(t, Item([], cause))
    ensures Reaches(h, t, u) && u.world.past.epoch == t.world.past.epoch && !u.world.past.lost
    ensures u.world.past.received == [Chunks(t.line[t.sent].packet, CHUNK_SIZE)[0]]
    ensures !SendsOwn(u) && !ReceivesOwn(u)
  {
    assert t.line[t.sent].packet != [] by {
      assert NoneEmpty(t.line);
    }
    u := FirstChunkReceived(h, t);
    OnlyStale(t, u, cause);
  }

  lemma OnlyStale(t: Session, u: Session, cause: Cause)
    requires OneTask(t, t, cause) && Stale(t, Item([], cause)) && Same(t, u) && u.sent == |u.line|
    requires u.world.past.received != []
    ensures !SendsOwn(u) && !ReceivesOwn(u)
  {
    assert Stale(u, u.line[u.base]);
    assert u.world.past.received[0] in u.world.past.received;
  }

  lemma DueReceived(h: Handlers, first: First, s: Session, t: Session) returns (u: Session)
    requires Full(h) && Lawful(h, first) && Sound(h, t) && JustConnected(s, t) && Due(h, first, s)
    requires |s.handled| <= |s.world.past.frames|
    ensures InConnection(h, t, u) && !SendsOwn(u) && !ReceivesOwn(u) && !u.world.past.lost
  {
    var v := ServerThere(h, s, t);
    var w, cause := StaleTaskNext(h, first, s, v);
    ReachesOn(h, t, v, w);
    u := StaleReceived(h, w, cause);
    ReachesOn(h, t, w, u);
  }

  // ── The condition ─────────────────────────────────────────────────────────

  lemma NothingDueOwn(h: Handlers, first: First, s: Session, t: Session, u: Session)
    requires Full(h) && Lawful(h, first) && Sound(h, t) && JustConnected(s, t) && !Due(h, first, s)
    requires |s.handled| <= |s.world.past.frames| && InConnection(h, t, u)
    ensures SendsOwn(u) && ReceivesOwn(u)
  {
    NothingDueSettled(h, first, s, t);
    var moves :| PlayFrom(h, t, moves) == u;
    ConnectionSettled(h, first, t, moves);
    PlayTraced(h, t, moves);
    assert Logging(u) && Placed(u);
    SentIsReceived(u);
  }

  /**
   * Whatever follows in a connection, all that is sent in it, and every chunk its client receives,
   * belongs to packets completed and changes scheduled in it, exactly if nothing was due when it began: no
   * service call out, no completed packet unhandled that will be answered, no change untold that
   * fits a packet. If something was, it can reach the client without any loss.
   */
  lemma ReceivesOwnIff(h: Handlers, first: First, s: Session, m: Move)
    requires Full(h) && Lawful(h, first) && Sound(h, s) && Connects(h, s, m)
    ensures Sound(h, After(h, s, m))
    ensures var t := After(h, s, m);
            ((forall u :: InConnection(h, t, u) ==> SendsOwn(u)) <==> !Due(h, first, s)) &&
            ((forall u :: InConnection(h, t, u) ==> ReceivesOwn(u)) <==> !Due(h, first, s)) &&
            ((forall u :: InConnection(h, t, u) && !u.world.past.lost ==> ReceivesOwn(u)) <==> !Due(h, first, s))
  {
    var t := After(h, s, m);
    AfterKeeps(h, s, m);
    ConnectsFresh(h, s, m);
    HandledFirst(s.world, |s.handled|);
    if Due(h, first, s) {
      var u := DueReceived(h, first, s, t);
    } else {
      forall u | InConnection(h, t, u)
        ensures SendsOwn(u) && ReceivesOwn(u)
      {
        NothingDueOwn(h, first, s, t, u);
      }
    }
  }

  // ── Clients of a dispatcher ───────────────────────────────────────────────

  /** The first reply to a packet: an acknowledgement, a refusal that fits, or none. */
  function FirstReply(codec: D.Codec, passcode: nat, raw: bytes): Option<bytes>
  {
    match KindOf(passcode, raw)
    case Silent => None
    case Rejected =>
      var e := D.EncodeReply(codec, passcode, Refusal(passcode, raw));
      if e.Encoded? then Some(e.packet) else None
    case Request(_) =>
      var e := D.EncodeReply(codec, passcode, D.Reply(D.ACK, None));
      if e.Encoded? then Some(e.packet) else None
  }

  function FirstOf(codec: D.Codec, passcode: nat): (first: First)
    ensures forall raw :: first(raw) == FirstReply(codec, passcode, raw)
  {
    (raw: bytes) => FirstReply(codec, passcode, raw)
  }

  lemma DispatcherLawful(codec: D.Codec, passcode: nat)
    requires passcode < 0x1_0000_0000
    ensures Lawful(HandlersOf(codec, passcode), FirstOf(codec, passcode))
  {
    forall x: Input
      ensures FirstReply(codec, passcode, x.raw).None? ==> SentFor(codec, passcode, x) == []
      ensures FirstReply(codec, passcode, x.raw).Some? ==>
                SentFor(codec, passcode, x) != [] &&
                SentFor(codec, passcode, x)[0] == FirstReply(codec, passcode, x.raw).value
    {
      FirstReplyIs(codec, passcode, x);
    }
  }

  lemma FirstReplyIs(codec: D.Codec, passcode: nat, x: Input)
    requires passcode < 0x1_0000_0000
    ensures var sent, reply := SentFor(codec, passcode, x), FirstReply(codec, passcode, x.raw);
            (reply.None? ==> sent == []) && (reply.Some? ==> sent != [] && sent[0] == reply.value) &&
            (KindOf(passcode, x.raw).Request? ==> reply.Some? && |reply.value| == 14)
  {
    match KindOf(passcode, x.raw)
    case Silent => SilentReplies(codec, passcode, x.home, x.outcome, x.raw);
    case Rejected => RejectedReplies(codec, passcode, x.home, x.outcome, x.raw);
    case Request(cmd) =>
      D.RequestEffect(codec, passcode, x.home, x.outcome, cmd, D.Parse(codec, DecodePacket(x.raw).value.payload));
  }

  /** In any conversation, whatever may follow a connecting write. */
  lemma ClientsKeptApartIff(codec: D.Codec, passcode: nat, moves: seq<Move>, m: Move)
    requires passcode < 0x1_0000_0000
    ensures KeptApartIff(codec, passcode, Conversation(codec, passcode, moves), m)
  {
    var h, s := HandlersOf(codec, passcode), Conversation(codec, passcode, moves);
    FullHandlers(codec, passcode);
    DispatcherLawful(codec, passcode);
    AfterKeeps(h, s, m);
    if Connects(h, s, m) {
      ReceivesOwnIff(h, FirstOf(codec, passcode), s, m);
    }
  }

  /** If m connects a client, then it is sent and receives only what belongs to it, exactly if nothing is due in s. */
  ghost predicate KeptApartIff(codec: D.Codec, passcode: nat, s: Session, m: Move)
    requires passcode < 0x1_0000_0000 && Sound(HandlersOf(codec, passcode), s)
  {
    var h := HandlersOf(codec, passcode);
    FullHandlers(codec, passcode);
    AfterKeeps(h, s, m);
    var t := After(h, s, m);
    Connects(h, s, m) ==>
      ((forall u :: InConnection(h, t, u) ==> SendsOwn(u)) <==> !Due(h, FirstOf(codec, passcode), s)) &&
      ((forall u :: InConnection(h, t, u) ==> ReceivesOwn(u)) <==> !Due(h, FirstOf(codec, passcode), s))
  }
}
