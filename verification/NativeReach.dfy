/** What can follow at a connecting write: sessions reached from sessions, move by move. */
module NativeReach {
  import opened Bytes
  import opened BleChunks
  import opened GattServer
  import opened NativeRuns
  import opened NativeTasks
  import opened NativeSession
  import opened Replies
  import D = Dispatcher
  import E = Exposure

  // ── Plays put together ────────────────────────────────────────────────────

  lemma {:induction false} PlayFromAppend(h: Handlers, s: Session, a: seq<Move>, b: seq<Move>)
    requires Full(h) && Sound(h, s)
    ensures PlayFrom(h, s, a + b) == PlayFrom(h, PlayFrom(h, s, a), b)
    decreases a
  {
    if a == [] {
      assert a + b == b;
    } else {
      AfterKeeps(h, s, a[0]);
      PlayFromFirst(h, s, a);
      PlayFromFirst(h, s, a + b);
      FirstOfBoth(a, b);
      PlayFromAppend(h, After(h, s, a[0]), a[1..], b);
    }
  }

  lemma PlayFromFirst(h: Handlers, s: Session, moves: seq<Move>)
    requires Full(h) && Sound(h, s) && moves != [] && Sound(h, After(h, s, moves[0]))
    ensures PlayFrom(h, s, moves) == PlayFrom(h, After(h, s, moves[0]), moves[1..])
  {
  }

  lemma FirstOfBoth(a: seq<Move>, b: seq<Move>)
    requires a != []
    ensures (a + b)[0] == a[0] && (a + b)[1..] == a[1..] + b
  {
  }

  ghost predicate Reaches(h: Handlers, s: Session, t: Session)
    requires Full(h) && Sound(h, s)
  {
    Sound(h, t) && exists moves :: PlayFrom(h, s, moves) == t
  }

  lemma ReachesItself(h: Handlers, s: Session)
    requires Full(h) && Sound(h, s)
    ensures Reaches(h, s, s)
  {
    assert PlayFrom(h, s, []) == s;
  }

  lemma ReachesOn(h: Handlers, s: Session, t: Session, u: Session)
    requires Full(h) && Sound(h, s) && Reaches(h, s, t) && Reaches(h, t, u)
    ensures Reaches(h, s, u)
  {
    var a :| PlayFrom(h, s, a) == t;
    var b :| PlayFrom(h, t, b) == u;
    ReachesJoined(h, s, a, b);
  }

  lemma ReachesJoined(h: Handlers, s: Session, a: seq<Move>, b: seq<Move>)
    requires Full(h) && Sound(h, s)
    ensures Reaches(h, s, PlayFrom(h, PlayFrom(h, s, a), b))
  {
    PlayFromAppend(h, s, a, b);
  }

  lemma ReachesNext(h: Handlers, s: Session, m: Move)
    requires Full(h) && Sound(h, s)
    ensures Reaches(h, s, After(h, s, m))
  {
    AfterKeeps(h, s, m);
    assert [m][1..] == [];
    assert PlayFrom(h, s, [m]) == After(h, s, m);
  }

  /** Connections are numbered upwards. */
  lemma EpochGrows(h: Handlers, s: Session, m: Move)
    requires Inv(s.world)
    ensures s.world.past.epoch <= After(h, s, m).world.past.epoch
  {
    if m.Issue? == (s.sent < |s.line|) {
      if m.Issue? {
        SendHistory(s.world, s.line[s.sent].packet);
      } else if m.Native? && !m.event.Send? {
        StepEpoch(s.world, m.event);
      }
    }
  }

  lemma StepEpoch(w: World, e: Event)
    requires Inv(w)
    ensures w.past.epoch <= Step(w, e).past.epoch
  {
  }

  lemma {:induction false} EpochsGrow(h: Handlers, s: Session, moves: seq<Move>)
    requires Full(h) && Sound(h, s)
    ensures s.world.past.epoch <= PlayFrom(h, s, moves).world.past.epoch
    decreases moves
  {
    if moves == [] {
    } else {
      AfterKeeps(h, s, moves[0]);
      EpochGrows(h, s, moves[0]);
      EpochsGrow(h, After(h, s, moves[0]), moves[1..]);
    }
  }

  // ── The connecting write ──────────────────────────────────────────────────

  /** A move that begins a connection. */
  predicate Connects(h: Handlers, s: Session, m: Move)
    requires Inv(s.world)
  {
    After(h, s, m).world.past.epoch != s.world.past.epoch
  }

  /** t is s at the beginning of the next connection, with nothing of it sent yet. */
  ghost predicate JustConnected(s: Session, t: Session)
  {
    t.world.gatt.connected && t.world.gatt.txQueue == [] && t.world.past.received == [] && !t.world.past.lost &&
    t.clean == 0 && t.base == t.sent == |t.line| && t.line == s.line && t.logged == [] &&
    t.handled == s.handled && t.suspended == s.suspended && t.changes == s.changes && t.waiting == s.waiting &&
    t.firstFrame == |s.world.past.frames| && s.world.past.frames <= t.world.past.frames &&
    t.firstChange == |s.changes|
  }

  lemma ConnectsFresh(h: Handlers, s: Session, m: Move)
    requires Sound(h, s) && Connects(h, s, m)
    ensures JustConnected(s, After(h, s, m))
  {
    assert m.Native? && s.sent == |s.line|;
    ConnectingStep(s.world, m.event);
  }

  lemma ConnectingStep(w: World, e: Event)
    requires Inv(w) && !e.Send? && Step(w, e).past.epoch != w.past.epoch
    ensures var r := Step(w, e);
            r.gatt.connected && r.gatt.txQueue == [] && r.past.received == [] && !r.past.lost &&
            w.past.frames <= r.past.frames
  {
  }

  /** u follows t in the same connection. */
  ghost predicate InConnection(h: Handlers, t: Session, u: Session)
    requires Full(h) && Sound(h, t)
  {
    Reaches(h, t, u) && u.world.past.epoch == t.world.past.epoch
  }

  // ── Up to the first packet ────────────────────────────────────────────────

  /** A connection in which nothing has been sent yet. */
  predicate Unused(s: Session)
  {
    s.world.gatt.connected && s.world.gatt.serverUp && s.world.gatt.txQueue == [] && s.world.past.received == [] &&
    !s.world.past.lost && s.clean == 0 && s.base == s.sent <= |s.line|
  }

  /** The same connection, with the same packets in line. */
  ghost predicate Same(s: Session, t: Session)
  {
    t.world.past.epoch == s.world.past.epoch && t.base == s.base && t.firstFrame == s.firstFrame &&
    t.firstChange == s.firstChange && t.line == s.line && t.handled == s.handled
  }

  /** What the way to the first packet keeps of a connection that has not sent anything. */
  ghost predicate Idle(s: Session, t: Session)
  {
    Unused(t) && t.sent == |t.line| && Same(s, t) && t.suspended == s.suspended &&
    t.changes == s.changes && t.waiting == s.waiting && t.world.past.frames == s.world.past.frames
  }

  lemma ReachesStep(h: Handlers, t: Session, e: Event)
    requires Full(h) && Sound(h, t) && t.sent == |t.line| && !e.Send?
    ensures var u := InWorld(t, Step(t.world, e)); Reaches(h, t, u)
  {
    AfterNative(h, t, e);
    ReachesNext(h, t, Native(e));
  }

  lemma AfterNative(h: Handlers, t: Session, e: Event)
    requires Inv(t.world) && t.sent == |t.line| && !e.Send?
    ensures After(h, t, Native(e)) == InWorld(t, Step(t.world, e))
  {
  }

  lemma ServerThere(h: Handlers, s: Session, t: Session) returns (u: Session)
    requires Full(h) && Sound(h, t) && JustConnected(s, t)
    ensures Reaches(h, t, u) && Idle(t, u)
  {
    u := InWorld(t, Step(t.world, CreateServer));
    ServerStep(t);
    ReachesStep(h, t, CreateServer);
  }

  lemma ServerStep(t: Session)
    requires Inv(t.world) && t.sent == |t.line| && t.world.gatt.connected && t.world.gatt.txQueue == []
    requires t.world.past.received == [] && !t.world.past.lost && t.clean == 0 && t.base == t.sent
    ensures Idle(t, InWorld(t, Step(t.world, CreateServer)))
  {
  }

  lemma CallbackStep(t: Session)
    requires Inv(t.world) && Unused(t) && t.sent == |t.line| && t.world.gatt.scheduled != []
    ensures var u := InWorld(t, Step(t.world, RunCallback));
            Idle(t, u) && u.world.gatt.scheduled == t.world.gatt.scheduled[1..]
  {
  }

  lemma CallbackRun(h: Handlers, t: Session) returns (u: Session)
    requires Full(h) && Sound(h, t) && Unused(t) && t.sent == |t.line| && t.world.gatt.scheduled != []
    ensures Reaches(h, t, u) && Idle(t, u)
    ensures u.world.gatt.scheduled == t.world.gatt.scheduled[1..]
  {
    u := InWorld(t, Step(t.world, RunCallback));
    CallbackStep(t);
    ReachesStep(h, t, RunCallback);
  }

  lemma {:induction false} CallbacksRun(h: Handlers, t: Session) returns (u: Session)
    requires Full(h) && Sound(h, t) && Unused(t) && t.sent == |t.line|
    ensures Reaches(h, t, u) && Idle(t, u) && u.world.gatt.scheduled == []
    decreases |t.world.gatt.scheduled|
  {
    if t.world.gatt.scheduled == [] {
      u := t;
      ReachesItself(h, t);
    } else {
      var v := CallbackRun(h, t);
      u := CallbacksRun(h, v);
      ReachesOn(h, t, v, u);
    }
  }

  lemma AllCalledBack(w: World)
    requires Inv(w) && w.gatt.scheduled == []
    ensures w.past.incoming == w.past.frames
  {
    assert w.past.incoming + [] == w.past.incoming;
  }

  lemma HandledFirst(w: World, n: nat)
    requires Inv(w) && n <= |w.past.incoming|
    ensures n <= |w.past.frames|
  {
  }

  /** One task has put its packets in line, all of one cause, and nothing has been sent yet. */
  predicate OneTask(s: Session, t: Session, cause: Cause)
  {
    Unused(t) && ToSend(t, cause) && SameStart(s, t)
  }

  predicate ToSend(t: Session, cause: Cause)
  {
    t.sent < |t.line| && forall p :: t.sent <= p < |t.line| ==> t.line[p].cause == cause
  }

  predicate SameStart(s: Session, t: Session)
  {
    t.world.past.epoch == s.world.past.epoch && t.base == s.base &&
    t.firstFrame == s.firstFrame && t.firstChange == s.firstChange
  }

  lemma TaskInLine(t: Session, u: Session, packets: seq<bytes>, cause: Cause)
    requires Unused(t) && t.sent == |t.line| && packets != []
    requires u.world == t.world && u.line == t.line + Stamped(packets, cause)
    requires u.sent == t.sent && u.base == t.base && u.clean == t.clean
    requires u.firstFrame == t.firstFrame && u.firstChange == t.firstChange
    ensures OneTask(t, u, cause) && u.line[u.sent].packet == packets[0]
  {
  }

  /** A service call returns. */
  lemma AnswerNext(h: Handlers, t: Session, i: nat) returns (u: Session)
    requires Full(h) && Sound(h, t) && Unused(t) && t.sent == |t.line| && i in t.suspended && i < |t.handled|
    requires Suspends(h, t.handled[i])
    ensures Reaches(h, t, u) && OneTask(t, u, Answers(i)) && u.handled == t.handled
    ensures u.line == t.line + Stamped(h.replies(t.handled[i])[1..], Answers(i))
    ensures u.line[u.sent].packet == h.replies(t.handled[i])[1]
  {
    u := Resumed(h, t, i);
    AfterResume(h, t, i);
    ReachesNext(h, t, Resume(i));
    assert Late(h, t.handled[i])[0] == h.replies(t.handled[i])[1];
    TaskInLine(t, u, Late(h, t.handled[i]), Answers(i));
  }

  lemma AfterResume(h: Handlers, t: Session, i: nat)
    requires Inv(t.world) && t.sent == |t.line| && i in t.suspended && i < |t.handled|
    ensures After(h, t, Resume(i)) == Resumed(h, t, i)
  {
  }

  lemma OneBegun(h: Handlers, t: Session, input: Input) returns (u: Session)
    requires Full(h) && Sound(h, t) && t.sent == |t.line|
    requires |t.handled| < |t.world.past.incoming| && input.raw == t.world.past.incoming[|t.handled|]
    ensures u == Begun(h, t, input) && Reaches(h, t, u)
  {
    var m := Begin(input.home, input.outcome);
    ReachesNext(h, t, m);
    u := After(h, t, m);
    assert Input(input.raw, input.home, input.outcome) == input;
  }

  lemma RawBegun(h: Handlers, t: Session) returns (u: Session)
    requires Full(h) && Sound(h, t) && t.sent == |t.line| && |t.handled| < |t.world.past.incoming|
    ensures Reaches(h, t, u) && |u.handled| == |t.handled| + 1
    ensures var input := u.handled[|t.handled|];
            input.raw == t.world.past.incoming[|t.handled|] && u == Begun(h, t, input)
  {
    var home: E.Home :| true;
    var input := Input(t.world.past.incoming[|t.handled|], home, D.Succeeded);
    u := OneBegun(h, t, input);
  }

  // ── Packets still to be handled ───────────────────────────────────────────

  /** The first reply to a packet, as far as its bytes alone decide; None if there is none. */
  type First = bytes -> Option<bytes>

  ghost predicate Lawful(h: Handlers, first: First)
  {
    forall x: Input ::
      (first(x.raw).None? ==> h.replies(x) == []) &&
      (first(x.raw).Some? ==> h.replies(x) != [] && h.replies(x)[0] == first(x.raw).value)
  }

  /** The first reply that handling these packets will lead to. */
  function FirstOwed(first: First, raws: seq<bytes>): Option<bytes>
  {
    if raws == [] then None
    else if first(raws[0]).Some? then first(raws[0])
    else FirstOwed(first, raws[1..])
  }

  lemma NextStale(first: First, frames: seq<bytes>, j: nat, end: nat)
    requires j < end <= |frames|
    ensures FirstOwed(first, frames[j..end]) ==
              if first(frames[j]).Some? then first(frames[j]) else FirstOwed(first, frames[j + 1..end])
  {
    assert frames[j..end][0] == frames[j] && frames[j..end][1..] == frames[j + 1..end];
  }

  /** The packets completed before this connection that are still to be handled. */
  function OwedRaws(t: Session): seq<bytes>
    requires |t.handled| <= t.firstFrame <= |t.world.past.frames|
  {
    t.world.past.frames[|t.handled|..t.firstFrame]
  }

  lemma NextRaw(t: Session)
    requires |t.handled| <= t.firstFrame <= |t.world.past.frames| && OwedRaws(t) != []
    ensures |t.handled| < t.firstFrame && OwedRaws(t)[0] == t.world.past.frames[|t.handled|]
    ensures OwedRaws(t)[1..] == t.world.past.frames[|t.handled| + 1..t.firstFrame]
  {
  }

  /** A handler that begins sends nothing, or the first reply first. */
  lemma BegunAsFirst(h: Handlers, first: First, input: Input)
    requires Lawful(h, first)
    ensures first(input.raw).None? ==> Immediate(h, input) == [] && !Suspends(h, input)
    ensures first(input.raw).Some? ==> Immediate(h, input) != [] && Immediate(h, input)[0] == first(input.raw).value
  {
    assert first(input.raw).Some? ==> h.replies(input) != [] && h.replies(input)[0] == first(input.raw).value;
  }

  /** The packets completed before this connection are handled, as far as the first that is answered. */
  lemma {:induction false} FirstBegun(h: Handlers, first: First, t: Session) returns (u: Session, j: nat)
    requires Full(h) && Lawful(h, first) && Sound(h, t) && Unused(t) && t.sent == |t.line|
    requires t.world.past.incoming == t.world.past.frames
    requires |t.handled| <= t.firstFrame <= |t.world.past.frames|
    requires FirstOwed(first, OwedRaws(t)).Some?
    ensures Reaches(h, t, u) && OneTask(t, u, Answers(j)) && j < t.firstFrame
    ensures u.line[u.sent].packet == FirstOwed(first, OwedRaws(t)).value
    decreases t.firstFrame - |t.handled|
  {
    NextRaw(t);
    var v := RawBegun(h, t);
    var input := v.handled[|t.handled|];
    BegunAsFirst(h, first, input);
    if first(input.raw).Some? {
      u, j := v, |t.handled|;
      TaskInLine(t, u, Immediate(h, input), Answers(j));
    } else {
      NothingInLineYet(h, t, input);
      u, j := FirstBegun(h, first, v);
      ReachesOn(h, t, v, u);
    }
  }

  lemma NothingInLineYet(h: Handlers, t: Session, input: Input)
    requires Immediate(h, input) == [] && !Suspends(h, input)
    ensures Begun(h, t, input) == t.(handled := t.handled + [input])
  {
    assert t.line + Stamped([], Answers(|t.handled|)) == t.line;
    assert t.suspended + {} == t.suspended;
  }

  lemma PacketNext(h: Handlers, first: First, t: Session) returns (u: Session, j: nat)
    requires Full(h) && Lawful(h, first) && Sound(h, t) && Unused(t) && t.sent == |t.line|
    requires |t.handled| <= t.firstFrame <= |t.world.past.frames| && FirstOwed(first, OwedRaws(t)).Some?
    ensures Reaches(h, t, u) && OneTask(t, u, Answers(j)) && j < t.firstFrame
    ensures u.line[u.sent].packet == FirstOwed(first, OwedRaws(t)).value
  {
    var v := CallbacksRun(h, t);
    AllCalledBack(v.world);
    u, j := FirstBegun(h, first, v);
    ReachesOn(h, t, v, u);
  }

  // ── Changes still to be told ──────────────────────────────────────────────

  lemma OneTold(h: Handlers, t: Session) returns (u: Session)
    requires Full(h) && Sound(h, t) && t.sent == |t.line| && t.waiting != []
    ensures u == Told(h, t) && Reaches(h, t, u)
  {
    AfterPushRuns(h, t);
    ReachesNext(h, t, PushRuns);
    u := Told(h, t);
  }

  lemma AfterPushRuns(h: Handlers, t: Session)
    requires Inv(t.world) && t.sent == |t.line| && t.waiting != []
    ensures After(h, t, PushRuns) == Told(h, t)
  {
  }

  lemma NothingToldYet(h: Handlers, t: Session)
    requires t.waiting != [] && h.told(t.waiting[0]) == []
    ensures Told(h, t) == t.(waiting := t.waiting[1..])
  {
    assert t.line + Stamped([], Tells(|t.changes| - |t.waiting|)) == t.line;
  }

  /** The waiting push tasks run, as far as the first whose packet is sent. */
  lemma {:induction false} PushNext(h: Handlers, t: Session) returns (u: Session, n: int)
    requires Full(h) && Sound(h, t) && Unused(t) && t.sent == |t.line| && EachTold(h, t.waiting) != []
    ensures Reaches(h, t, u) && OneTask(t, u, Tells(n)) && n < |t.changes|
    decreases |t.waiting|, 1
  {
    if h.told(t.waiting[0]) == [] {
      u, n := LaterPushNext(h, t);
    } else {
      u := PushesNow(h, t);
      n := |t.changes| - |t.waiting|;
    }
  }

  lemma PushesNow(h: Handlers, t: Session) returns (u: Session)
    requires Full(h) && Sound(h, t) && Unused(t) && t.sent == |t.line| && t.waiting != []
    requires h.told(t.waiting[0]) != []
    ensures Reaches(h, t, u) && OneTask(t, u, Tells(|t.changes| - |t.waiting|))
  {
    u := OneTold(h, t);
    ToldInLine(h, t);
  }

  lemma ToldInLine(h: Handlers, t: Session)
    requires Unused(t) && t.sent == |t.line| && t.waiting != [] && h.told(t.waiting[0]) != []
    ensures OneTask(t, Told(h, t), Tells(|t.changes| - |t.waiting|))
  {
    TaskInLine(t, Told(h, t), h.told(t.waiting[0]), Tells(|t.changes| - |t.waiting|));
  }

  lemma {:induction false} LaterPushNext(h: Handlers, t: Session) returns (u: Session, n: int)
    requires Full(h) && Sound(h, t) && Unused(t) && t.sent == |t.line| && EachTold(h, t.waiting) != []
    requires h.told(t.waiting[0]) == []
    ensures Reaches(h, t, u) && OneTask(t, u, Tells(n)) && n < |t.changes|
    decreases |t.waiting|, 0
  {
    var v := OneTold(h, t);
    NothingToldYet(h, t);
    u, n := PushNext(h, v);
    SameTask(t, v, u, Tells(n));
    ReachesOn(h, t, v, u);
  }

  lemma SameTask(t: Session, v: Session, u: Session, cause: Cause)
    requires OneTask(v, u, cause) && v == t.(waiting := v.waiting)
    ensures OneTask(t, u, cause)
  {
  }

  // ── Sending it ────────────────────────────────────────────────────────────

  /** The first chunk of the packet heads the TX queue, and nothing has been notified yet. */
  predicate ChunkHeads(s: Session, packet: bytes)
  {
    packet != [] && s.world.gatt.connected && s.world.gatt.txQueue != [] && s.world.past.received == [] &&
    !s.world.past.lost && s.world.gatt.txQueue[0] == Chunks(packet, CHUNK_SIZE)[0]
  }

  lemma ReachesIssued(h: Handlers, t: Session)
    requires Full(h) && Sound(h, t) && t.sent < |t.line|
    ensures Reaches(h, t, Issued(t))
  {
    AfterIssue(h, t);
    ReachesNext(h, t, Issue);
  }

  lemma AfterIssue(h: Handlers, t: Session)
    requires Inv(t.world) && t.sent < |t.line|
    ensures After(h, t, Issue) == Issued(t)
  {
  }

  lemma FirstQueued(s: Session)
    requires Inv(s.world) && Unused(s) && s.sent < |s.line| && s.line[s.sent].packet != []
    ensures Same(s, Issued(s)) && ChunkHeads(Issued(s), s.line[s.sent].packet)
  {
    var packet := s.line[s.sent].packet;
    SendHistory(s.world, packet);
    ChunkCount(packet, CHUNK_SIZE);
    assert [] + Admitted(s.world.gatt, packet) == Admitted(s.world.gatt, packet);
  }

  lemma NextQueued(s: Session, packet: bytes)
    requires Inv(s.world) && ChunkHeads(s, packet) && s.sent < |s.line|
    ensures Same(s, Issued(s)) && ChunkHeads(Issued(s), packet)
  {
    SendHistory(s.world, s.line[s.sent].packet);
  }

  lemma {:induction false} RestQueued(h: Handlers, t: Session, packet: bytes) returns (u: Session)
    requires Full(h) && Sound(h, t) && ChunkHeads(t, packet)
    ensures Reaches(h, t, u) && Same(t, u) && ChunkHeads(u, packet) && u.sent == |u.line|
    decreases |t.line| - t.sent
  {
    if t.sent == |t.line| {
      u := t;
      ReachesItself(h, t);
    } else {
      NextQueued(t, packet);
      ReachesIssued(h, t);
      u := RestQueued(h, Issued(t), packet);
      ReachesOn(h, t, Issued(t), u);
    }
  }

  lemma ChunkNotified(t: Session)
    requires Inv(t.world) && t.world.gatt.txQueue != [] && !t.world.past.lost && t.sent == |t.line|
    ensures var u := InWorld(t, Step(t.world, Tick(Delivered)));
            Same(t, u) && !u.world.past.lost && u.clean == t.clean && u.sent == |u.line| &&
            u.world.gatt.txQueue == t.world.gatt.txQueue[1..] &&
            u.world.past.received == t.world.past.received + [t.world.gatt.txQueue[0]]
  {
  }

  lemma OneNotified(h: Handlers, t: Session) returns (u: Session)
    requires Full(h) && Sound(h, t) && t.sent == |t.line| && t.world.gatt.txQueue != [] && !t.world.past.lost
    ensures Reaches(h, t, u) && Same(t, u) && !u.world.past.lost && u.clean == t.clean
    ensures u.sent == |u.line| && u.world.gatt.txQueue == t.world.gatt.txQueue[1..]
    ensures u.world.past.received == t.world.past.received + [t.world.gatt.txQueue[0]]
  {
    u := InWorld(t, Step(t.world, Tick(Delivered)));
    ChunkNotified(t);
    ReachesStep(h, t, Tick(Delivered));
  }

  lemma {:induction false} ChunksNotified(h: Handlers, t: Session, n: nat) returns (u: Session)
    requires Full(h) && Sound(h, t) && t.sent == |t.line| && !t.world.past.lost && n <= |t.world.gatt.txQueue|
    ensures Reaches(h, t, u) && Same(t, u) && !u.world.past.lost && u.clean == t.clean
    ensures u.world.past.received == t.world.past.received + t.world.gatt.txQueue[..n]
    decreases n
  {
    if n == 0 {
      u := t;
      ReachesItself(h, t);
      assert t.world.past.received + [] == t.world.past.received;
    } else {
      var v := OneNotified(h, t);
      u := ChunksNotified(h, v, n - 1);
      ReachesOn(h, t, v, u);
      OneThenMore(t.world.past.received, t.world.gatt.txQueue, n);
    }
  }

  lemma OneThenMore(received: seq<bytes>, queue: seq<bytes>, n: nat)
    requires 0 < n <= |queue|
    ensures received + [queue[0]] + queue[1..][..n - 1] == received + queue[..n]
  {
  }

  /** The first chunk of the first packet of a connection can always reach its client. */
  lemma FirstChunkReceived(h: Handlers, t: Session) returns (u: Session)
    requires Full(h) && Sound(h, t) && Unused(t) && t.sent < |t.line| && t.line[t.sent].packet != []
    ensures Reaches(h, t, u) && Same(t, u) && u.sent == |u.line| && !u.world.past.lost
    ensures u.world.past.received == [Chunks(t.line[t.sent].packet, CHUNK_SIZE)[0]]
  {
    FirstQueued(t);
    ReachesIssued(h, t);
    var v := RestQueued(h, Issued(t), t.line[t.sent].packet);
    ReachesOn(h, t, Issued(t), v);
    u := OneNotified(h, v);
    ReachesOn(h, t, v, u);
  }
}
