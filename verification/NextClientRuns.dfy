/** Runs in which a client hears what it should, and what it should not. */
module NextClientRuns {
  import opened Bytes
  import opened BleChunks
  import opened GattServer
  import opened NativeRuns
  import opened NativeTasks
  import opened NativeSession
  import opened NativeHearing
  import opened NativeReach
  import opened NextClient
  import opened WholeFrames
  import opened Replies
  import C = ReplyContents
  import D = Dispatcher
  import E = Exposure

  ghost predicate Stage(s: Session, g: Gatt, frames: seq<bytes>, pending: seq<Callback>, handled: seq<Input>)
  {
    s.world.gatt == g.(scheduled := pending) && s.world.past.frames == frames && s.handled == handled &&
    s.line == [] && s.waiting == [] && s.base == s.sent == s.clean == 0 &&
    s.world.past.received == [] && !s.world.past.lost
  }

  const UP := Gatt(true, true, false, [], [], {}, [])
  const ON := Gatt(true, true, true, [], [], {}, [])

  lemma Listens(h: Handlers) returns (t: Session)
    requires Full(h) && Sound(h, OPENING)
    ensures Reaches(h, OPENING, t) && Stage(t, UP, [], [], []) && t.world.past.epoch == 0
  {
    var s := InWorld(OPENING, Step(BEGIN, Start));
    ReachesStep(h, OPENING, Start);
    t := InWorld(s, Step(s.world, CreateServer));
    ReachesStep(h, s, CreateServer);
    ReachesOn(h, OPENING, s, t);
  }

  lemma WriteArrives(h: Handlers, s: Session, raw: bytes) returns (t: Session)
    requires Full(h) && Sound(h, s) && Stage(s, UP, [], [], []) && s.world.past.epoch == 0
    ensures Reaches(h, s, t) && Stage(t, ON, [raw], [OnConnect, OnFrame(raw)], [])
    ensures t.world.past.epoch == 1
  {
    t := InWorld(s, Step(s.world, Write([FINAL] + raw)));
    WriteLeads(s, raw);
    ReachesStep(h, s, Write([FINAL] + raw));
  }

  lemma WriteLeads(s: Session, raw: bytes)
    requires Inv(s.world) && Stage(s, UP, [], [], []) && s.world.past.epoch == 0
    ensures var t := InWorld(s, Step(s.world, Write([FINAL] + raw)));
            Stage(t, ON, [raw], [OnConnect, OnFrame(raw)], []) && t.world.past.epoch == 1
  {
    PayloadOf(s.world.gatt.rxBuf, raw);
  }

  lemma PayloadOf(buffer: bytes, raw: bytes)
    requires buffer == []
    ensures buffer + ([FINAL] + raw)[1..] == raw
  {
  }

  lemma NextCallbackRuns(h: Handlers, s: Session, raws: seq<bytes>, c: Callback, rest: seq<Callback>)
    returns (t: Session)
    requires Full(h) && Sound(h, s) && Stage(s, ON, raws, [c] + rest, [])
    ensures Reaches(h, s, t) && Stage(t, ON, raws, rest, [])
    ensures t.world.past.epoch == s.world.past.epoch
  {
    t := InWorld(s, Step(s.world, RunCallback));
    CallbackLeaves(s, raws, c, rest);
    ReachesStep(h, s, RunCallback);
  }

  lemma CallbackLeaves(s: Session, raws: seq<bytes>, c: Callback, rest: seq<Callback>)
    requires Inv(s.world) && Stage(s, ON, raws, [c] + rest, [])
    ensures var t := InWorld(s, Step(s.world, RunCallback));
            Stage(t, ON, raws, rest, []) && t.world.past.epoch == s.world.past.epoch
  {
    assert ([c] + rest)[1..] == rest;
  }

  /** The first client's packet has been handed to the loop. */
  lemma PacketArrives(h: Handlers, raw: bytes) returns (t: Session)
    requires Full(h) && Sound(h, OPENING)
    ensures Reaches(h, OPENING, t) && Stage(t, ON, [raw], [], []) && t.world.past.epoch == 1
    ensures t.world.past.incoming == [raw]
  {
    var b := FrameWritten(h, raw);
    t := FrameDelivered(h, b, raw);
    ReachesOn(h, OPENING, b, t);
  }

  lemma FrameWritten(h: Handlers, raw: bytes) returns (t: Session)
    requires Full(h) && Sound(h, OPENING)
    ensures Reaches(h, OPENING, t) && Stage(t, ON, [raw], [OnConnect, OnFrame(raw)], [])
    ensures t.world.past.epoch == 1
  {
    var a := Listens(h);
    t := WriteArrives(h, a, raw);
    ReachesOn(h, OPENING, a, t);
  }

  lemma FrameDelivered(h: Handlers, s: Session, raw: bytes) returns (t: Session)
    requires Full(h) && Sound(h, s) && Stage(s, ON, [raw], [OnConnect, OnFrame(raw)], [])
    ensures Reaches(h, s, t) && Stage(t, ON, [raw], [], [])
    ensures t.world.past.epoch == s.world.past.epoch && t.world.past.incoming == [raw]
  {
    assert [OnConnect] + [OnFrame(raw)] == [OnConnect, OnFrame(raw)] && [OnFrame(raw)] + [] == [OnFrame(raw)];
    var c := NextCallbackRuns(h, s, [raw], OnConnect, [OnFrame(raw)]);
    t := NextCallbackRuns(h, c, [raw], OnFrame(raw), []);
    ReachesOn(h, s, c, t);
    AllCalledBack(t.world);
  }

  /** Its handler has acknowledged it and waits for the service. */
  lemma HandlerWaits(h: Handlers, s: Session, input: Input) returns (t: Session)
    requires Full(h) && Sound(h, s) && Stage(s, ON, [input.raw], [], []) && s.world.past.incoming == [input.raw]
    requires s.world.past.epoch == 1 && Suspends(h, input)
    ensures Reaches(h, s, t) && t.handled == [input] && 0 in t.suspended && t.sent == |t.line|
    ensures t.world.past.frames == [input.raw] && t.world.past.epoch == 1
    ensures t.world.gatt.connected && t.world.gatt.serverUp && t.world.gatt.loopSet
  {
    var b := OneBegun(h, s, input);
    BegunWaits(h, s, input);
    t := Acknowledged(h, b);
    ReachesOn(h, s, b, t);
  }

  lemma BegunWaits(h: Handlers, s: Session, input: Input)
    requires Stage(s, ON, [input.raw], [], []) && Suspends(h, input)
    ensures var t := Begun(h, s, input);
            t.handled == [input] && 0 in t.suspended && t.sent + 1 == |t.line| && t.world == s.world
  {
    assert [] + [input] == [input];
    assert |Immediate(h, input)| == 1;
  }

  lemma Acknowledged(h: Handlers, s: Session) returns (t: Session)
    requires Full(h) && Sound(h, s) && s.sent + 1 == |s.line|
    ensures Reaches(h, s, t) && t.sent == |t.line| && t.handled == s.handled
    ensures t.suspended == s.suspended && t.world.past.frames == s.world.past.frames
    ensures t.world.past.epoch == s.world.past.epoch && t.world.gatt.connected == s.world.gatt.connected
    ensures t.world.gatt.serverUp == s.world.gatt.serverUp && t.world.gatt.loopSet == s.world.gatt.loopSet
  {
    t := Issued(s);
    ReachesIssued(h, s);
    IssuedLeaves(s);
  }

  lemma IssuedLeaves(s: Session)
    requires Inv(s.world) && s.sent < |s.line|
    ensures var t := Issued(s);
            t.handled == s.handled && t.suspended == s.suspended && t.line == s.line && t.sent == s.sent + 1 &&
            t.world.past.frames == s.world.past.frames && t.world.past.epoch == s.world.past.epoch &&
            t.world.gatt == s.world.gatt.(txQueue := t.world.gatt.txQueue)
  {
  }

  /** The client leaves, and another connects. */
  lemma ClientsChange(h: Handlers, s: Session) returns (v: Session, t: Session)
    requires Full(h) && Sound(h, s) && s.sent == |s.line|
    requires s.world.gatt.connected && s.world.gatt.serverUp && s.world.gatt.loopSet
    ensures Reaches(h, s, v) && Reaches(h, s, t)
    ensures JustConnected(v, t) && t.world.gatt.serverUp
    ensures v.world.past.frames == s.world.past.frames && t.world.past.epoch == s.world.past.epoch + 1
    ensures t.handled == s.handled && t.suspended == s.suspended && t == After(h, v, Native(Write([FINAL])))
    ensures v.handled == s.handled && v.suspended == s.suspended
    ensures Connects(h, v, Native(Write([FINAL])))
  {
    var a := Polled(h, s, {"peer"});
    v := Polled(h, a, {});
    ReachesOn(h, s, a, v);
    t := Reconnected(h, v);
    ReachesOn(h, s, v, t);
  }

  lemma Reconnected(h: Handlers, v: Session) returns (t: Session)
    requires Full(h) && Sound(h, v) && v.sent == |v.line|
    requires !v.world.gatt.connected && v.world.gatt.serverUp && v.world.gatt.loopSet
    ensures Reaches(h, v, t) && JustConnected(v, t) && t.world.gatt.serverUp
    ensures t.world.past.epoch == v.world.past.epoch + 1 && t == After(h, v, Native(Write([FINAL])))
  {
    t := InWorld(v, Step(v.world, Write([FINAL])));
    AfterNative(h, v, Write([FINAL]));
    ReachesStep(h, v, Write([FINAL]));
    ConnectingStep(v.world, Write([FINAL]));
  }

  lemma Polled(h: Handlers, s: Session, macs: set<string>) returns (t: Session)
    requires Full(h) && Sound(h, s) && s.sent == |s.line|
    ensures Reaches(h, s, t)
    ensures t == s.(world := t.world) && t.world.past.epoch == s.world.past.epoch
    ensures t.world.past.frames == s.world.past.frames && t.world.gatt.prevConnected == macs
    ensures t.world.gatt.serverUp == s.world.gatt.serverUp && t.world.gatt.loopSet == s.world.gatt.loopSet
    ensures t.world.gatt.connected <==>
              s.world.gatt.connected && !(s.world.gatt.prevConnected != {} && macs == {})
  {
    t := InWorld(s, Step(s.world, Poll(macs)));
    PollStep(s.world, macs);
    ReachesStep(h, s, Poll(macs));
  }

  lemma PollStep(w: World, macs: set<string>)
    requires Inv(w)
    ensures var r := Step(w, Poll(macs));
            r.past.epoch == w.past.epoch && r.past.frames == w.past.frames && r.gatt.prevConnected == macs &&
            r.gatt.serverUp == w.gatt.serverUp && r.gatt.loopSet == w.gatt.loopSet &&
            (r.gatt.connected <==> w.gatt.connected && !(w.gatt.prevConnected != {} && macs == {}))
  {
  }

  /**
   * A client asks for a service and leaves; the next one connects while the call is out. The only
   * frame that one hears is the answer to the first.
   */
  lemma AnswerReachesNextClient(codec: D.Codec, passcode: nat, input: Input) returns (u: Session)
    requires passcode < 0x1_0000_0000 && KindOf(passcode, input.raw) == Request(D.CALL_SERVICE)
    requires |SentFor(codec, passcode, input)| > 1 && |SentFor(codec, passcode, input)[1]| <= LARGEST
    ensures var h := HandlersOf(codec, passcode);
            Full(h) && Sound(h, OPENING) && Reaches(h, OPENING, u)
    ensures u.world.past.epoch == 2 && u.handled == [input] && u.firstFrame == 1 && !u.world.past.lost
    ensures Heard(u).frames == [SentFor(codec, passcode, input)[1]] && !OwnOnly(u)
  {
    var h := HandlersOf(codec, passcode);
    FullHandlers(codec, passcode);
    OpeningSound(h);
    assert Suspends(h, input) && h.replies(input) == SentFor(codec, passcode, input);
    u := LateAnswerHeard(h, input);
  }

  lemma LateAnswerHeard(h: Handlers, input: Input) returns (u: Session)
    requires Full(h) && Sound(h, OPENING) && Suspends(h, input) && |h.replies(input)[1]| <= LARGEST
    ensures Reaches(h, OPENING, u) && u.world.past.epoch == 2 && u.handled == [input] && u.firstFrame == 1
    ensures !u.world.past.lost && Heard(u).frames == [h.replies(input)[1]] && !OwnOnly(u)
  {
    var b := ServiceCalled(h, input);
    var c := NextConnected(h, b, input);
    ReachesOn(h, OPENING, b, c);
    u := AnswerHeard(h, c, input);
    ReachesOn(h, OPENING, c, u);
  }

  /** One packet was handled, and its handler waits. */
  ghost predicate Calling(s: Session, input: Input)
  {
    s.handled == [input] && 0 in s.suspended && s.sent == |s.line|
  }

  lemma ServiceCalled(h: Handlers, input: Input) returns (t: Session)
    requires Full(h) && Sound(h, OPENING) && Suspends(h, input)
    ensures Reaches(h, OPENING, t) && Calling(t, input)
    ensures t.world.past.frames == [input.raw] && t.world.past.epoch == 1
    ensures t.world.gatt.connected && t.world.gatt.serverUp && t.world.gatt.loopSet
  {
    var a := PacketArrives(h, input.raw);
    t := HandlerWaits(h, a, input);
    ReachesOn(h, OPENING, a, t);
  }

  lemma NextConnected(h: Handlers, s: Session, input: Input) returns (t: Session)
    requires Full(h) && Sound(h, s) && Calling(s, input)
    requires s.world.past.frames == [input.raw] && s.world.past.epoch == 1
    requires s.world.gatt.connected && s.world.gatt.serverUp && s.world.gatt.loopSet
    ensures Reaches(h, s, t) && Calling(t, input) && Unused(t)
    ensures t.world.past.epoch == 2 && t.firstFrame == 1
  {
    var v, c := ClientsChange(h, s);
    t := c;
  }

  lemma AnswerHeard(h: Handlers, s: Session, input: Input) returns (u: Session)
    requires Full(h) && Sound(h, s) && Calling(s, input) && Unused(s) && s.world.past.epoch == 2 && s.firstFrame == 1
    requires |h.replies(input)[1]| <= LARGEST && Suspends(h, input)
    ensures Reaches(h, s, u) && u.world.past.epoch == 2 && u.handled == [input] && u.firstFrame == 1
    ensures !u.world.past.lost && Heard(u).frames == [h.replies(input)[1]] && !OwnOnly(u)
  {
    var d := AnswerNext(h, s, 0);
    u := StaleHeard(h, d, Answers(0));
    ReachesOn(h, s, d, u);
  }

  /** A packet too large for the queue: what fits of it is queued, and nothing else can be. */
  lemma LargeIssued(s: Session)
    requires Inv(s.world) && Unused(s) && s.sent + 1 == |s.line| && |s.line[s.sent].packet| > LARGEST
    ensures var u := Issued(s);
            Same(s, u) && u.sent == |u.line| && u.clean == 0 && !u.world.past.lost && u.world.past.received == [] &&
            u.world.gatt.txQueue == Chunks(s.line[s.sent].packet, CHUNK_SIZE)[..QUEUE_SIZE]
  {
    var packet := s.line[s.sent].packet;
    SendHistory(s.world, packet);
    LargestAcceptedFrame(s.world.gatt, packet);
    RefusedFrameLeavesPrefix(s.world.gatt, packet, Rx([], []));
    assert [] + Chunks(packet, CHUNK_SIZE)[..QUEUE_SIZE] == Chunks(packet, CHUNK_SIZE)[..QUEUE_SIZE];
  }

  lemma StubHeard(s: Session, packet: bytes)
    requires |packet| > LARGEST
    requires QUEUE_SIZE <= |Chunks(packet, CHUNK_SIZE)|
    requires s.world.past.received == Chunks(packet, CHUNK_SIZE)[..QUEUE_SIZE]
    ensures Heard(s) == Rx([], packet[..LARGEST])
  {
    ChunkCount(packet, CHUNK_SIZE);
    SomeChunksBuffered(Rx([], []), packet, CHUNK_SIZE, QUEUE_SIZE);
    assert [] + packet[..LARGEST] == packet[..LARGEST];
  }

  lemma LargeReceived(h: Handlers, t: Session) returns (u: Session)
    requires Full(h) && Sound(h, t) && Unused(t) && t.sent + 1 == |t.line| && |t.line[t.sent].packet| > LARGEST
    ensures Reaches(h, t, u) && Same(t, u) && !u.world.past.lost && u.clean == 0
    ensures Heard(u) == Rx([], t.line[t.sent].packet[..LARGEST])
  {
    var packet := t.line[t.sent].packet;
    LargeIssued(t);
    ReachesIssued(h, t);
    ChunkCount(packet, CHUNK_SIZE);
    u := ChunksNotified(h, Issued(t), QUEUE_SIZE);
    ReachesOn(h, t, Issued(t), u);
    AllQueued(Chunks(packet, CHUNK_SIZE)[..QUEUE_SIZE]);
    StubHeard(u, packet);
  }

  lemma AllQueued(chunks: seq<bytes>)
    ensures [] + chunks[..|chunks|] == chunks
  {
  }

  /**
   * If the answer is too large for the queue, the next client hears no whole frame of it, and nothing is
   * owed in that sense; but it holds the answer's first 62464 bytes, in front of its own next frame.
   */
  lemma LargeAnswerReachesNextClient(h: Handlers, first: First, input: Input) returns (v: Session, u: Session)
    requires Full(h) && Sound(h, OPENING) && Suspends(h, input)
    requires |h.replies(input)| == 2 && |h.replies(input)[1]| > LARGEST
    ensures Reaches(h, OPENING, v) && !Owes(h, first, v) && Connects(h, v, Native(Write([FINAL])))
    ensures var t := After(h, v, Native(Write([FINAL])));
            Sound(h, t) && InConnection(h, t, u)
    ensures !u.world.past.lost && OwnOnly(u) && Heard(u) == Rx([], h.replies(input)[1][..LARGEST])
  {
    var b := ServiceCalled(h, input);
    var t: Session;
    v, t := ClientsChange(h, b);
    ReachesOn(h, OPENING, b, v);
    NoneOwed(h, first, v, input);
    u := LargeAnswerReceived(h, t, input);
  }

  lemma DispatcherLargeAnswer(codec: D.Codec, passcode: nat, input: Input) returns (v: Session, u: Session)
    requires passcode < 0x1_0000_0000 && KindOf(passcode, input.raw) == Request(D.CALL_SERVICE)
    requires |SentFor(codec, passcode, input)| == 2 && |SentFor(codec, passcode, input)[1]| > LARGEST
    ensures var h := HandlersOf(codec, passcode);
            Full(h) && Sound(h, OPENING) && Reaches(h, OPENING, v)
    ensures !Owes(HandlersOf(codec, passcode), FirstOf(codec, passcode), v)
    ensures var h := HandlersOf(codec, passcode);
            var t := After(h, v, Native(Write([FINAL])));
            Sound(h, t) && InConnection(h, t, u)
    ensures !u.world.past.lost && OwnOnly(u) && Heard(u) == Rx([], SentFor(codec, passcode, input)[1][..LARGEST])
  {
    var h := HandlersOf(codec, passcode);
    FullHandlers(codec, passcode);
    OpeningSound(h);
    assert Suspends(h, input) && h.replies(input) == SentFor(codec, passcode, input);
    v, u := LargeAnswerReachesNextClient(h, FirstOf(codec, passcode), input);
  }

  lemma NoneOwed(h: Handlers, first: First, s: Session, input: Input)
    requires s.handled == [input] && s.world.past.frames == [input.raw]
    requires |h.replies(input)| == 2 && |h.replies(input)[1]| > LARGEST
    ensures !Owes(h, first, s)
  {
    assert s.world.past.frames[|s.handled|..] == [];
  }

  lemma LargeAnswerReceived(h: Handlers, t: Session, input: Input) returns (u: Session)
    requires Full(h) && Sound(h, t) && Calling(t, input) && Unused(t) && Suspends(h, input)
    requires |h.replies(input)| == 2 && |h.replies(input)[1]| > LARGEST
    ensures InConnection(h, t, u)
    ensures !u.world.past.lost && OwnOnly(u) && Heard(u) == Rx([], h.replies(input)[1][..LARGEST])
  {
    var d := AnswerNext(h, t, 0);
    u := LargeReceived(h, d);
    ReachesOn(h, t, d, u);
    NothingWhole(u);
  }

  lemma NothingWhole(u: Session)
    requires u.clean == 0 && u.base <= |u.line|
    ensures OwnOnly(u)
  {
  }

  /** Any request can be a client's first, and its acknowledgement can be the first frame it hears. */
  lemma AcknowledgementHeard(codec: D.Codec, passcode: nat, input: Input) returns (u: Session)
    requires passcode < 0x1_0000_0000 && KindOf(passcode, input.raw).Request?
    ensures var h := HandlersOf(codec, passcode);
            Full(h) && Sound(h, OPENING) && Reaches(h, OPENING, u)
    ensures u.handled == [input] && !u.world.past.lost && Whole(u) > 0
    ensures |Heard(u).frames| == 1 && Says(Heard(u).frames[0], passcode, D.ACK)
  {
    var h := HandlersOf(codec, passcode);
    FullHandlers(codec, passcode);
    OpeningSound(h);
    RequestReplies(codec, passcode, input.home, input.outcome, input.raw);
    FirstReplyIs(codec, passcode, input);
    u := FirstReplyHeard(h, input);
  }

  lemma FirstReplyHeard(h: Handlers, input: Input) returns (u: Session)
    requires Full(h) && Sound(h, OPENING) && h.replies(input) != [] && |h.replies(input)[0]| <= LARGEST
    ensures Reaches(h, OPENING, u) && u.handled == [input] && !u.world.past.lost && Whole(u) > 0
    ensures Heard(u).frames == [h.replies(input)[0]]
  {
    var a := PacketArrives(h, input.raw);
    var b := FirstPacketBegun(h, a, input);
    ReachesOn(h, OPENING, a, b);
    u := FirstHeard(h, b);
    ReachesOn(h, OPENING, b, u);
  }

  lemma FirstPacketBegun(h: Handlers, s: Session, input: Input) returns (t: Session)
    requires Full(h) && Sound(h, s) && Stage(s, ON, [input.raw], [], []) && s.world.past.incoming == [input.raw]
    requires h.replies(input) != []
    ensures Reaches(h, s, t) && Unused(t) && t.handled == [input] && t.sent < |t.line|
    ensures t.line[t.sent].packet == h.replies(input)[0]
  {
    t := OneBegun(h, s, input);
    assert Immediate(h, input)[0] == h.replies(input)[0];
    assert [] + [input] == [input];
  }

  /** The client connects, and the change of a marked entity is the first frame it hears. */
  lemma ChangeHeard(codec: D.Codec, passcode: nat, home: E.Home, state: E.EntityState) returns (u: Session)
    requires passcode < 0x1_0000_0000 && E.Marked(home, state.entityId)
    requires exists j :: C.TellsState(j, state) && |codec.dumps(j)| <= 62450
    ensures var h := HandlersOf(codec, passcode);
            Full(h) && Sound(h, OPENING) && Reaches(h, OPENING, u)
    ensures !u.world.past.lost && |Heard(u).frames| == 1
    ensures C.SaysChange(codec, passcode, Heard(u).frames[0], state)
  {
    var h := HandlersOf(codec, passcode);
    FullHandlers(codec, passcode);
    OpeningSound(h);
    var r := PushIs(codec, passcode, home, state);
    u := PushHeard(h, home, state, r);
  }

  /** The one push for the change, and the packet its task sends. */
  lemma PushIs(codec: D.Codec, passcode: nat, home: E.Home, state: E.EntityState) returns (r: D.Reply)
    requires passcode < 0x1_0000_0000 && E.Marked(home, state.entityId)
    requires exists j :: C.TellsState(j, state) && |codec.dumps(j)| <= 62450
    ensures D.Pushed(home, Some(state)) == [r]
    ensures var sent := D.Emit(codec, passcode, [r]).sent;
            |sent| == 1 && |sent[0]| <= LARGEST && C.SaysChange(codec, passcode, sent[0], state)
  {
    C.PushedIff(home, Some(state));
    r := D.Pushed(home, Some(state))[0];
    C.PushTold(codec, passcode, r, state);
    C.StateTold(state);
  }

  lemma PushHeard(h: Handlers, home: E.Home, state: E.EntityState, r: D.Reply) returns (u: Session)
    requires Full(h) && Sound(h, OPENING) && D.Pushed(home, Some(state)) == [r]
    requires |h.told(r)| == 1 && |h.told(r)[0]| <= LARGEST
    ensures Reaches(h, OPENING, u) && !u.world.past.lost && Heard(u).frames == [h.told(r)[0]]
  {
    var a := PacketArrives(h, []);
    u := ChangePushed(h, a, home, state, r);
    ReachesOn(h, OPENING, a, u);
  }

  lemma ChangePushed(h: Handlers, s: Session, home: E.Home, state: E.EntityState, r: D.Reply) returns (u: Session)
    requires Full(h) && Sound(h, s) && Stage(s, ON, [[]], [], []) && D.Pushed(home, Some(state)) == [r]
    requires |h.told(r)| == 1 && |h.told(r)[0]| <= LARGEST
    ensures Reaches(h, s, u) && !u.world.past.lost && Heard(u).frames == [h.told(r)[0]]
  {
    var b := ChangeScheduled(h, s, home, state, r);
    u := PushSent(h, b, r);
    ReachesOn(h, s, b, u);
  }

  lemma PushSent(h: Handlers, t: Session, r: D.Reply) returns (u: Session)
    requires Full(h) && Sound(h, t) && Unused(t) && t.sent == |t.line| && t.waiting == [r]
    requires |h.told(r)| == 1 && |h.told(r)[0]| <= LARGEST
    ensures Reaches(h, t, u) && !u.world.past.lost && Heard(u).frames == [h.told(r)[0]]
  {
    var c := OneTold(h, t);
    ToldFirst(h, t, r);
    u := InLineHeard(h, t, c, h.told(r)[0]);
  }

  lemma ToldFirst(h: Handlers, t: Session, r: D.Reply)
    requires Unused(t) && t.sent == |t.line| && t.waiting == [r] && h.told(r) != []
    ensures var c := Told(h, t);
            Unused(c) && c.sent < |c.line| && c.line[c.sent].packet == h.told(r)[0]
  {
  }

  lemma InLineHeard(h: Handlers, t: Session, c: Session, packet: bytes) returns (u: Session)
    requires Full(h) && Sound(h, t) && Reaches(h, t, c) && Unused(c)
    requires c.sent < |c.line| && c.line[c.sent].packet == packet && |packet| <= LARGEST
    ensures Reaches(h, t, u) && !u.world.past.lost && Heard(u).frames == [packet]
  {
    u := FirstHeard(h, c);
    ReachesOn(h, t, c, u);
  }

  lemma ChangeScheduled(h: Handlers, s: Session, home: E.Home, state: E.EntityState, r: D.Reply) returns (t: Session)
    requires Full(h) && Sound(h, s) && Stage(s, ON, [[]], [], []) && D.Pushed(home, Some(state)) == [r]
    ensures Reaches(h, s, t) && Unused(t) && t.sent == |t.line| && t.waiting == [r]
  {
    t := Changed(s, [r]);
    Listening(s.world);
    ReachesNext(h, s, Move.Change(home, Some(state)));
    AfterChange(h, s, home, state, r);
  }

  lemma AfterChange(h: Handlers, s: Session, home: E.Home, state: E.EntityState, r: D.Reply)
    requires Inv(s.world) && s.sent == |s.line| && s.world.client.live != {} && D.Pushed(home, Some(state)) == [r]
    ensures After(h, s, Move.Change(home, Some(state))) == Changed(s, [r])
    ensures s.waiting == [] ==> Changed(s, [r]).waiting == [r]
  {
    assert [] + [r] == [r];
  }

  /** With no callback left to run, the dispatcher listens while the server is connected. */
  lemma Listening(w: World)
    requires Inv(w) && w.gatt.scheduled == [] && w.gatt.connected
    ensures w.client.live != {}
  {
  }

  /** While the server is not connected and no callback is left to run, a change of state is told to nobody. */
  lemma NobodyToTell(h: Handlers, s: Session, home: E.Home, newState: Option<E.EntityState>)
    requires Sound(h, s) && !s.world.gatt.connected && s.world.gatt.scheduled == []
    ensures After(h, s, Move.Change(home, newState)) == s
  {
  }
}
