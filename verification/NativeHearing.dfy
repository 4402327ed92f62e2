/** What a client hears from the native bridge, over every conversation. */
module NativeHearing {
  import opened Bytes
  import opened BleChunks
  import opened NativeRuns
  import opened NativeTasks
  import opened NativeSession
  import opened Replies
  import D = Dispatcher

  // ── The dispatcher's handlers ─────────────────────────────────────────────

  lemma FullHandlers(codec: D.Codec, passcode: nat)
    requires passcode < 0x1_0000_0000
    ensures Full(HandlersOf(codec, passcode))
  {
    forall x: Input
      ensures AllFull(SentFor(codec, passcode, x))
    {
      RepliesNotEmpty(codec, passcode, x);
    }
    forall r: D.Reply | r.cmd == D.STATE_CHANGE
      ensures AllFull(D.Emit(codec, passcode, [r]).sent)
    {
      EmitOne(codec, passcode, r);
    }
  }

  lemma RepliesNotEmpty(codec: D.Codec, passcode: nat, input: Input)
    requires passcode < 0x1_0000_0000
    ensures AllFull(SentFor(codec, passcode, input))
  {
    PacketFollowsScript(codec, passcode, input);
    var sent := SentFor(codec, passcode, input);
    forall k | 0 <= k < |sent|
      ensures sent[k] != []
    {
      assert SaysOneOf(sent[k], passcode, ScriptFor(codec, passcode, input)[k]);
    }
  }

  /** A conversation with this dispatcher. */
  function Conversation(codec: D.Codec, passcode: nat, moves: seq<Move>): (s: Session)
    requires passcode < 0x1_0000_0000
    ensures Sound(HandlersOf(codec, passcode), s)
  {
    FullHandlers(codec, passcode);
    Play(HandlersOf(codec, passcode), moves)
  }

  // ── The order of what is sent ─────────────────────────────────────────────

  /** Packet i has its own replies, in order and by its script; only a service call keeps the last one back. */
  predicate OwnReplies(codec: D.Codec, passcode: nat, s: Session, i: nat)
    requires i < |s.handled|
  {
    var replies, own := SentFor(codec, passcode, s.handled[i]), Part(s.line, Answers(i));
    own <= replies &&
    (own != replies ==>
      i in s.suspended && KindOf(passcode, s.handled[i].raw) == Request(D.CALL_SERVICE) && own == replies[..1]) &&
    FollowsSoFar(own, passcode, ScriptFor(codec, passcode, s.handled[i]))
  }

  predicate FollowsSoFar(sent: seq<bytes>, passcode: nat, script: seq<set<nat>>)
  {
    |sent| <= |script| && Follows(sent, passcode, script[..|sent|])
  }

  /** The pushes are the changes, in order, as far as their tasks have run, and say STATE_CHANGE. */
  predicate OwnPushes(codec: D.Codec, passcode: nat, s: Session)
  {
    Pushes(s.line) + EachSent(codec, passcode, s.waiting) == EachSent(codec, passcode, s.changes) &&
    forall m <- EachSent(codec, passcode, s.changes) :: Says(m, passcode, D.STATE_CHANGE)
  }

  /** A later packet's reply comes first only if the earlier packet asked for a service call. */
  predicate OnlyCallsOvertaken(passcode: nat, s: Session)
  {
    forall p, q :: 0 <= p < q < |s.line| && s.line[p].cause.Answers? && s.line[q].cause.Answers? &&
                   s.line[q].cause.value < s.line[p].cause.value ==>
      s.line[q].cause.value < |s.handled| &&
      KindOf(passcode, s.handled[s.line[q].cause.value].raw) == Request(D.CALL_SERVICE)
  }

  /** Whenever a packet is answered, all earlier ones that are answered at all have had their first reply. */
  predicate FirstRepliesInTurn(codec: D.Codec, passcode: nat, s: Session)
  {
    forall p, i :: 0 <= p < |s.line| && s.line[p].cause.Answers? && 0 <= i < s.line[p].cause.value < |s.handled| &&
                   SentFor(codec, passcode, s.handled[i]) != [] ==>
      Part(s.line[..p], Answers(i)) != []
  }

  /**
   * However handlers, service calls, changes and the bridge interleave, what was put in line is a
   * shuffle: of each packet's own replies, in order, and of the changes pushed, in order. Packets
   * are answered first in the order of their arrival, and only where a handler waits for a
   * service do replies to a later packet come between.
   */
  lemma ConversationShuffled(codec: D.Codec, passcode: nat, moves: seq<Move>)
    requires passcode < 0x1_0000_0000
    ensures var s := Conversation(codec, passcode, moves);
            (forall i :: 0 <= i < |s.handled| ==> OwnReplies(codec, passcode, s, i)) && OwnPushes(codec, passcode, s) &&
            FirstRepliesInTurn(codec, passcode, s) && OnlyCallsOvertaken(passcode, s)
  {
    var s := Conversation(codec, passcode, moves);
    var h := HandlersOf(codec, passcode);
    forall i | 0 <= i < |s.handled|
      ensures OwnReplies(codec, passcode, s, i)
    {
      RepliesKept(codec, passcode, s, i);
    }
    PushesKept(codec, passcode, s);
    TurnsKept(codec, passcode, s);
  }

  lemma RepliesKept(codec: D.Codec, passcode: nat, s: Session, i: nat)
    requires passcode < 0x1_0000_0000 && Answering(HandlersOf(codec, passcode), s) && i < |s.handled|
    ensures OwnReplies(codec, passcode, s, i)
  {
    var h := HandlersOf(codec, passcode);
    var own := Part(s.line, Answers(i));
    assert own == AnsweredSoFar(h, s, i);
    PartlySent(codec, passcode, s.handled[i], own, i in s.suspended);
  }

  lemma PartlySent(codec: D.Codec, passcode: nat, input: Input, own: seq<bytes>, waits: bool)
    requires passcode < 0x1_0000_0000
    requires waits ==> Suspends(HandlersOf(codec, passcode), input)
    requires own == if waits then Immediate(HandlersOf(codec, passcode), input) else SentFor(codec, passcode, input)
    ensures own <= SentFor(codec, passcode, input)
    ensures own != SentFor(codec, passcode, input) ==>
              waits && KindOf(passcode, input.raw) == Request(D.CALL_SERVICE) &&
              own == SentFor(codec, passcode, input)[..1]
    ensures FollowsSoFar(own, passcode, ScriptFor(codec, passcode, input))
  {
    PartOfReplies(HandlersOf(codec, passcode), input, own, waits);
    ScriptedSoFar(codec, passcode, input, |own|);
  }

  lemma PartOfReplies(h: Handlers, input: Input, own: seq<bytes>, waits: bool)
    requires waits ==> Suspends(h, input)
    requires own == if waits then Immediate(h, input) else h.replies(input)
    ensures |own| <= |h.replies(input)| && own == h.replies(input)[..|own|]
    ensures own != h.replies(input) ==> waits && h.calls(input) && own == h.replies(input)[..1]
  {
  }

  lemma ScriptedSoFar(codec: D.Codec, passcode: nat, input: Input, n: nat)
    requires passcode < 0x1_0000_0000 && n <= |SentFor(codec, passcode, input)|
    ensures FollowsSoFar(SentFor(codec, passcode, input)[..n], passcode, ScriptFor(codec, passcode, input))
  {
    PacketFollowsScript(codec, passcode, input);
    FollowsFirst(SentFor(codec, passcode, input), passcode, ScriptFor(codec, passcode, input), n);
  }

  lemma FollowsFirst(sent: seq<bytes>, passcode: nat, script: seq<set<nat>>, n: nat)
    requires Follows(sent, passcode, script) && n <= |sent|
    ensures FollowsSoFar(sent[..n], passcode, script)
  {
  }

  lemma {:induction false} EachToldIsSent(codec: D.Codec, passcode: nat, changes: seq<D.Reply>)
    ensures EachTold(HandlersOf(codec, passcode), changes) == EachSent(codec, passcode, changes)
  {
    if changes == [] {
    } else {
      EachToldIsSent(codec, passcode, changes[1..]);
    }
  }

  lemma PushesKept(codec: D.Codec, passcode: nat, s: Session)
    requires passcode < 0x1_0000_0000 && Telling(HandlersOf(codec, passcode), s)
    ensures OwnPushes(codec, passcode, s)
  {
    EachToldIsSent(codec, passcode, s.waiting);
    EachToldIsSent(codec, passcode, s.changes);
    EachSays(codec, passcode, s.changes);
  }

  lemma {:induction false} EachSays(codec: D.Codec, passcode: nat, changes: seq<D.Reply>)
    requires passcode < 0x1_0000_0000 && forall r <- changes :: r.cmd == D.STATE_CHANGE
    ensures forall m <- EachSent(codec, passcode, changes) :: Says(m, passcode, D.STATE_CHANGE)
  {
    if changes == [] {
    } else {
      EmitOne(codec, passcode, changes[0]);
      EachSays(codec, passcode, changes[1..]);
    }
  }

  lemma TurnsKept(codec: D.Codec, passcode: nat, s: Session)
    requires InTurn(HandlersOf(codec, passcode), s.line, s.handled)
    requires OvertakesCalls(HandlersOf(codec, passcode), s.line, s.handled)
    ensures FirstRepliesInTurn(codec, passcode, s) && OnlyCallsOvertaken(passcode, s)
  {
    var h := HandlersOf(codec, passcode);
    forall p, i | 0 <= p < |s.line| && s.line[p].cause.Answers? && 0 <= i < s.line[p].cause.value < |s.handled| &&
                  SentFor(codec, passcode, s.handled[i]) != []
      ensures Part(s.line[..p], Answers(i)) != []
    {
      assert h.replies(s.handled[i]) != [];
    }
    forall p, q | 0 <= p < q < |s.line| && s.line[p].cause.Answers? && s.line[q].cause.Answers? &&
                  s.line[q].cause.value < s.line[p].cause.value
      ensures s.line[q].cause.value < |s.handled|
      ensures KindOf(passcode, s.handled[s.line[q].cause.value].raw) == Request(D.CALL_SERVICE)
    {
      assert Suspends(h, s.handled[s.line[q].cause.value]);
    }
  }

  // ── What the client reassembles ───────────────────────────────────────────

  function Heard(s: Session): Rx
  {
    Reassemble(Rx([], []), s.world.past.received)
  }

  /** How many of the frames heard are known to be whole: those sent before one was refused. */
  function Whole(s: Session): (k: nat)
    ensures k <= |Heard(s).frames| && k <= s.clean
  {
    if |Heard(s).frames| < s.clean then |Heard(s).frames| else s.clean
  }

  /** The expected frames of the first attempts come first. */
  lemma {:induction false} ExpectedGrows(log: seq<Attempt>, n: nat)
    requires WellLogged(log) && n <= |log|
    ensures Expected(log[..n]).frames <= Expected(log).frames
    decreases |log|
  {
    if n == |log| {
      assert log[..n] == log;
    } else {
      var before := log[..|log| - 1];
      ExpectedGrows(before, n);
      assert before[..n] == log[..n];
    }
  }

  /**
   * Until a frame was refused or a chunk lost, the client's frames are the packets sent since it
   * connected, one by one; if none was refused they are an initial stretch of those packets, and
   * all of them once the queue has drained.
   */
  predicate HearsWhatWasSent(s: Session)
  {
    s.base + s.clean <= s.sent <= |s.line| &&
    Heard(s).frames[..Whole(s)] == Packets(s.line[s.base..s.base + Whole(s)]) &&
    (s.base + s.clean == s.sent ==>
      Whole(s) == |Heard(s).frames| &&
      (s.world.gatt.connected && s.world.gatt.txQueue == [] ==> Heard(s) == Rx(Packets(s.line[s.base..s.sent]), [])))
  }

  lemma HeardByNow(h: Handlers, s: Session)
    requires Sound(h, s) && !s.world.past.lost
    ensures HearsWhatWasSent(s)
  {
    HeardWhole(h, s);
    if s.base + s.clean == s.sent {
      HeardAll(h, s);
    }
  }

  lemma HeardWhole(h: Handlers, s: Session)
    requires Inv(s.world) && Logging(s) && !s.world.past.lost
    ensures Heard(s).frames[..Whole(s)] == Packets(s.line[s.base..s.base + Whole(s)])
  {
    ReceivedByNow(s.world);
    FramesExpected(s.world.past.log, s.clean);
    PrefixesAgree(Heard(s).frames, Expected(s.world.past.log).frames,
                  Packets(s.line[s.base..s.base + s.clean]), Whole(s));
    FirstPackets(s.line, s.base, s.clean, Whole(s));
  }

  lemma FramesExpected(log: seq<Attempt>, n: nat)
    requires WellLogged(log) && n <= |log| && AllAccepted(log[..n])
    ensures NativeRuns.Frames(log[..n]) <= Expected(log).frames
  {
    ExpectedGrows(log, n);
    AllAcceptedExpected(log[..n]);
  }

  lemma FirstPackets(line: seq<Item>, base: nat, n: nat, k: nat)
    requires base + n <= |line| && k <= n
    ensures Packets(line[base..base + n])[..k] == Packets(line[base..base + k])
  {
  }

  lemma HeardAll(h: Handlers, s: Session)
    requires Inv(s.world) && Logging(s) && !s.world.past.lost && s.base + s.clean == s.sent
    ensures Whole(s) == |Heard(s).frames|
    ensures s.world.gatt.connected && s.world.gatt.txQueue == [] ==>
              Heard(s) == Rx(Packets(s.line[s.base..s.sent]), [])
  {
    var log := s.world.past.log;
    ReceivedByNow(s.world);
    assert log[..s.clean] == log;
    AllAcceptedExpected(log);
  }

  lemma PrefixesAgree(a: seq<bytes>, whole: seq<bytes>, b: seq<bytes>, k: nat)
    requires a <= whole && b <= whole && k <= |a| && k <= |b|
    ensures a[..k] == b[..k]
  {
    assert a[..k] == whole[..k] && b[..k] == whole[..k];
  }

  /**
   * What the bridge recorded of a connection is some of the packets sent in it, in order and none twice:
   * those sent while it stood. Unless a chunk was lost, the client has received an initial stretch of what
   * those make it expect, whole frames and the stubs of refused ones, and all of that once the queue has drained.
   */
  lemma ClientReassembles(codec: D.Codec, passcode: nat, moves: seq<Move>)
    requires passcode < 0x1_0000_0000
    ensures var s := Conversation(codec, passcode, moves);
            WellLogged(s.world.past.log) && Placed(s) &&
            (!s.world.past.lost ==>
              s.world.past.received <= LogChunks(s.world.past.log) &&
              Heard(s).frames <= Expected(s.world.past.log).frames &&
              (s.world.gatt.connected && s.world.gatt.txQueue == [] ==> Heard(s) == Expected(s.world.past.log)))
  {
    var s := Conversation(codec, passcode, moves);
    if !s.world.past.lost {
      ReceivedByNow(s.world);
    }
  }

  lemma ClientHears(codec: D.Codec, passcode: nat, moves: seq<Move>)
    requires passcode < 0x1_0000_0000
    ensures var s := Conversation(codec, passcode, moves);
            (!s.world.past.lost ==> HearsWhatWasSent(s)) && (s.world.past.epoch <= 1 ==> s.base == 0)
  {
    var s := Conversation(codec, passcode, moves);
    if !s.world.past.lost {
      HeardByNow(HandlersOf(codec, passcode), s);
    }
  }

  /** The packets handled are, in order, the frames the writes spell out, as far as they have come. */
  lemma HandlesWhatArrives(codec: D.Codec, passcode: nat, moves: seq<Move>)
    requires passcode < 0x1_0000_0000
    ensures var s := Conversation(codec, passcode, moves);
            |s.handled| <= |s.world.past.frames| &&
            forall i :: 0 <= i < |s.handled| ==> s.handled[i].raw == s.world.past.frames[i]
  {
    var s := Conversation(codec, passcode, moves);
    assert s.world.past.incoming <= s.world.past.frames;
  }

  // ── One packet at a time ──────────────────────────────────────────────────

  /** No handler begins while another waits, and no change is pushed. */
  predicate Serial(h: Handlers, s: Session, moves: seq<Move>)
    requires Full(h) && Sound(h, s)
    decreases moves
  {
    moves == [] ||
    (!moves[0].Change? && (moves[0].Begin? ==> s.suspended == {}) &&
     (AfterKeeps(h, s, moves[0]);
      Serial(h, After(h, s, moves[0]), moves[1..])))
  }

  predicate OneAtATime(h: Handlers, moves: seq<Move>)
    requires Full(h)
  {
    OpeningSound(h);
    Serial(h, OPENING, moves)
  }

  /** What the latest handler still has to send once its service call returns. */
  function Owed(h: Handlers, s: Session): seq<bytes>
  {
    if s.suspended == {} || s.handled == [] then []
    else Late(h, s.handled[|s.handled| - 1])
  }

  predicate Serving(h: Handlers, s: Session)
  {
    s.changes == [] && s.waiting == [] && (forall i <- s.suspended :: i == |s.handled| - 1) &&
    Packets(s.line) + Owed(h, s) == Served(h, s.handled)
  }

  lemma PacketsStamped(line: seq<Item>, packets: seq<bytes>, cause: Cause)
    ensures Packets(line + Stamped(packets, cause)) == Packets(line) + packets
  {
  }

  /** All replies to these packets, one packet after another. */
  function Served(h: Handlers, inputs: seq<Input>): seq<bytes>
  {
    if inputs == [] then []
    else
      var n := |inputs| - 1;
      Served(h, inputs[..n]) + h.replies(inputs[n])
  }

  lemma {:induction false} ServedIsServe(codec: D.Codec, passcode: nat, inputs: seq<Input>)
    ensures Served(HandlersOf(codec, passcode), inputs) == Serve(codec, passcode, inputs)
  {
    if inputs == [] {
    } else {
      ServedIsServe(codec, passcode, inputs[..|inputs| - 1]);
    }
  }

  lemma ServeNext(h: Handlers, handled: seq<Input>, input: Input)
    ensures Served(h, handled + [input])
         == Served(h, handled) + h.replies(input)
  {
    assert (handled + [input])[..|handled|] == handled;
  }

  lemma BegunServes(h: Handlers, s: Session, input: Input)
    requires Serving(h, s) && s.suspended == {}
    ensures Serving(h, Begun(h, s, input))
  {
    var now, late := Immediate(h, input), Late(h, input);
    PacketsStamped(s.line, now, Answers(|s.handled|));
    ServeNext(h, s.handled, input);
    WholeReply(h, input);
    assert Packets(s.line) + [] == Packets(s.line);
    MoveFirst(Packets(s.line), now, late);
  }

  lemma ResumedServes(h: Handlers, s: Session, i: nat)
    requires Serving(h, s) && i in s.suspended && i < |s.handled|
    ensures Serving(h, Resumed(h, s, i))
  {
    PacketsStamped(s.line, Late(h, s.handled[i]), Answers(i));
    assert s.suspended - {i} == {};
    var all := Packets(s.line) + Late(h, s.handled[i]);
    assert all + [] == all;
  }

  lemma MoveServes(h: Handlers, s: Session, m: Move)
    requires Inv(s.world) && Serving(h, s) && !m.Change? && (m.Begin? ==> s.suspended == {})
    ensures Serving(h, After(h, s, m))
  {
    if m.Issue? == (s.sent < |s.line|) {
      if m.Begin? && |s.handled| < |s.world.past.incoming| {
        BegunServes(h, s, Input(s.world.past.incoming[|s.handled|], m.home, m.outcome));
      } else if m.Resume? && m.index in s.suspended && m.index < |s.handled| {
        ResumedServes(h, s, m.index);
      } else {
        SameServes(h, s, Moved(h, s, m));
      }
    }
  }

  lemma SameServes(h: Handlers, s: Session, t: Session)
    requires Serving(h, s) && t.changes == s.changes && t.waiting == s.waiting
    requires t.suspended == s.suspended && t.handled == s.handled && t.line == s.line
    ensures Serving(h, t)
  {
  }

  lemma {:induction false} SerialServes(h: Handlers, s: Session, moves: seq<Move>)
    requires Full(h) && Sound(h, s) && Serving(h, s)
    requires Serial(h, s, moves)
    ensures Serving(h, PlayFrom(h, s, moves))
    decreases moves
  {
    if moves == [] {
    } else {
      AfterKeeps(h, s, moves[0]);
      MoveServes(h, s, moves[0]);
      SerialServes(h, After(h, s, moves[0]), moves[1..]);
    }
  }

  /**
   * With packets handled one at a time, what a client hears until a refusal is the stretch of all
   * replies ever due that begins where sending stood when it connected, and follows the script there: from
   * its very beginning for the first client. A later client may find that stretch to begin with
   * replies to packets of an earlier one.
   */
  lemma ClientHearsReplies(codec: D.Codec, passcode: nat, moves: seq<Move>)
    requires passcode < 0x1_0000_0000
    requires DispatcherOneAtATime(codec, passcode, moves)
    ensures var s := Conversation(codec, passcode, moves);
            !s.world.past.lost ==> HearsServed(codec, passcode, s)
  {
    var h := HandlersOf(codec, passcode);
    FullHandlers(codec, passcode);
    OpeningSound(h);
    OpeningServes(h);
    SerialServes(h, OPENING, moves);
    var s := Play(h, moves);
    if !s.world.past.lost {
      HeardByNow(h, s);
      ServedHeard(codec, passcode, s);
    }
  }

  predicate DispatcherOneAtATime(codec: D.Codec, passcode: nat, moves: seq<Move>)
    requires passcode < 0x1_0000_0000
  {
    FullHandlers(codec, passcode);
    OneAtATime(HandlersOf(codec, passcode), moves)
  }

  lemma OpeningServes(h: Handlers)
    ensures Serving(h, OPENING)
  {
    assert Packets([]) == [];
  }

  predicate HearsServed(codec: D.Codec, passcode: nat, s: Session)
  {
    var replies, script := Serve(codec, passcode, s.handled), Script(codec, passcode, s.handled);
    HearsStretch(replies, s) && FollowsFromTo(replies, passcode, script, s.base, s.base + Whole(s))
  }

  predicate HearsStretch(replies: seq<bytes>, s: Session)
  {
    s.base + Whole(s) <= |replies| && Heard(s).frames[..Whole(s)] == replies[s.base..s.base + Whole(s)]
  }

  predicate FollowsFromTo(replies: seq<bytes>, passcode: nat, script: seq<set<nat>>, lo: nat, hi: nat)
  {
    lo <= hi <= |replies| == |script| && Follows(replies[lo..hi], passcode, script[lo..hi])
  }

  lemma ServedHeard(codec: D.Codec, passcode: nat, s: Session)
    requires passcode < 0x1_0000_0000 && Serving(HandlersOf(codec, passcode), s) && HearsWhatWasSent(s)
    ensures HearsServed(codec, passcode, s)
  {
    ServedIsServe(codec, passcode, s.handled);
    StretchServed(HandlersOf(codec, passcode), s);
    StretchScripted(codec, passcode, s);
  }

  lemma StretchScripted(codec: D.Codec, passcode: nat, s: Session)
    requires passcode < 0x1_0000_0000 && HearsStretch(Serve(codec, passcode, s.handled), s)
    ensures HearsServed(codec, passcode, s)
  {
    ScriptStretch(codec, passcode, s.handled, s.base, s.base + Whole(s));
  }

  lemma StretchServed(h: Handlers, s: Session)
    requires Serving(h, s) && HearsWhatWasSent(s)
    ensures HearsStretch(Served(h, s.handled), s)
  {
    Stretch(s.line, Owed(h, s), s.base, Whole(s));
  }

  lemma ScriptStretch(codec: D.Codec, passcode: nat, inputs: seq<Input>, lo: nat, hi: nat)
    requires passcode < 0x1_0000_0000 && lo <= hi <= |Serve(codec, passcode, inputs)|
    ensures FollowsFromTo(Serve(codec, passcode, inputs), passcode, Script(codec, passcode, inputs), lo, hi)
  {
    SessionFollowsScript(codec, passcode, inputs);
    FollowsStretch(Serve(codec, passcode, inputs), passcode, Script(codec, passcode, inputs), lo, hi);
  }

  lemma Stretch(line: seq<Item>, owed: seq<bytes>, base: nat, k: nat)
    requires base + k <= |line|
    ensures (Packets(line) + owed)[base..base + k] == Packets(line[base..base + k])
  {
  }

  lemma FollowsStretch(sent: seq<bytes>, passcode: nat, script: seq<set<nat>>, lo: nat, hi: nat)
    requires Follows(sent, passcode, script) && lo <= hi <= |sent|
    ensures FollowsFromTo(sent, passcode, script, lo, hi)
  {
  }
}
