/** What every move of a conversation with the native bridge keeps. */
module NativeSession {
  import opened Bytes
  import opened GattServer
  import opened NativeRuns
  import opened NativeTasks
  import opened Replies
  import D = Dispatcher
  import E = Exposure

  /** What packet number i has been answered with so far. */
  function AnsweredSoFar(h: Handlers, s: Session, i: nat): seq<bytes>
    requires i < |s.handled|
  {
    if i in s.suspended then Immediate(h, s.handled[i]) else h.replies(s.handled[i])
  }

  /** The handlers begun are those of the packets that arrived first; each has its own replies in line, in order. */
  predicate Answering(h: Handlers, s: Session)
  {
    |s.handled| <= |s.world.past.incoming| &&
    (forall i :: 0 <= i < |s.handled| ==> s.handled[i].raw == s.world.past.incoming[i]) &&
    (forall i :: 0 <= i < |s.handled| ==> Part(s.line, Answers(i)) == AnsweredSoFar(h, s, i)) &&
    (forall i <- s.suspended :: i < |s.handled| && Suspends(h, s.handled[i]))
  }

  predicate ToldBelow(line: seq<Item>, n: int)
  {
    forall p :: 0 <= p < |line| && line[p].cause.Tells? ==> line[p].cause.change < n
  }

  /** The pushes in line and those waiting are the changes, in order. */
  predicate Telling(h: Handlers, s: Session)
  {
    Pushes(s.line) + EachTold(h, s.waiting) == EachTold(h, s.changes) &&
    (forall r <- s.waiting :: r.cmd == D.STATE_CHANGE) && (forall r <- s.changes :: r.cmd == D.STATE_CHANGE) &&
    |s.waiting| <= |s.changes| && s.waiting == s.changes[|s.changes| - |s.waiting|..] &&
    ToldBelow(s.line, |s.changes| - |s.waiting|)
  }

  predicate CausesHandled(line: seq<Item>, n: nat)
  {
    forall p :: 0 <= p < |line| && line[p].cause.Answers? ==> line[p].cause.value < n
  }

  /** Replies answer packets handled; each packet is answered first before any later one is. */
  predicate InTurn(h: Handlers, line: seq<Item>, handled: seq<Input>)
  {
    CausesHandled(line, |handled|) &&
    forall p, i :: 0 <= p < |line| && line[p].cause.Answers? && 0 <= i < line[p].cause.value &&
                   h.replies(handled[i]) != [] ==>
      Part(line[..p], Answers(i)) != []
  }

  /** A later packet's reply comes first only if the earlier packet calls a service. */
  predicate OvertakesCalls(h: Handlers, line: seq<Item>, handled: seq<Input>)
  {
    forall p, q :: 0 <= p < q < |line| && line[p].cause.Answers? && line[q].cause.Answers? &&
                   line[q].cause.value < line[p].cause.value ==>
      line[q].cause.value < |handled| && Suspends(h, handled[line[q].cause.value])
  }

  predicate NoneEmpty(line: seq<Item>)
  {
    forall p :: 0 <= p < |line| ==> line[p].packet != []
  }

  /** The frames of this connection up to the first refusal are the packets sent in it. */
  predicate Logging(s: Session)
  {
    Logged(s.world.past.log, s.line, s.base, s.clean, s.sent)
  }

  predicate Logged(log: seq<Attempt>, line: seq<Item>, base: nat, clean: nat, sent: nat)
  {
    base + clean <= sent <= |line| && clean <= |log| && AllAccepted(log[..clean]) &&
    NativeRuns.Frames(log[..clean]) == Packets(line[base..base + clean]) && (base + clean == sent ==> |log| == clean)
  }

  /** What the log of this connection records are packets of the line sent in it, in order and none twice. */
  predicate Placed(s: Session)
  {
    PlacedIn(s.world.past.log, s.line, s.logged, s.base, s.clean, s.sent)
  }

  predicate PlacedIn(log: seq<Attempt>, line: seq<Item>, places: seq<nat>, base: nat, clean: nat, sent: nat)
  {
    |places| == |log| && clean <= |log| &&
    (forall i :: 0 <= i < |places| ==> base <= places[i] < sent <= |line| && log[i].data == line[places[i]].packet) &&
    (forall i, j :: 0 <= i < j < |places| ==> places[i] < places[j]) &&
    forall i :: 0 <= i < clean ==> places[i] == base + i
  }

  /** Before the first connection nothing happens that could lead to a packet. */
  predicate Fresh(s: Session)
  {
    (s.world.past.epoch == 0 ==>
      Untouched(s.world) && s.line == [] && s.waiting == [] && s.changes == [] && s.handled == [] &&
      s.suspended == {}) &&
    (s.world.past.epoch <= 1 ==> s.base == 0 && s.firstFrame == 0 && s.firstChange == 0)
  }

  predicate Untouched(w: World)
  {
    !w.gatt.connected && w.past.frames == [] && w.gatt.scheduled == []
  }

  predicate Shuffled(h: Handlers, s: Session)
  {
    Answering(h, s) && Telling(h, s) &&
    InTurn(h, s.line, s.handled) && OvertakesCalls(h, s.line, s.handled)
  }

  predicate Sound(h: Handlers, s: Session)
  {
    Inv(s.world) && Shuffled(h, s) && NoneEmpty(s.line) && Logging(s) && Placed(s) && Fresh(s)
  }

  // ── Steps of the bridge keep it ───────────────────────────────────────────

  /** What a step other than a send does to the history. */
  predicate Continues(w: World, r: World)
  {
    w.past.incoming <= r.past.incoming && w.past.frames <= r.past.frames &&
    (r.past.epoch == w.past.epoch ==> r.past.log == w.past.log) &&
    (r.past.epoch != w.past.epoch ==> r.past.epoch == w.past.epoch + 1 && r.past.log == []) &&
    (r.past.epoch == 0 ==> Untouched(r))
  }

  lemma NativeStep(w: World, e: Event)
    requires Inv(w) && !e.Send? && (w.past.epoch == 0 ==> Untouched(w))
    ensures Continues(w, Step(w, e))
  {
    assert w.past.frames + [] == w.past.frames;
  }

  lemma InWorldKeeps(h: Handlers, s: Session, w: World)
    requires Sound(h, s) && s.sent == |s.line| && Inv(w) && Continues(s.world, w)
    ensures Sound(h, InWorld(s, w))
  {
    MoreArrives(h, s, InWorld(s, w));
    InWorldLogs(s, w);
    InWorldPlaces(s, w);
  }

  lemma InWorldPlaces(s: Session, w: World)
    requires Placed(s) && Continues(s.world, w)
    ensures Placed(InWorld(s, w))
  {
  }

  lemma InWorldLogs(s: Session, w: World)
    requires Logging(s) && s.sent == |s.line| && Continues(s.world, w)
    ensures Logging(InWorld(s, w))
  {
    assert s.line[s.sent..s.sent] == [] && w.past.log[..0] == [];
  }

  lemma MoreArrives(h: Handlers, s: Session, t: Session)
    requires Shuffled(h, s) && s.world.past.incoming <= t.world.past.incoming
    requires t.handled == s.handled && t.line == s.line && t.suspended == s.suspended
    requires t.waiting == s.waiting && t.changes == s.changes
    ensures Shuffled(h, t)
  {
    forall i | 0 <= i < |t.handled|
      ensures t.handled[i].raw == t.world.past.incoming[i]
      ensures Part(t.line, Answers(i)) == AnsweredSoFar(h, t, i)
    {
      assert s.handled[i].raw == s.world.past.incoming[i];
      assert Part(s.line, Answers(i)) == AnsweredSoFar(h, s, i);
    }
  }

  // ── Tasks keep it ─────────────────────────────────────────────────────────

  /** More packets of one cause at the end of the line, after all smaller numbers have been answered. */
  lemma InTurnGrows(h: Handlers, line: seq<Item>, handled: seq<Input>,
                    packets: seq<bytes>, cause: Cause)
    requires InTurn(h, line, handled)
    requires cause.Answers? ==> cause.value < |handled|
    requires cause.Answers? ==> forall i :: 0 <= i < cause.value && h.replies(handled[i]) != [] ==>
               Part(line, Answers(i)) != []
    ensures InTurn(h, line + Stamped(packets, cause), handled)
  {
    var more := line + Stamped(packets, cause);
    forall p, i | 0 <= p < |more| && more[p].cause.Answers? && 0 <= i < more[p].cause.value &&
                  h.replies(handled[i]) != []
      ensures Part(more[..p], Answers(i)) != []
    {
      if p < |line| {
        assert more[..p] == line[..p] && more[p] == line[p];
      } else {
        assert more[..p] == line + Stamped(packets[..p - |line|], cause);
        PartStamped(line, packets[..p - |line|], cause, Answers(i));
      }
    }
  }

  lemma InTurnMoreHandled(h: Handlers, line: seq<Item>, handled: seq<Input>, input: Input)
    requires InTurn(h, line, handled)
    ensures InTurn(h, line, handled + [input])
  {
    forall p, i | 0 <= p < |line| && line[p].cause.Answers? && 0 <= i < line[p].cause.value &&
                  h.replies((handled + [input])[i]) != []
      ensures Part(line[..p], Answers(i)) != []
    {
      assert (handled + [input])[i] == handled[i];
    }
  }

  lemma OvertakingGrows(h: Handlers, line: seq<Item>, handled: seq<Input>,
                        packets: seq<bytes>, cause: Cause)
    requires OvertakesCalls(h, line, handled) && InTurn(h, line, handled)
    requires cause.Answers? ==> cause.value < |handled|
    requires cause.Answers? && packets != [] && cause.value + 1 < |handled| ==>
               Suspends(h, handled[cause.value])
    ensures OvertakesCalls(h, line + Stamped(packets, cause), handled)
  {
    var more := line + Stamped(packets, cause);
    forall p, q | 0 <= p < q < |more| && more[p].cause.Answers? && more[q].cause.Answers? &&
                  more[q].cause.value < more[p].cause.value
      ensures more[q].cause.value < |handled| && Suspends(h, handled[more[q].cause.value])
    {
      if q < |line| {
        assert more[p] == line[p] && more[q] == line[q];
      } else {
        assert more[q].cause == cause;
        assert p < |line| && more[p] == line[p];
        assert line[p].cause.value < |handled|;
      }
    }
  }

  lemma OvertakingMoreHandled(h: Handlers, line: seq<Item>, handled: seq<Input>, input: Input)
    requires OvertakesCalls(h, line, handled)
    ensures OvertakesCalls(h, line, handled + [input])
  {
    forall p, q | 0 <= p < q < |line| && line[p].cause.Answers? && line[q].cause.Answers? &&
                  line[q].cause.value < line[p].cause.value
      ensures line[q].cause.value < |handled + [input]|
      ensures Suspends(h, (handled + [input])[line[q].cause.value])
    {
      assert Suspends(h, handled[line[q].cause.value]);
      assert (handled + [input])[line[q].cause.value] == handled[line[q].cause.value];
    }
  }

  /** A packet not handled yet has nothing in line. */
  lemma {:induction false} NothingInLine(line: seq<Item>, n: nat, i: nat)
    requires CausesHandled(line, n) && i >= n
    ensures Part(line, Answers(i)) == []
    decreases |line|
  {
    if line == [] {
    } else {
      assert CausesHandled(line[..|line| - 1], n);
      NothingInLine(line[..|line| - 1], n, i);
    }
  }

  lemma AnsweredFirst(h: Handlers, s: Session, i: nat)
    requires Answering(h, s) && i < |s.handled| && h.replies(s.handled[i]) != []
    ensures Part(s.line, Answers(i)) != []
  {
    assert Part(s.line, Answers(i)) == AnsweredSoFar(h, s, i);
    if i in s.suspended {
      assert Suspends(h, s.handled[i]);
    }
  }

  lemma BegunKeeps(h: Handlers, s: Session, input: Input)
    requires Shuffled(h, s) && |s.handled| < |s.world.past.incoming|
    requires input.raw == s.world.past.incoming[|s.handled|]
    ensures Shuffled(h, Begun(h, s, input))
  {
    var i, now := |s.handled|, Immediate(h, input);
    InTurnMoreHandled(h, s.line, s.handled, input);
    OvertakingMoreHandled(h, s.line, s.handled, input);
    forall j | 0 <= j < i && h.replies((s.handled + [input])[j]) != []
      ensures Part(s.line, Answers(j)) != []
    {
      AnsweredFirst(h, s, j);
    }
    InTurnGrows(h, s.line, s.handled + [input], now, Answers(i));
    OvertakingGrows(h, s.line, s.handled + [input], now, Answers(i));
    BegunAnswers(h, s, input);
    PushesStamped(s.line, now, Answers(i));
    ToldBelowGrows(s.line, now, Answers(i), |s.changes| - |s.waiting|, |s.changes| - |s.waiting|);
    assert Pushes(s.line) + [] == Pushes(s.line);
  }

  lemma BegunAnswers(h: Handlers, s: Session, input: Input)
    requires Answering(h, s) && CausesHandled(s.line, |s.handled|) && |s.handled| < |s.world.past.incoming|
    requires input.raw == s.world.past.incoming[|s.handled|]
    ensures Answering(h, Begun(h, s, input))
  {
    var t := Begun(h, s, input);
    forall j | 0 <= j < |t.handled|
      ensures Part(t.line, Answers(j)) == AnsweredSoFar(h, t, j)
    {
      if j < |s.handled| {
        EarlierAnswered(h, s, input, j);
      } else {
        LatestAnswered(h, s, input);
      }
    }
    BegunSuspends(h, s, input);
  }

  lemma EarlierAnswered(h: Handlers, s: Session, input: Input, j: nat)
    requires Answering(h, s) && j < |s.handled|
    ensures var t := Begun(h, s, input);
            Part(t.line, Answers(j)) == AnsweredSoFar(h, t, j)
  {
    PartStamped(s.line, Immediate(h, input), Answers(|s.handled|), Answers(j));
    assert Part(s.line, Answers(j)) == AnsweredSoFar(h, s, j);
    assert Part(s.line, Answers(j)) + [] == Part(s.line, Answers(j));
  }

  lemma LatestAnswered(h: Handlers, s: Session, input: Input)
    requires Answering(h, s) && CausesHandled(s.line, |s.handled|)
    ensures var t := Begun(h, s, input);
            Part(t.line, Answers(|s.handled|)) == AnsweredSoFar(h, t, |s.handled|)
  {
    var now := Immediate(h, input);
    PartStamped(s.line, now, Answers(|s.handled|), Answers(|s.handled|));
    NothingInLine(s.line, |s.handled|, |s.handled|);
    assert |s.handled| !in s.suspended;
    assert [] + now == now;
  }

  lemma BegunSuspends(h: Handlers, s: Session, input: Input)
    requires Answering(h, s)
    ensures var t := Begun(h, s, input);
            forall j <- t.suspended :: j < |t.handled| && Suspends(h, t.handled[j])
  {
    var t := Begun(h, s, input);
    forall j | j in t.suspended
      ensures j < |t.handled| && Suspends(h, t.handled[j])
    {
      assert j in s.suspended ==> t.handled[j] == s.handled[j];
    }
  }

  lemma ResumedKeeps(h: Handlers, s: Session, i: nat)
    requires Shuffled(h, s) && i in s.suspended && i < |s.handled|
    ensures Shuffled(h, Resumed(h, s, i))
  {
    var late := Late(h, s.handled[i]);
    forall j | 0 <= j < i && h.replies(s.handled[j]) != []
      ensures Part(s.line, Answers(j)) != []
    {
      AnsweredFirst(h, s, j);
    }
    InTurnGrows(h, s.line, s.handled, late, Answers(i));
    OvertakingGrows(h, s.line, s.handled, late, Answers(i));
    ResumedAnswers(h, s, i);
    PushesStamped(s.line, late, Answers(i));
    ToldBelowGrows(s.line, late, Answers(i), |s.changes| - |s.waiting|, |s.changes| - |s.waiting|);
    assert Pushes(s.line) + [] == Pushes(s.line);
  }

  lemma ResumedAnswers(h: Handlers, s: Session, i: nat)
    requires Answering(h, s) && i in s.suspended && i < |s.handled|
    ensures Answering(h, Resumed(h, s, i))
  {
    var t := Resumed(h, s, i);
    forall j | 0 <= j < |t.handled|
      ensures Part(t.line, Answers(j)) == AnsweredSoFar(h, t, j)
    {
      PartStamped(s.line, Late(h, s.handled[i]), Answers(i), Answers(j));
      assert Part(s.line, Answers(j)) == AnsweredSoFar(h, s, j);
      assert Part(s.line, Answers(j)) + [] == Part(s.line, Answers(j));
      WholeReply(h, s.handled[i]);
    }
  }

  lemma WholeReply(h: Handlers, input: Input)
    ensures Immediate(h, input) + Late(h, input) == h.replies(input)
  {
  }

  lemma ChangedKeeps(h: Handlers, s: Session, more: seq<D.Reply>)
    requires Shuffled(h, s) && forall r <- more :: r.cmd == D.STATE_CHANGE
    ensures Shuffled(h, Changed(s, more))
  {
    ChangedTells(h, s, more);
    AnswersAlone(h, s, Changed(s, more));
  }

  lemma ChangedTells(h: Handlers, s: Session, more: seq<D.Reply>)
    requires Telling(h, s) && forall r <- more :: r.cmd == D.STATE_CHANGE
    ensures Telling(h, Changed(s, more))
  {
    EachToldAppend(h, s.waiting, more);
    EachToldAppend(h, s.changes, more);
    MoveFirst(Pushes(s.line), EachTold(h, s.waiting), EachTold(h, more));
    LaterAndMore(s.changes, more, |s.changes| - |s.waiting|);
  }

  lemma LaterAndMore(changes: seq<D.Reply>, more: seq<D.Reply>, n: nat)
    requires n <= |changes|
    ensures (changes + more)[n..] == changes[n..] + more
  {
  }

  lemma AnswersAlone(h: Handlers, s: Session, t: Session)
    requires Answering(h, s) && t.world == s.world && t.handled == s.handled
    requires t.suspended == s.suspended && forall i :: Part(t.line, Answers(i)) == Part(s.line, Answers(i))
    ensures Answering(h, t)
  {
    forall i | 0 <= i < |t.handled|
      ensures Part(t.line, Answers(i)) == AnsweredSoFar(h, t, i)
    {
      assert Part(s.line, Answers(i)) == AnsweredSoFar(h, s, i);
    }
  }

  lemma PushRunKeeps(h: Handlers, s: Session)
    requires Shuffled(h, s) && s.waiting != []
    ensures Shuffled(h, Told(h, s))
  {
    PushOrder(h, s);
    PushAnswers(h, s);
    PushRunTells(h, s);
  }

  lemma PushOrder(h: Handlers, s: Session)
    requires InTurn(h, s.line, s.handled) && OvertakesCalls(h, s.line, s.handled) && s.waiting != []
    ensures InTurn(h, Told(h, s).line, s.handled) && OvertakesCalls(h, Told(h, s).line, s.handled)
  {
    var own, cause := h.told(s.waiting[0]), Tells(|s.changes| - |s.waiting|);
    InTurnGrows(h, s.line, s.handled, own, cause);
    OvertakingGrows(h, s.line, s.handled, own, cause);
  }

  lemma PushAnswers(h: Handlers, s: Session)
    requires Answering(h, s) && s.waiting != []
    ensures Answering(h, Told(h, s))
  {
    var own, cause := h.told(s.waiting[0]), Tells(|s.changes| - |s.waiting|);
    forall i
      ensures Part(s.line + Stamped(own, cause), Answers(i)) == Part(s.line, Answers(i))
    {
      PartStamped(s.line, own, cause, Answers(i));
      assert Part(s.line, Answers(i)) + [] == Part(s.line, Answers(i));
    }
    AnswersAlone(h, s, Told(h, s));
  }

  lemma PushRunTells(h: Handlers, s: Session)
    requires Telling(h, s) && s.waiting != []
    ensures Telling(h, Told(h, s))
  {
    var n := |s.changes| - |s.waiting|;
    PushesStamped(s.line, h.told(s.waiting[0]), Tells(n));
    ToldBelowGrows(s.line, h.told(s.waiting[0]), Tells(n), n, n + 1);
    PushTaken(h, Pushes(s.line), s.waiting);
    Later(s.changes, n);
  }

  lemma PushTaken(h: Handlers, pushed: seq<bytes>, waiting: seq<D.Reply>)
    requires waiting != []
    ensures pushed + h.told(waiting[0]) + EachTold(h, waiting[1..]) == pushed + EachTold(h, waiting)
  {
    MoveFirst(pushed, h.told(waiting[0]), EachTold(h, waiting[1..]));
  }

  lemma Later(changes: seq<D.Reply>, n: nat)
    requires n < |changes|
    ensures changes[n..][1..] == changes[n + 1..]
  {
  }

  lemma ToldBelowGrows(line: seq<Item>, packets: seq<bytes>, cause: Cause, m: int, n: int)
    requires ToldBelow(line, m) && m <= n
    requires cause.Tells? ==> cause.change < n
    ensures ToldBelow(line + Stamped(packets, cause), n)
  {
  }

  // ── Packets are never empty ───────────────────────────────────────────────

  lemma PartsNotEmpty(h: Handlers, input: Input)
    requires AllFull(h.replies(input))
    ensures AllFull(Immediate(h, input)) && AllFull(Late(h, input))
  {
    var sent := h.replies(input);
    if |sent| > 1 {
      forall k | 0 <= k < |sent| - 1
        ensures sent[1..][k] != []
      {
        assert sent[k + 1] != [];
      }
      assert sent[..1][0] == sent[0];
    }
  }

  lemma StampedNotEmpty(line: seq<Item>, packets: seq<bytes>, cause: Cause)
    requires NoneEmpty(line) && AllFull(packets)
    ensures NoneEmpty(line + Stamped(packets, cause))
  {
  }

  lemma BegunNotEmpty(h: Handlers, s: Session, input: Input)
    requires Full(h) && NoneEmpty(s.line)
    ensures NoneEmpty(Begun(h, s, input).line)
  {
    PartsNotEmpty(h, input);
    StampedNotEmpty(s.line, Immediate(h, input), Answers(|s.handled|));
  }

  lemma ResumedNotEmpty(h: Handlers, s: Session, i: nat)
    requires Full(h) && NoneEmpty(s.line) && i < |s.handled|
    ensures NoneEmpty(Resumed(h, s, i).line)
  {
    PartsNotEmpty(h, s.handled[i]);
    StampedNotEmpty(s.line, Late(h, s.handled[i]), Answers(i));
  }

  lemma PushRunNotEmpty(h: Handlers, s: Session)
    requires Full(h) && NoneEmpty(s.line) && s.waiting != []
    requires s.waiting[0].cmd == D.STATE_CHANGE
    ensures NoneEmpty(Told(h, s).line)
  {
    StampedNotEmpty(s.line, h.told(s.waiting[0]), Tells(|s.changes| - |s.waiting|));
  }

  // ── Sending keeps it ──────────────────────────────────────────────────────

  predicate AcceptedNext(log: seq<Attempt>, more: seq<Attempt>, packet: bytes)
  {
    |more| == |log| + 1 && more[..|log|] == log && more[|log|].accepted && more[|log|].data == packet
  }

  lemma SendHistory(w: World, packet: bytes)
    requires Inv(w)
    ensures var r := Step(w, Send(packet));
            r.past.epoch == w.past.epoch && r.past.incoming == w.past.incoming && r.past.frames == w.past.frames &&
            r.gatt.connected == w.gatt.connected && r.gatt.scheduled == w.gatt.scheduled &&
            r.client == w.client && r.past.received == w.past.received && r.past.lost == w.past.lost &&
            w.past.log <= r.past.log && |r.past.log| <= |w.past.log| + 1 &&
            (SendAccepted(w.gatt, packet) ==> AcceptedNext(w.past.log, r.past.log, packet)) &&
            (if CanSend(w.gatt)
             then |r.past.log| == |w.past.log| + 1 && r.past.log[|w.past.log|].data == packet
             else r.past.log == w.past.log)
  {
  }

  lemma FramesNext(log: seq<Attempt>, a: Attempt)
    requires a.data != []
    ensures NativeRuns.Frames(log + [a]) == NativeRuns.Frames(log) + [a.data]
  {
    assert (log + [a])[..|log|] == log;
  }

  lemma PacketsNext(line: seq<Item>, base: nat, end: nat)
    requires base <= end < |line|
    ensures Packets(line[base..end + 1]) == Packets(line[base..end]) + [line[end].packet]
  {
  }

  lemma IssuedLogs(s: Session)
    requires Inv(s.world) && s.sent < |s.line| && NoneEmpty(s.line) && Logging(s)
    ensures Logging(Issued(s))
  {
    var packet := s.line[s.sent].packet;
    SendHistory(s.world, packet);
    LogsSent(s, Issued(s), SendAccepted(s.world.gatt, packet));
  }

  /** One more packet of the line sent, and accepted or not. */
  lemma LogsSent(s: Session, t: Session, accepted: bool)
    requires Logging(s) && NoneEmpty(s.line) && s.sent < |s.line|
    requires t.line == s.line && t.base == s.base && t.sent == s.sent + 1
    requires s.world.past.log <= t.world.past.log
    requires accepted ==> AcceptedNext(s.world.past.log, t.world.past.log, s.line[s.sent].packet)
    requires t.clean == if s.base + s.clean == s.sent && accepted then s.clean + 1 else s.clean
    ensures Logging(t)
  {
    if s.base + s.clean == s.sent && accepted {
      LoggedAccepted(s.world.past.log, t.world.past.log, s.line, s.base, s.clean);
    } else {
      LoggedOther(s.world.past.log, t.world.past.log, s.line, s.base, s.clean, s.sent);
    }
  }

  lemma LoggedAccepted(log: seq<Attempt>, more: seq<Attempt>, line: seq<Item>, base: nat, clean: nat)
    requires Logged(log, line, base, clean, base + clean) && base + clean < |line|
    requires AcceptedNext(log, more, line[base + clean].packet) && line[base + clean].packet != []
    ensures Logged(more, line, base, clean + 1, base + clean + 1)
  {
    assert log[..clean] == log && more[..clean + 1] == more;
    LogsOneMore(log, more, line[base + clean].packet);
    PacketsNext(line, base, base + clean);
  }

  lemma LoggedOther(log: seq<Attempt>, more: seq<Attempt>, line: seq<Item>, base: nat, clean: nat, sent: nat)
    requires Logged(log, line, base, clean, sent) && log <= more && sent < |line|
    ensures Logged(more, line, base, clean, sent + 1)
  {
    assert more[..clean] == log[..clean];
  }

  lemma LogsOneMore(log: seq<Attempt>, more: seq<Attempt>, packet: bytes)
    requires AllAccepted(log) && AcceptedNext(log, more, packet) && packet != []
    ensures AllAccepted(more) && NativeRuns.Frames(more) == NativeRuns.Frames(log) + [packet]
  {
    assert more == log + [more[|log|]];
    FramesNext(log, more[|log|]);
  }

  lemma IssuedPlaces(s: Session)
    requires Inv(s.world) && s.sent < |s.line| && Logging(s) && Placed(s)
    ensures Placed(Issued(s))
  {
    var packet := s.line[s.sent].packet;
    SendHistory(s.world, packet);
    if CanSend(s.world.gatt) {
      OneMorePlaced(s, Issued(s));
    }
  }

  lemma OneMorePlaced(s: Session, t: Session)
    requires Logging(s) && Placed(s) && s.sent < |s.line| && t.line == s.line && t.base == s.base
    requires t.sent == s.sent + 1 && t.logged == s.logged + [s.sent]
    requires |t.world.past.log| == |s.world.past.log| + 1 && s.world.past.log <= t.world.past.log
    requires t.world.past.log[|s.world.past.log|].data == s.line[s.sent].packet
    requires t.clean == s.clean || (t.clean == s.clean + 1 && s.base + s.clean == s.sent)
    ensures Placed(t)
  {
  }

  lemma IssuedKeeps(h: Handlers, s: Session)
    requires Sound(h, s) && s.sent < |s.line|
    ensures Sound(h, Issued(s))
  {
    var packet := s.line[s.sent].packet;
    StepKeeps(s.world, Send(packet));
    SendHistory(s.world, packet);
    IssuedLogs(s);
    IssuedPlaces(s);
    MoreArrives(h, s, Issued(s));
  }

  // ── Every move keeps it ───────────────────────────────────────────────────

  lemma LineGrowsLogging(s: Session, t: Session)
    requires Logging(s) && t.world == s.world && t.sent == s.sent && t.base == s.base && t.clean == s.clean
    requires s.line <= t.line
    ensures Logging(t)
  {
    assert t.line[s.base..s.base + s.clean] == s.line[s.base..s.base + s.clean];
  }

  lemma LineGrowsPlaced(s: Session, t: Session)
    requires Placed(s) && t.world == s.world && t.sent == s.sent && t.base == s.base && t.clean == s.clean
    requires t.logged == s.logged && s.line <= t.line
    ensures Placed(t)
  {
  }

  lemma BeginKeeps(h: Handlers, s: Session, input: Input)
    requires Full(h) && Sound(h, s)
    requires |s.handled| < |s.world.past.incoming| && input.raw == s.world.past.incoming[|s.handled|]
    ensures Sound(h, Begun(h, s, input))
  {
    BegunKeeps(h, s, input);
    BegunNotEmpty(h, s, input);
    LineGrowsLogging(s, Begun(h, s, input));
    LineGrowsPlaced(s, Begun(h, s, input));
  }

  lemma ResumeKeeps(h: Handlers, s: Session, i: nat)
    requires Full(h) && Sound(h, s) && i in s.suspended && i < |s.handled|
    ensures Sound(h, Resumed(h, s, i))
  {
    ResumedKeeps(h, s, i);
    ResumedNotEmpty(h, s, i);
    LineGrowsLogging(s, Resumed(h, s, i));
    LineGrowsPlaced(s, Resumed(h, s, i));
  }

  lemma ChangeKeeps(h: Handlers, s: Session, home: E.Home, newState: Option<E.EntityState>)
    requires Sound(h, s) && s.world.client.live != {}
    ensures Sound(h, Changed(s, D.Pushed(home, newState)))
  {
    ChangedKeeps(h, s, D.Pushed(home, newState));
    LineGrowsLogging(s, Changed(s, D.Pushed(home, newState)));
    LineGrowsPlaced(s, Changed(s, D.Pushed(home, newState)));
  }

  lemma PushRunsKeeps(h: Handlers, s: Session)
    requires Full(h) && Sound(h, s) && s.waiting != []
    ensures Sound(h, Told(h, s))
  {
    PushRunKeeps(h, s);
    PushRunNotEmpty(h, s);
    LineGrowsLogging(s, Told(h, s));
    LineGrowsPlaced(s, Told(h, s));
  }

  lemma NativeKeeps(h: Handlers, s: Session, e: Event)
    requires Sound(h, s) && s.sent == |s.line| && !e.Send?
    ensures Sound(h, InWorld(s, Step(s.world, e)))
  {
    StepKeeps(s.world, e);
    NativeStep(s.world, e);
    InWorldKeeps(h, s, Step(s.world, e));
  }

  lemma MovedKeeps(h: Handlers, s: Session, m: Move)
    requires Full(h) && Sound(h, s) && m.Issue? == (s.sent < |s.line|)
    ensures Sound(h, Moved(h, s, m))
  {
    if m.Native? {
      NativeMoves(h, s, m);
    } else if m.Issue? {
      IssueMoves(h, s);
    } else {
      TaskKeeps(h, s, m);
    }
  }

  lemma NativeMoves(h: Handlers, s: Session, m: Move)
    requires Sound(h, s) && s.sent == |s.line| && m.Native?
    ensures Sound(h, Moved(h, s, m))
  {
    if !m.event.Send? {
      NativeKeeps(h, s, m.event);
    }
  }

  lemma IssueMoves(h: Handlers, s: Session)
    requires Sound(h, s) && s.sent < |s.line|
    ensures Sound(h, Moved(h, s, Issue))
  {
    MovedIssue(h, s);
    IssuedKeeps(h, s);
  }

  lemma MovedIssue(h: Handlers, s: Session)
    requires Inv(s.world) && s.sent < |s.line|
    ensures Moved(h, s, Issue) == Issued(s)
  {
  }

  lemma TaskKeeps(h: Handlers, s: Session, m: Move)
    requires Full(h) && Sound(h, s) && s.sent == |s.line| && !m.Native? && !m.Issue?
    ensures Sound(h, Moved(h, s, m))
  {
    if m.Begin? {
      BeginMoves(h, s, m);
    } else if m.Resume? {
      ResumeMoves(h, s, m);
    } else if m.Change? {
      ChangeMoves(h, s, m);
    } else {
      PushMoves(h, s, m);
    }
  }

  lemma BeginMoves(h: Handlers, s: Session, m: Move)
    requires Full(h) && Sound(h, s) && s.sent == |s.line| && m.Begin?
    ensures Sound(h, Moved(h, s, m))
  {
    if |s.handled| < |s.world.past.incoming| {
      BeginKeeps(h, s, Input(s.world.past.incoming[|s.handled|], m.home, m.outcome));
    }
  }

  lemma ResumeMoves(h: Handlers, s: Session, m: Move)
    requires Full(h) && Sound(h, s) && s.sent == |s.line| && m.Resume?
    ensures Sound(h, Moved(h, s, m))
  {
    if m.index in s.suspended && m.index < |s.handled| {
      ResumeKeeps(h, s, m.index);
    }
  }

  lemma ChangeMoves(h: Handlers, s: Session, m: Move)
    requires Sound(h, s) && s.sent == |s.line| && m.Change?
    ensures Sound(h, Moved(h, s, m))
  {
    if s.world.client.live != {} {
      ChangeKeeps(h, s, m.home, m.newState);
    }
  }

  lemma PushMoves(h: Handlers, s: Session, m: Move)
    requires Full(h) && Sound(h, s) && s.sent == |s.line| && m.PushRuns?
    ensures Sound(h, Moved(h, s, m))
  {
    if s.waiting != [] {
      PushRunsKeeps(h, s);
    }
  }

  lemma AfterKeeps(h: Handlers, s: Session, m: Move)
    requires Full(h) && Sound(h, s)
    ensures Sound(h, After(h, s, m))
  {
    if m.Issue? == (s.sent < |s.line|) {
      MovedKeeps(h, s, m);
    }
  }

  lemma OpeningSound(h: Handlers)
    ensures Sound(h, OPENING)
  {
    BeginInv();
  }

  function PlayFrom(h: Handlers, s: Session, moves: seq<Move>): (t: Session)
    requires Full(h) && Sound(h, s)
    ensures Sound(h, t)
    decreases moves
  {
    if moves == [] then s
    else
      AfterKeeps(h, s, moves[0]);
      PlayFrom(h, After(h, s, moves[0]), moves[1..])
  }

  function Play(h: Handlers, moves: seq<Move>): (s: Session)
    requires Full(h)
    ensures Sound(h, s)
  {
    OpeningSound(h);
    PlayFrom(h, OPENING, moves)
  }
}
