/** What the client hears back: the reply protocol over single packets and whole sessions. */
module Replies {
  import opened Bytes
  import opened Packet
  import opened Exposure
  import opened Dispatcher

  /** The packet is accepted by a peer, under this passcode, as the given command. */
  predicate Says(packet: bytes, passcode: nat, cmd: nat)
  {
    var m := DecodePacket(packet);
    m.Some? && m.value.passcode == passcode && m.value.cmd == cmd
  }

  predicate Fits(codec: Codec, r: Reply)
  {
    |PayloadBytes(codec, r)| <= 0xFFFF
  }

  /** A single reply goes out, readable by the peer, exactly when its payload fits. */
  lemma EmitOne(codec: Codec, passcode: nat, r: Reply)
    requires passcode < 0x1_0000_0000 && r.cmd < 256
    ensures var e := Emit(codec, passcode, [r]);
            e.raised == !Fits(codec, r) && |e.sent| == (if Fits(codec, r) then 1 else 0) &&
            (Fits(codec, r) ==>
              DecodePacket(e.sent[0]) == Some(Message(passcode, r.cmd, PayloadBytes(codec, r))))
  {
    assert [r][1..] == [];
    if Fits(codec, r) {
      RoundTrip(passcode, r.cmd, PayloadBytes(codec, r), 0);
    }
  }

  /** The command of the answer: the one after the request, or NACK for a state not to be told. */
  function AnswerCode(home: Home, cmd: nat, payload: Json): nat
    requires IsRequest(cmd) && WellTyped(cmd, payload)
  {
    if cmd == REQ_STATE && !AnswersState(home, Get(payload.fields, "entity_id", Str("")).s) then NACK else cmd + 1
  }

  lemma AnswerCommand(home: Home, outcome: ServiceOutcome, cmd: nat, payload: Json)
    requires IsRequest(cmd) && WellTyped(cmd, payload)
    ensures Answer(home, outcome, cmd, payload).cmd == AnswerCode(home, cmd, payload)
  {
  }

  datatype Kind = Silent | Rejected | Request(cmd: nat)

  /** How an incoming packet is treated, from its bytes alone. */
  function KindOf(passcode: nat, raw: bytes): Kind
  {
    match DecodePacket(raw)
    case None => Silent
    case Some(m) =>
      if m.passcode != passcode then Rejected
      else if m.cmd == ACK then Silent
      else if IsRequest(m.cmd) then Request(m.cmd)
      else Rejected
  }

  /** Malformed packets and acknowledgements are met with silence. */
  lemma SilentReplies(codec: Codec, passcode: nat, home: Home, outcome: ServiceOutcome, raw: bytes)
    requires KindOf(passcode, raw) == Silent
    ensures Handle(codec, passcode, home, outcome, raw) == Effect([], [], false)
  {
  }

  /** The NACK for a packet that is turned away. */
  function Refusal(passcode: nat, raw: bytes): Reply
    requires KindOf(passcode, raw) == Rejected
  {
    var m := DecodePacket(raw).value;
    if m.passcode != passcode then WRONG_PASSCODE else UnknownCommand(m.cmd)
  }

  /**
   * A wrong passcode or an unknown command reaches no handler and earns one NACK; if that does not
   * fit a packet, nothing is sent and handling raises.
   */
  lemma RejectedReplies(codec: Codec, passcode: nat, home: Home, outcome: ServiceOutcome, raw: bytes)
    requires passcode < 0x1_0000_0000 && KindOf(passcode, raw) == Rejected
    ensures var e := Handle(codec, passcode, home, outcome, raw);
            && e.calls == []
            && (e.raised <==> !Fits(codec, Refusal(passcode, raw)))
            && (e.raised ==> e.sent == [])
            && (!e.raised ==> |e.sent| == 1 && Says(e.sent[0], passcode, NACK))
  {
    EmitOne(codec, passcode, Refusal(passcode, raw));
  }

  /**
   * A request is acknowledged first. It then gets exactly one answer of its own kind, or for a
   * state that may not be told one NACK, unless the payload is ill-typed or the answer does not
   * fit a packet: then the handler raises after the acknowledgement. A service is called at most
   * once, and only for a well-typed CALL_SERVICE.
   */
  lemma RequestReplies(codec: Codec, passcode: nat, home: Home, outcome: ServiceOutcome, raw: bytes)
    requires passcode < 0x1_0000_0000 && KindOf(passcode, raw).Request?
    ensures var m := DecodePacket(raw).value;
            var payload := Parse(codec, m.payload);
            var e := Handle(codec, passcode, home, outcome, raw);
            && |e.sent| >= 1 && Says(e.sent[0], passcode, ACK)
            && (!e.raised <==> WellTyped(m.cmd, payload) && Fits(codec, Answer(home, outcome, m.cmd, payload)))
            && (e.raised ==> |e.sent| == 1)
            && (!e.raised ==> |e.sent| == 2 && Says(e.sent[1], passcode, AnswerCode(home, m.cmd, payload)))
            && e.calls == (if m.cmd == CALL_SERVICE && WellTyped(m.cmd, payload)
                           then [CallOf(payload.fields)] else [])
  {
    var m := DecodePacket(raw).value;
    var payload := Parse(codec, m.payload);
    var ack := Reply(Dispatcher.ACK, None);
    EmitOne(codec, passcode, ack);
    RequestEffect(codec, passcode, home, outcome, m.cmd, payload);
    if WellTyped(m.cmd, payload) {
      var answer := Answer(home, outcome, m.cmd, payload);
      AnswerCommand(home, outcome, m.cmd, payload);
      EmitOne(codec, passcode, answer);
    }
  }

  // ── Sessions ──────────────────────────────────────────────────────────────

  /** One incoming packet with the registries and the service outcome it meets. */
  datatype Input = Input(raw: bytes, home: Home, outcome: ServiceOutcome)

  function SentFor(codec: Codec, passcode: nat, input: Input): seq<bytes>
  {
    Handle(codec, passcode, input.home, input.outcome, input.raw).sent
  }

  /** Everything sent while the packets are handled one at a time. */
  function Serve(codec: Codec, passcode: nat, inputs: seq<Input>): seq<bytes>
  {
    if inputs == [] then []
    else
      var n := |inputs| - 1;
      Serve(codec, passcode, inputs[..n]) +
      SentFor(codec, passcode, inputs[n])
  }

  /** Everything the reply calls for can be said: the payload is well-typed and the answer fits a packet. */
  predicate Answerable(codec: Codec, passcode: nat, input: Input)
  {
    match KindOf(passcode, input.raw)
    case Silent => true
    case Rejected => Fits(codec, Refusal(passcode, input.raw))
    case Request(cmd) =>
      var payload := Parse(codec, DecodePacket(input.raw).value.payload);
      WellTyped(cmd, payload) && Fits(codec, Answer(input.home, input.outcome, cmd, payload))
  }

  /** The commands allowed at each position of the reply to one packet, if all of it can be said. */
  function ScriptOf(kind: Kind): seq<set<nat>>
  {
    match kind
    case Silent => []
    case Rejected => [{NACK}]
    case Request(cmd) =>
      [{ACK}, if cmd == REQ_STATE then {ANS_STATE, NACK} else {cmd + 1}]
  }

  /** Otherwise only the acknowledgement of a request is sent. */
  function ScriptFor(codec: Codec, passcode: nat, input: Input): seq<set<nat>>
  {
    var kind := KindOf(passcode, input.raw);
    if Answerable(codec, passcode, input) then ScriptOf(kind)
    else if kind.Request? then [{ACK}]
    else []
  }

  /** The same for a whole session. */
  function Script(codec: Codec, passcode: nat, inputs: seq<Input>): seq<set<nat>>
  {
    if inputs == [] then []
    else
      var n := |inputs| - 1;
      Script(codec, passcode, inputs[..n]) + ScriptFor(codec, passcode, inputs[n])
  }

  predicate SaysOneOf(packet: bytes, passcode: nat, allowed: set<nat>)
  {
    var m := DecodePacket(packet);
    m.Some? && m.value.passcode == passcode && m.value.cmd in allowed
  }

  predicate Follows(sent: seq<bytes>, passcode: nat, script: seq<set<nat>>)
  {
    |sent| == |script| && forall i :: 0 <= i < |sent| ==> SaysOneOf(sent[i], passcode, script[i])
  }

  lemma FollowsAppend(a: seq<bytes>, b: seq<bytes>, passcode: nat, s: seq<set<nat>>, t: seq<set<nat>>)
    requires Follows(a, passcode, s) && Follows(b, passcode, t)
    ensures Follows(a + b, passcode, s + t)
  {
  }

  /** Whatever arrives, in any order, what goes out follows the script packet by packet. */
  lemma {:induction false} SessionFollowsScript(codec: Codec, passcode: nat, inputs: seq<Input>)
    requires passcode < 0x1_0000_0000
    ensures Follows(Serve(codec, passcode, inputs), passcode, Script(codec, passcode, inputs))
  {
    if inputs == [] {
    } else {
      var n := |inputs| - 1;
      SessionFollowsScript(codec, passcode, inputs[..n]);
      PacketFollowsScript(codec, passcode, inputs[n]);
      FollowsAppend(Serve(codec, passcode, inputs[..n]), SentFor(codec, passcode, inputs[n]), passcode,
                    Script(codec, passcode, inputs[..n]), ScriptFor(codec, passcode, inputs[n]));
    }
  }

  lemma PacketFollowsScript(codec: Codec, passcode: nat, input: Input)
    requires passcode < 0x1_0000_0000
    ensures Follows(SentFor(codec, passcode, input), passcode, ScriptFor(codec, passcode, input))
    ensures Handle(codec, passcode, input.home, input.outcome, input.raw).raised <==>
            !Answerable(codec, passcode, input)
  {
    match KindOf(passcode, input.raw)
    case Silent => SilentReplies(codec, passcode, input.home, input.outcome, input.raw);
    case Rejected => RejectedReplies(codec, passcode, input.home, input.outcome, input.raw);
    case Request(cmd) => RequestFollowsScript(codec, passcode, input);
  }

  lemma RequestFollowsScript(codec: Codec, passcode: nat, input: Input)
    requires passcode < 0x1_0000_0000 && KindOf(passcode, input.raw).Request?
    ensures Follows(SentFor(codec, passcode, input), passcode, ScriptFor(codec, passcode, input))
    ensures Handle(codec, passcode, input.home, input.outcome, input.raw).raised <==>
            !Answerable(codec, passcode, input)
  {
    var cmd := KindOf(passcode, input.raw).cmd;
    var payload := Parse(codec, DecodePacket(input.raw).value.payload);
    RequestReplies(codec, passcode, input.home, input.outcome, input.raw);
    if Answerable(codec, passcode, input) {
      PairFollows(SentFor(codec, passcode, input), passcode, cmd, AnswerCode(input.home, cmd, payload));
    }
  }

  lemma PairFollows(sent: seq<bytes>, passcode: nat, cmd: nat, answer: nat)
    requires |sent| == 2 && Says(sent[0], passcode, ACK) && Says(sent[1], passcode, answer)
    requires answer == cmd + 1 || (cmd == REQ_STATE && answer == NACK)
    ensures Follows(sent, passcode, ScriptOf(Request(cmd)))
  {
  }

  // ── Pushes ─────────────────────────────────────────────────────────────────

  /** A state change is reported, or the task of the oldest push not yet sent runs. */
  datatype PushEvent = Change(home: Home, newState: Option<EntityState>) | TaskRuns

  datatype Pushing = Pushing(sent: seq<bytes>, waiting: seq<Reply>)

  function AfterPush(codec: Codec, passcode: nat, p: Pushing, e: PushEvent): Pushing
  {
    match e
    case Change(home, newState) => p.(waiting := p.waiting + Pushed(home, newState))
    case TaskRuns =>
      if p.waiting == [] then p
      else Pushing(p.sent + Emit(codec, passcode, [p.waiting[0]]).sent, p.waiting[1..])
  }

  function PushRun(codec: Codec, passcode: nat, events: seq<PushEvent>): Pushing
  {
    if events == [] then Pushing([], [])
    else AfterPush(codec, passcode, PushRun(codec, passcode, events[..|events| - 1]), events[|events| - 1])
  }

  /** The pushes the changes call for. */
  function Changes(events: seq<PushEvent>): seq<Reply>
  {
    if events == [] then []
    else
      var n := |events| - 1;
      Changes(events[..n]) + if events[n].Change? then Pushed(events[n].home, events[n].newState) else []
  }

  /** Replies sent by tasks of their own: one that does not fit a packet stops no other. */
  function EachSent(codec: Codec, passcode: nat, replies: seq<Reply>): seq<bytes>
  {
    if replies == [] then [] else Emit(codec, passcode, [replies[0]]).sent + EachSent(codec, passcode, replies[1..])
  }

  lemma {:induction false} EachSentAppend(codec: Codec, passcode: nat, a: seq<Reply>, b: seq<Reply>)
    ensures EachSent(codec, passcode, a + b) == EachSent(codec, passcode, a) + EachSent(codec, passcode, b)
  {
    if a == [] {
      assert a + b == b;
    } else {
      assert (a + b)[1..] == a[1..] + b;
      EachSentAppend(codec, passcode, a[1..], b);
      MoveFirst(Emit(codec, passcode, [a[0]]).sent, EachSent(codec, passcode, a[1..]), EachSent(codec, passcode, b));
    }
  }

  /** What was pushed and what is still waiting are together the given pushes, in order. */
  predicate Accounted(codec: Codec, passcode: nat, p: Pushing, all: seq<Reply>)
  {
    p.sent + EachSent(codec, passcode, p.waiting) == EachSent(codec, passcode, all) &&
    (forall r <- p.waiting :: r.cmd == STATE_CHANGE) &&
    forall m <- p.sent :: Says(m, passcode, STATE_CHANGE)
  }

  lemma ChangeAccounted(codec: Codec, passcode: nat, p: Pushing, all: seq<Reply>, more: seq<Reply>)
    requires Accounted(codec, passcode, p, all) && forall r <- more :: r.cmd == STATE_CHANGE
    ensures Accounted(codec, passcode, p.(waiting := p.waiting + more), all + more)
  {
    EachSentAppend(codec, passcode, p.waiting, more);
    EachSentAppend(codec, passcode, all, more);
  }

  lemma TaskAccounted(codec: Codec, passcode: nat, p: Pushing, all: seq<Reply>)
    requires passcode < 0x1_0000_0000 && Accounted(codec, passcode, p, all) && p.waiting != []
    ensures Accounted(codec, passcode, AfterPush(codec, passcode, p, TaskRuns), all)
  {
    var own := Emit(codec, passcode, [p.waiting[0]]).sent;
    EmitOne(codec, passcode, p.waiting[0]);
    MoveFirst(p.sent, own, EachSent(codec, passcode, p.waiting[1..]));
    forall m | m in own
      ensures Says(m, passcode, STATE_CHANGE)
    {
      assert own == [own[0]];
    }
  }

  lemma MoveFirst(a: seq<bytes>, b: seq<bytes>, c: seq<bytes>)
    ensures a + (b + c) == a + b + c
  {
  }

  /**
   * However changes and tasks interleave, what was pushed and what is still waiting are together the
   * changes of exposed entities, in order; every packet pushed says STATE_CHANGE.
   */
  lemma {:induction false} PushesInOrder(codec: Codec, passcode: nat, events: seq<PushEvent>)
    requires passcode < 0x1_0000_0000
    ensures Accounted(codec, passcode, PushRun(codec, passcode, events), Changes(events))
  {
    if events == [] {
    } else {
      var before, e := events[..|events| - 1], events[|events| - 1];
      var p := PushRun(codec, passcode, before);
      PushesInOrder(codec, passcode, before);
      match e
      case Change(home, newState) =>
        ChangeAccounted(codec, passcode, p, Changes(before), Pushed(home, newState));
      case TaskRuns =>
        assert Changes(before) + [] == Changes(before);
        if p.waiting != [] {
          TaskAccounted(codec, passcode, p, Changes(before));
        }
    }
  }
}
