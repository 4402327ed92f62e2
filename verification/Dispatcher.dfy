/** The packet dispatcher shared by all transports (dispatcher.py). */
module Dispatcher {
  import opened Bytes
  import opened Packet
  import opened Exposure

  // ── The state-change subscription ─────────────────────────────────────────

  /** The dispatcher's view of its client, and of its listeners on the event bus. */
  datatype Client = Client(connected: bool, unsub: Option<nat>, live: set<nat>, listens: nat, removals: nat)

  const NO_CLIENT := Client(false, None, {}, 0, 0)

  function Subscribe(c: Client): Client
  {
    if c.unsub.Some? then c
    else c.(unsub := Some(c.listens), live := c.live + {c.listens}, listens := c.listens + 1)
  }

  /** if self._state_unsub: self._state_unsub(); self._state_unsub = None */
  function Unsubscribe(c: Client): Client
  {
    if c.unsub.None? then c
    else c.(unsub := None, live := c.live - {c.unsub.value}, removals := c.removals + 1)
  }

  function OnConnected(c: Client): Client
  {
    if c.connected then c else Subscribe(c.(connected := true))
  }

  function OnDisconnected(c: Client): Client
  {
    if !c.connected then c else Unsubscribe(c.(connected := false))
  }

  /** What reaches the subscription: the two client signals, and UsbSerialServer.stop. */
  datatype Signal = Connected | Disconnected | UsbStop

  function OnSignal(c: Client, s: Signal): Client
  {
    match s
    case Connected => OnConnected(c)
    case Disconnected => OnDisconnected(c)
    case UsbStop => Unsubscribe(c)
  }

  function AfterSignals(signals: seq<Signal>): Client
  {
    if signals == [] then NO_CLIENT
    else OnSignal(AfterSignals(signals[..|signals| - 1]), signals[|signals| - 1])
  }

  /** At most one live listener, all others removed, and none without a connected client. */
  predicate Safe(c: Client)
  {
    c.live == (if c.unsub.Some? then {c.unsub.value} else {}) &&
    c.listens == c.removals + |c.live| &&
    (c.unsub.Some? ==> c.connected && c.unsub.value < c.listens)
  }

  /** A listener is live exactly while a client is connected. */
  predicate Synced(c: Client)
  {
    c.connected <==> c.live != {}
  }

  lemma {:induction false} SubscriptionSafety(signals: seq<Signal>)
    ensures var c := AfterSignals(signals);
            Safe(c) && |c.live| <= 1 && 0 <= c.listens - c.removals <= 1 && (c.live != {} ==> c.connected)
  {
    if signals == [] {
    } else {
      SubscriptionSafety(signals[..|signals| - 1]);
    }
  }

  lemma ClientSignalsKeep(c: Client)
    requires Safe(c) && Synced(c)
    ensures Safe(OnConnected(c)) && Synced(OnConnected(c)) && OnConnected(c).connected
    ensures Safe(OnDisconnected(c)) && Synced(OnDisconnected(c)) && !OnDisconnected(c).connected
  {
  }

  /** Signal i was a USB stop that found a client connected, and no disconnect has been signalled since. */
  predicate StopAt(signals: seq<Signal>, i: int)
  {
    0 <= i < |signals| && signals[i] == UsbStop && AfterSignals(signals[..i]).connected &&
    forall j :: i < j < |signals| ==> signals[j] != Disconnected
  }

  predicate StopOutstanding(signals: seq<Signal>)
  {
    exists i :: 0 <= i < |signals| && StopAt(signals, i)
  }

  /** Listener and client flag part company exactly between such a stop and the next disconnect. */
  lemma {:induction false} SubscriptionSynced(signals: seq<Signal>)
    ensures Synced(AfterSignals(signals)) <==> !StopOutstanding(signals)
    ensures StopOutstanding(signals) ==> AfterSignals(signals).connected && AfterSignals(signals).live == {}
  {
    if signals == [] {
    } else {
      var n := |signals| - 1;
      SubscriptionSynced(signals[..n]);
      SubscriptionSafety(signals[..n]);
      StopOutstandingStep(signals);
    }
  }

  lemma StopOutstandingStep(signals: seq<Signal>)
    requires signals != []
    ensures var n := |signals| - 1;
            StopOutstanding(signals) <==>
              (signals[n] == UsbStop && AfterSignals(signals[..n]).connected) ||
              (signals[n] != Disconnected && StopOutstanding(signals[..n]))
  {
    var n := |signals| - 1;
    StopAtLast(signals);
    if i :| StopAt(signals, i) {
      if i < n {
        StopAtEarlier(signals, i);
      }
    }
    if i :| StopAt(signals[..n], i) {
      StopAtEarlier(signals, i);
    }
  }

  lemma StopAtLast(signals: seq<Signal>)
    requires signals != []
    ensures var n := |signals| - 1;
            StopAt(signals, n) <==> signals[n] == UsbStop && AfterSignals(signals[..n]).connected
  {
  }

  lemma StopAtEarlier(signals: seq<Signal>, i: int)
    requires 0 <= i < |signals| - 1
    ensures var n := |signals| - 1;
            StopAt(signals, i) <==> signals[n] != Disconnected && StopAt(signals[..n], i)
  {
    var n := |signals| - 1;
    assert signals[..n][..i] == signals[..i];
    if StopAt(signals[..n], i) && signals[n] != Disconnected {
      forall j | i < j < |signals|
        ensures signals[j] != Disconnected
      {
        assert j < n ==> signals[..n][j] == signals[j];
      }
    }
  }

  // ── Replies ───────────────────────────────────────────────────────────────

  const ACK := 0x01
  const NACK := 0x02
  const REQ_AREAS := 0x10
  const ANS_AREAS := 0x11
  const REQ_DEVICES := 0x12
  const ANS_DEVICES := 0x13
  const REQ_DASHBOARDS := 0x14
  const ANS_DASHBOARDS := 0x15
  const REQ_STATE := 0x20
  const ANS_STATE := 0x21
  const CALL_SERVICE := 0x22
  const ANS_CALL_SERVICE := 0x23
  const STATE_CHANGE := 0x30

  /** json.dumps and json.loads, the latter with None for text that does not parse. */
  datatype Codec = Codec(dumps: Json -> bytes, loads: bytes -> Option<Json>)

  /** An outgoing packet: its command and, unless empty, its payload object. */
  datatype Reply = Reply(cmd: nat, payload: Option<Json>)

  datatype Call = Call(domain: Json, service: Json, data: Json)

  datatype ServiceOutcome = Succeeded | TimedOut | Failed(message: string)

  function PayloadBytes(codec: Codec, r: Reply): bytes
  {
    if r.payload.None? then [] else codec.dumps(r.payload.value)
  }

  function EncodeReply(codec: Codec, passcode: nat, r: Reply): EncodeResult
  {
    EncodePacket(passcode, r.cmd, PayloadBytes(codec, r), 0)
  }

  function Error(text: string): Option<Json>
  {
    Some(Obj(map["error" := Str(text)]))
  }

  /** What one handled packet does: packets sent, services called, and whether it ended in an exception. */
  datatype Effect = Effect(sent: seq<bytes>, calls: seq<Call>, raised: bool)

  /** What a command is answered with, were every answer to fit a packet. */
  datatype Plan = Plan(replies: seq<Reply>, calls: seq<Call>, crash: bool)

  datatype Emission = Emission(sent: seq<bytes>, raised: bool)

  /** Replies sent one after another until one does not fit a packet. */
  function Emit(codec: Codec, passcode: nat, replies: seq<Reply>): (e: Emission)
    ensures |e.sent| <= |replies|
  {
    if replies == [] then Emission([], false)
    else
      match EncodeReply(codec, passcode, replies[0])
      case Refused(_) => Emission([], true)
      case Encoded(p) =>
        var rest := Emit(codec, passcode, replies[1..]);
        Emission([p] + rest.sent, rest.raised)
  }

  /** A service is called once the acknowledgement is out, before the answer is sent. */
  function Execute(codec: Codec, passcode: nat, plan: Plan): Effect
  {
    var e := Emit(codec, passcode, plan.replies);
    Effect(e.sent, if e.sent != [] then plan.calls else [], e.raised || plan.crash)
  }

  function Get(payload: map<string, Json>, key: string, default: Json): Json
  {
    if key in payload then payload[key] else default
  }

  predicate Truthy(j: Json)
  {
    match j
    case Null => false
    case Bool(b) => b
    case Num(n) => n != 0.0
    case Str(s) => s != []
    case Arr(items) => items != []
    case Obj(fields) => fields != map[]
  }

  function HexDigit(n: nat): char
    requires n < 16
  {
    "0123456789ABCDEF"[n]
  }

  function AreasJson(areas: seq<Area>): Json
  {
    Arr(seq(|areas|, i requires 0 <= i < |areas| =>
      Obj(map["id" := Str(areas[i].id), "name" := Str(areas[i].name), "icon" := OrNull(areas[i].icon)])))
  }

  function Strings(s: seq<string>): Json
  {
    Arr(seq(|s|, i requires 0 <= i < |s| => Str(s[i])))
  }

  function DevicesJson(ds: seq<Device>): Json
  {
    Arr(seq(|ds|, i requires 0 <= i < |ds| =>
      Obj(map["id" := Str(ds[i].id), "entity_id" := Str(ds[i].id), "name" := ds[i].name,
              "domain" := Str(ds[i].domain), "area_id" := ds[i].area, "state" := Str(ds[i].value),
              "attrs" := Obj(ds[i].attrs), "labels" := Strings(ds[i].labels)])))
  }

  function DashboardsJson(ds: seq<Dashboard>): Json
  {
    Arr(seq(|ds|, i requires 0 <= i < |ds| =>
      Obj(map["id" := Str(ds[i].id), "url_path" := Str(ds[i].urlPath), "title" := Str(ds[i].title),
              "views" := Arr([Obj(map["id" := Str(ds[i].id), "path" := Str(ds[i].urlPath),
                                      "title" := Str(ds[i].title), "entity_ids" := Strings(ds[i].entityIds)])])])))
  }

  function StateJson(s: EntityState): Json
  {
    Obj(map["entity_id" := Str(s.entityId), "state" := Str(s.value),
            "attributes" := Obj(s.attributes), "last_changed" := OrNull(s.lastChanged)])
  }

  function StatePlan(home: Home, id: string): Reply
  {
    if id !in home.states then Reply(NACK, Error("entity '" + id + "' not found"))
    else if !IsExposed(home, id) then Reply(NACK, Error("entity '" + id + "' not exposed"))
    else Reply(ANS_STATE, Some(StateJson(home.states[id])))
  }

  function ServiceReply(outcome: ServiceOutcome): Reply
  {
    Reply(ANS_CALL_SERVICE, Some(Obj(match outcome
      case Succeeded => map["success" := Bool(true)]
      case TimedOut => map["success" := Bool(false), "error" := Str("service call timeout")]
      case Failed(message) => map["success" := Bool(false), "error" := Str(message)])))
  }

  /** The payload of a request must be an object, an entity id a string, and so on. */
  predicate WellTyped(cmd: nat, payload: Json)
  {
    (cmd == REQ_DEVICES || cmd == REQ_STATE || cmd == CALL_SERVICE ==> payload.Obj?) &&
    (cmd == REQ_STATE ==> Get(payload.fields, "entity_id", Str("")).Str?) &&
    (cmd == CALL_SERVICE && Truthy(Get(payload.fields, "entity_id", Null)) ==>
      Get(payload.fields, "data", Obj(map[])).Obj?)
  }

  predicate IsRequest(cmd: nat)
  {
    cmd == REQ_AREAS || cmd == REQ_DEVICES || cmd == REQ_DASHBOARDS || cmd == REQ_STATE || cmd == CALL_SERVICE
  }

  function CallOf(fields: map<string, Json>): Call
    requires WellTyped(CALL_SERVICE, Obj(fields))
  {
    var entity := Get(fields, "entity_id", Null);
    var data := Get(fields, "data", Obj(map[]));
    Call(Get(fields, "domain", Str("")), Get(fields, "service", Str("")),
         if Truthy(entity) then Obj(data.fields["entity_id" := entity]) else data)
  }

  function Answer(home: Home, outcome: ServiceOutcome, cmd: nat, payload: Json): Reply
    requires IsRequest(cmd) && WellTyped(cmd, payload)
  {
    if cmd == REQ_AREAS then Reply(ANS_AREAS, Some(AreasJson(home.areas)))
    else if cmd == REQ_DEVICES then
      Reply(ANS_DEVICES, Some(DevicesJson(Devices(home, Get(payload.fields, "area_id", Null)))))
    else if cmd == REQ_DASHBOARDS then
      Reply(ANS_DASHBOARDS, Some(DashboardsJson(Dashboards(home, DashLabels(home.labels)))))
    else if cmd == REQ_STATE then StatePlan(home, Get(payload.fields, "entity_id", Str("")).s)
    else ServiceReply(outcome)
  }

  function UnknownCommand(cmd: nat): Reply
    requires cmd < 256
  {
    Reply(NACK, Error("unknown command 0x" + [HexDigit(cmd / 16), HexDigit(cmd % 16)]))
  }

  function PlanFor(home: Home, outcome: ServiceOutcome, cmd: nat, payload: Json): Plan
    requires cmd < 256
  {
    if cmd == ACK then Plan([], [], false)
    else if !IsRequest(cmd) then Plan([UnknownCommand(cmd)], [], false)
    else if !WellTyped(cmd, payload) then Plan([Reply(ACK, None)], [], true)
    else
      Plan([Reply(ACK, None), Answer(home, outcome, cmd, payload)],
           if cmd == CALL_SERVICE then [CallOf(payload.fields)] else [], false)
  }

  /** json.loads of the payload; {} when it is empty or does not parse. */
  function Parse(codec: Codec, payload: bytes): Json
  {
    if payload == [] then Obj(map[])
    else
      match codec.loads(payload)
      case None => Obj(map[])
      case Some(j) => j
  }

  const WRONG_PASSCODE := Reply(NACK, Error("wrong passcode"))

  function Handle(codec: Codec, passcode: nat, home: Home, outcome: ServiceOutcome, raw: bytes): Effect
  {
    match DecodePacket(raw)
    case None => Effect([], [], false)
    case Some(m) =>
      if m.passcode != passcode then Execute(codec, passcode, Plan([WRONG_PASSCODE], [], false))
      else Execute(codec, passcode, PlanFor(home, outcome, m.cmd, Parse(codec, m.payload)))
  }

  /** What a state change is told as: nothing unless its entity is exposed. */
  function Pushed(home: Home, newState: Option<EntityState>): seq<Reply>
  {
    if newState.Some? && IsExposed(home, newState.value.entityId)
    then [Reply(STATE_CHANGE, Some(StateJson(newState.value)))]
    else []
  }

  // ── The dispatcher ────────────────────────────────────────────────────────

  class PacketDispatcher {
    const codec: Codec
    const passcode: nat
    var clientConnected: bool
    var stateUnsub: Option<nat>

    // The event bus as far as this dispatcher is concerned.
    var live: set<nat>
    var listens: nat
    var removals: nat

    // What was handed to _send_raw, the services called, and the pushes not yet sent by their tasks.
    var outbox: seq<bytes>
    var calls: seq<Call>
    var pushes: seq<Reply>

    function AsClient(): Client
      reads this
    {
      Client(clientConnected, stateUnsub, live, listens, removals)
    }

    constructor (codec: Codec, passcode: nat)
      ensures AsClient() == NO_CLIENT && outbox == [] && calls == [] && pushes == []
      ensures this.codec == codec && this.passcode == passcode
    {
      this.codec, this.passcode := codec, passcode;
      clientConnected, stateUnsub := false, None;
      live, listens, removals := {}, 0, 0;
      outbox, calls, pushes := [], [], [];
    }

    method OnBleClientConnected()
      modifies this
      ensures AsClient() == OnConnected(old(AsClient()))
      ensures outbox == old(outbox) && calls == old(calls) && pushes == old(pushes)
    {
      if clientConnected {
        return;
      }
      clientConnected := true;
      SubscribeStateChanges();
    }

    method SubscribeStateChanges()
      modifies this
      ensures AsClient() == Subscribe(old(AsClient()))
      ensures outbox == old(outbox) && calls == old(calls) && pushes == old(pushes)
    {
      if stateUnsub.Some? {
        return;
      }
      stateUnsub := Some(listens);
      live := live + {listens};
      listens := listens + 1;
    }

    method OnBleClientDisconnected()
      modifies this
      ensures AsClient() == OnDisconnected(old(AsClient()))
      ensures outbox == old(outbox) && calls == old(calls) && pushes == old(pushes)
    {
      if !clientConnected {
        return;
      }
      clientConnected := false;
      UnsubscribeStateChanges();
    }

    method UnsubscribeStateChanges()
      modifies this
      ensures AsClient() == Unsubscribe(old(AsClient()))
      ensures outbox == old(outbox) && calls == old(calls) && pushes == old(pushes)
    {
      if stateUnsub.Some? {
        live := live - {stateUnsub.value};
        removals := removals + 1;
        stateUnsub := None;
      }
    }

    /** The result says whether the encoder raised. */
    method SendPacket(r: Reply) returns (raised: bool)
      modifies this`outbox
      ensures var e := Emit(codec, passcode, [r]); outbox == old(outbox) + e.sent && raised == e.raised
    {
      match EncodeReply(codec, passcode, r)
      case Refused(_) =>
        raised := true;
      case Encoded(p) =>
        outbox := outbox + [p];
        raised := false;
    }

    method HandleIncomingPacket(home: Home, outcome: ServiceOutcome, raw: bytes) returns (raised: bool)
      modifies this`outbox, this`calls
      ensures var e := Handle(codec, passcode, home, outcome, raw);
              outbox == old(outbox) + e.sent && calls == old(calls) + e.calls && raised == e.raised
    {
      var result := DecodePacket(raw);
      if result.None? {
        return false;
      }
      var m := result.value;
      if m.passcode != passcode {
        raised := SendPacket(WRONG_PASSCODE);
        return;
      }
      raised := Dispatch(home, outcome, m.cmd, m.payload);
    }

    method Dispatch(home: Home, outcome: ServiceOutcome, cmd: nat, payload: bytes) returns (raised: bool)
      requires cmd < 256
      modifies this`outbox, this`calls
      ensures var e := Execute(codec, passcode, PlanFor(home, outcome, cmd, Parse(codec, payload)));
              outbox == old(outbox) + e.sent && calls == old(calls) + e.calls && raised == e.raised
    {
      var request := Parse(codec, payload);
      OtherEffect(codec, passcode, home, outcome, cmd, request);
      if cmd == ACK {
        return false;
      }
      if !IsRequest(cmd) {
        raised := SendPacket(UnknownCommand(cmd));
        return;
      }
      raised := SendPacket(Reply(ACK, None));
      RequestEffect(codec, passcode, home, outcome, cmd, request);
      if raised {
        return;
      }
      raised := RunHandler(home, outcome, cmd, request);
    }

    method RunHandler(home: Home, outcome: ServiceOutcome, cmd: nat, request: Json) returns (raised: bool)
      requires IsRequest(cmd)
      modifies this`outbox, this`calls
      ensures !WellTyped(cmd, request) ==> raised && outbox == old(outbox) && calls == old(calls)
      ensures WellTyped(cmd, request) ==>
        var e := Emit(codec, passcode, [Answer(home, outcome, cmd, request)]);
        outbox == old(outbox) + e.sent && raised == e.raised &&
        calls == old(calls) + if cmd == CALL_SERVICE then [CallOf(request.fields)] else []
    {
      if cmd == REQ_AREAS {
        raised := SendPacket(Reply(ANS_AREAS, Some(AreasJson(home.areas))));
      } else if cmd == REQ_DEVICES {
        if !request.Obj? {
          return true;
        }
        var entities := HandleReqDevices(home, Get(request.fields, "area_id", Null));
        raised := SendPacket(Reply(ANS_DEVICES, Some(DevicesJson(entities))));
      } else if cmd == REQ_DASHBOARDS {
        var dashboards := HandleReqDashboards(home);
        raised := SendPacket(Reply(ANS_DASHBOARDS, Some(DashboardsJson(dashboards))));
      } else if cmd == REQ_STATE {
        if !request.Obj? || !Get(request.fields, "entity_id", Str("")).Str? {
          return true;
        }
        raised := SendPacket(StatePlan(home, Get(request.fields, "entity_id", Str("")).s));
      } else {
        if !request.Obj? {
          return true;
        }
        var data := Get(request.fields, "data", Obj(map[]));
        var entity := Get(request.fields, "entity_id", Null);
        if Truthy(entity) {
          if !data.Obj? {
            return true;
          }
          data := Obj(data.fields["entity_id" := entity]);
        }
        calls := calls + [Call(Get(request.fields, "domain", Str("")), Get(request.fields, "service", Str("")), data)];
        raised := SendPacket(ServiceReply(outcome));
      }
    }

    /** state_changed: a task that pushes the new state is scheduled. */
    method OnStateChanged(home: Home, newState: Option<EntityState>)
      modifies this`pushes
      ensures pushes == old(pushes) + Pushed(home, newState)
    {
      if newState.None? || !IsExposed(home, newState.value.entityId) {
        return;
      }
      pushes := pushes + [Reply(STATE_CHANGE, Some(StateJson(newState.value)))];
    }

    /** The oldest such task runs. */
    method RunPush() returns (raised: bool)
      requires pushes != []
      modifies this`outbox, this`pushes
      ensures var e := Emit(codec, passcode, [old(pushes)[0]]);
              outbox == old(outbox) + e.sent && raised == e.raised && pushes == old(pushes)[1..]
    {
      var next := pushes[0];
      pushes := pushes[1..];
      raised := SendPacket(next);
    }
  }

  lemma EmitTwo(codec: Codec, passcode: nat, first: Reply, second: Reply)
    requires EncodeReply(codec, passcode, first).Encoded?
    ensures var one, two := Emit(codec, passcode, [first]), Emit(codec, passcode, [second]);
            Emit(codec, passcode, [first, second]) == Emission(one.sent + two.sent, two.raised) && !one.raised
  {
    assert [first, second][1..] == [second];
  }

  lemma OtherEffect(codec: Codec, passcode: nat, home: Home, outcome: ServiceOutcome, cmd: nat, payload: Json)
    requires cmd < 256
    ensures cmd == ACK ==> Execute(codec, passcode, PlanFor(home, outcome, cmd, payload)) == Effect([], [], false)
    ensures cmd != ACK && !IsRequest(cmd) ==>
              var e := Emit(codec, passcode, [UnknownCommand(cmd)]);
              Execute(codec, passcode, PlanFor(home, outcome, cmd, payload)) == Effect(e.sent, [], e.raised)
  {
  }

  /** A request is carried out as its acknowledgement followed, if it is well-typed, by its answer. */
  lemma RequestEffect(codec: Codec, passcode: nat, home: Home, outcome: ServiceOutcome, cmd: nat, payload: Json)
    requires cmd < 256 && IsRequest(cmd)
    ensures var one := Emit(codec, passcode, [Reply(ACK, None)]);
            Execute(codec, passcode, PlanFor(home, outcome, cmd, payload)) ==
              if one.raised then Effect([], [], true)
              else if !WellTyped(cmd, payload) then Effect(one.sent, [], true)
              else
                var two := Emit(codec, passcode, [Answer(home, outcome, cmd, payload)]);
                Effect(one.sent + two.sent, if cmd == CALL_SERVICE then [CallOf(payload.fields)] else [], two.raised)
    ensures var one := Emit(codec, passcode, [Reply(ACK, None)]); one.raised <==> one.sent == []
  {
    var plan := PlanFor(home, outcome, cmd, payload);
    if EncodeReply(codec, passcode, Reply(ACK, None)).Refused? {
      EmitStops(codec, passcode, plan.replies);
    } else if WellTyped(cmd, payload) {
      EmitTwo(codec, passcode, Reply(ACK, None), Answer(home, outcome, cmd, payload));
    }
  }

  lemma EmitStops(codec: Codec, passcode: nat, replies: seq<Reply>)
    requires replies != [] && EncodeReply(codec, passcode, replies[0]).Refused?
    ensures Emit(codec, passcode, replies) == Emission([], true)
  {
  }
}
