/**
 * What the packets that go out say (dispatcher.py), told from Home Assistant's registries: the
 * answer to each request, the service a client calls, and the changes pushed to it.
 */
module ReplyContents {
  import opened Bytes
  import opened Packet
  import opened Sorting
  import opened Exposure
  import opened Dispatcher
  import opened Replies

  // ── JSON ──────────────────────────────────────────────────────────────────

  /** The packet is accepted under this passcode as the given command, with j as its payload. */
  predicate SaysJson(codec: Codec, passcode: nat, packet: bytes, cmd: nat, j: Json)
  {
    DecodePacket(packet) == Some(Message(passcode, cmd, codec.dumps(j)))
  }

  predicate HasKeys(j: Json, keys: set<string>)
  {
    j.Obj? && j.fields.Keys == keys
  }

  /** j gives the reason for a NACK and nothing else. */
  predicate SaysError(j: Json, text: string)
  {
    HasKeys(j, {"error"}) && j.fields["error"] == Str(text)
  }

  /** j is an entity's state with all its attributes. */
  predicate TellsState(j: Json, s: EntityState)
  {
    HasKeys(j, {"entity_id", "state", "attributes", "last_changed"}) &&
    j.fields["entity_id"] == Str(s.entityId) && j.fields["state"] == Str(s.value) &&
    j.fields["attributes"] == Obj(s.attributes) &&
    j.fields["last_changed"] == if s.lastChanged.Some? then Str(s.lastChanged.value) else Null
  }

  lemma StateTold(s: EntityState)
    ensures forall j :: TellsState(j, s) <==> j == StateJson(s)
  {
  }

  predicate TellsArea(j: Json, area: Area)
  {
    HasKeys(j, {"id", "name", "icon"}) && j.fields["id"] == Str(area.id) && j.fields["name"] == Str(area.name) &&
    j.fields["icon"] == if area.icon.Some? then Str(area.icon.value) else Null
  }

  predicate TellsAreas(j: Json, areas: seq<Area>)
  {
    j.Arr? && |j.items| == |areas| && forall i :: 0 <= i < |areas| ==> TellsArea(j.items[i], areas[i])
  }

  predicate TellsStrings(j: Json, texts: seq<string>)
  {
    j.Arr? && |j.items| == |texts| && forall i :: 0 <= i < |texts| ==> j.items[i] == Str(texts[i])
  }

  predicate TellsDevice(j: Json, d: Device)
  {
    HasKeys(j, {"id", "entity_id", "name", "domain", "area_id", "state", "attrs", "labels"}) &&
    j.fields["id"] == j.fields["entity_id"] == Str(d.id) && j.fields["name"] == d.name &&
    j.fields["domain"] == Str(d.domain) && j.fields["area_id"] == d.area && j.fields["state"] == Str(d.value) &&
    j.fields["attrs"] == Obj(d.attrs) && TellsStrings(j.fields["labels"], d.labels)
  }

  /** j lists these devices one by one. */
  predicate TellsEachDevice(j: Json, ds: seq<Device>)
  {
    j.Arr? && |j.items| == |ds| && forall i :: 0 <= i < |ds| ==> TellsDevice(j.items[i], ds[i])
  }

  /** j lists the entities of an area, null standing for any: the marked ones that have a state. */
  ghost predicate TellsDevices(home: Home, area: Json, j: Json)
  {
    exists ds :: ListsDevices(home, area, ds) && TellsEachDevice(j, ds)
  }

  ghost predicate ListsDevices(home: Home, area: Json, ds: seq<Device>)
  {
    Distinct(ds) && InStateOrder(home, ds) && (forall d <- ds :: Truthful(home, d)) &&
    forall id :: HasId(ds, id) <==> id in home.states && Marked(home, id) && InArea(home, id, area)
  }

  predicate TellsDashboard(j: Json, d: Dashboard)
  {
    HasKeys(j, {"id", "url_path", "title", "views"}) &&
    j.fields["id"] == Str(d.id) && j.fields["url_path"] == Str(d.urlPath) && j.fields["title"] == Str(d.title) &&
    j.fields["views"].Arr? && |j.fields["views"].items| == 1 && TellsView(j.fields["views"].items[0], d)
  }

  predicate TellsView(j: Json, d: Dashboard)
  {
    HasKeys(j, {"id", "path", "title", "entity_ids"}) &&
    j.fields["id"] == Str(d.id) && j.fields["path"] == Str(d.urlPath) && j.fields["title"] == Str(d.title) &&
    TellsStrings(j.fields["entity_ids"], d.entityIds)
  }

  predicate TellsEachDashboard(j: Json, ds: seq<Dashboard>)
  {
    j.Arr? && |j.items| == |ds| && forall i :: 0 <= i < |ds| ==> TellsDashboard(j.items[i], ds[i])
  }

  /** j lists the dashboards: one for each DASH_ label, in the order of their titles. */
  ghost predicate TellsDashboards(home: Home, j: Json)
  {
    exists ds :: AllDashboards(home, ds) && TellsEachDashboard(j, ds)
  }

  predicate TellsOutcome(j: Json, outcome: ServiceOutcome)
  {
    match outcome
    case Succeeded => HasKeys(j, {"success"}) && j.fields["success"] == Bool(true)
    case TimedOut => SaysFailure(j, "service call timeout")
    case Failed(message) => SaysFailure(j, message)
  }

  predicate SaysFailure(j: Json, text: string)
  {
    HasKeys(j, {"success", "error"}) && j.fields["success"] == Bool(false) && j.fields["error"] == Str(text)
  }

  // ── The answers ───────────────────────────────────────────────────────────

  /** The value of a field of a request, or what stands for it when it is missing. */
  function Field(payload: Json, key: string, missing: Json): Json
  {
    if payload.Obj? && key in payload.fields then payload.fields[key] else missing
  }

  /** Command and payload that answer a request. */
  ghost predicate Answers(home: Home, outcome: ServiceOutcome, request: nat, payload: Json, cmd: nat, j: Json)
  {
    (request == 0x10 ==> cmd == 0x11 && TellsAreas(j, home.areas)) &&
    (request == 0x12 ==> cmd == 0x13 && TellsDevices(home, Field(payload, "area_id", Null), j)) &&
    (request == 0x14 ==> cmd == 0x15 && TellsDashboards(home, j)) &&
    (request == 0x20 ==> AnswersStateRequest(home, Field(payload, "entity_id", Str("")), cmd, j)) &&
    (request == 0x22 ==> cmd == 0x23 && TellsOutcome(j, outcome))
  }

  predicate AnswersStateRequest(home: Home, entity: Json, cmd: nat, j: Json)
  {
    entity.Str? &&
    if entity.s !in home.states then cmd == 0x02 && SaysError(j, "entity '" + entity.s + "' not found")
    else if !Marked(home, entity.s) then cmd == 0x02 && SaysError(j, "entity '" + entity.s + "' not exposed")
    else cmd == 0x21 && TellsState(j, home.states[entity.s])
  }

  lemma StringsTold(texts: seq<string>)
    ensures TellsStrings(Strings(texts), texts)
  {
  }

  lemma DeviceTold(ds: seq<Device>, i: nat)
    requires i < |ds|
    ensures TellsDevice(DevicesJson(ds).items[i], ds[i])
  {
    StringsTold(ds[i].labels);
  }

  lemma EachDeviceTold(ds: seq<Device>)
    ensures TellsEachDevice(DevicesJson(ds), ds)
  {
    forall i | 0 <= i < |ds|
      ensures TellsDevice(DevicesJson(ds).items[i], ds[i])
    {
      DeviceTold(ds, i);
    }
  }

  lemma DevicesTold(home: Home, area: Json)
    ensures TellsDevices(home, area, DevicesJson(Devices(home, area)))
  {
    DevicesTruthful(home, area);
    EachDeviceTold(Devices(home, area));
  }

  lemma DashboardTold(ds: seq<Dashboard>, i: nat)
    requires i < |ds|
    ensures TellsDashboard(DashboardsJson(ds).items[i], ds[i])
  {
    StringsTold(ds[i].entityIds);
  }

  lemma EachDashboardTold(ds: seq<Dashboard>)
    ensures TellsEachDashboard(DashboardsJson(ds), ds)
  {
    forall i | 0 <= i < |ds|
      ensures TellsDashboard(DashboardsJson(ds).items[i], ds[i])
    {
      DashboardTold(ds, i);
    }
  }

  lemma DashboardsTold(home: Home)
    ensures TellsDashboards(home, DashboardsJson(Dashboards(home, DashLabels(home.labels))))
  {
    DashboardsOrdered(home);
    EachDashboardTold(Dashboards(home, DashLabels(home.labels)));
  }

  lemma StateAnswered(home: Home, entity: Json)
    requires entity.Str?
    ensures var r := StatePlan(home, entity.s);
            r.payload.Some? && AnswersStateRequest(home, entity, r.cmd, r.payload.value)
  {
    ExposedIff(home, entity.s);
    if AnswersState(home, entity.s) {
      StateTold(home.states[entity.s]);
    }
  }

  lemma AreasTold(areas: seq<Area>)
    ensures TellsAreas(AreasJson(areas), areas)
  {
  }

  lemma OutcomeTold(outcome: ServiceOutcome)
    ensures TellsOutcome(ServiceReply(outcome).payload.value, outcome)
  {
  }

  lemma AnswerTells(home: Home, outcome: ServiceOutcome, cmd: nat, payload: Json)
    requires IsRequest(cmd) && WellTyped(cmd, payload)
    ensures var r := Answer(home, outcome, cmd, payload);
            r.payload.Some? && Answers(home, outcome, cmd, payload, r.cmd, r.payload.value)
  {
    if cmd == REQ_AREAS {
      AreasTold(home.areas);
    } else if cmd == REQ_DEVICES {
      DevicesTold(home, Field(payload, "area_id", Null));
    } else if cmd == REQ_DASHBOARDS {
      DashboardsTold(home);
    } else if cmd == REQ_STATE {
      StateAnswered(home, Field(payload, "entity_id", Str("")));
    } else {
      OutcomeTold(outcome);
    }
  }

  // ── What a packet brings about ────────────────────────────────────────────

  /** What a payload means: an empty object if it is empty or does not parse. */
  function Meaning(codec: Codec, payload: bytes): Json
  {
    if payload == [] || codec.loads(payload).None? then Obj(map[]) else codec.loads(payload).value
  }

  lemma MeaningParsed(codec: Codec, payload: bytes)
    ensures Parse(codec, payload) == Meaning(codec, payload)
  {
  }

  /** The packet is a request under this passcode. */
  predicate IsRequestPacket(passcode: nat, raw: bytes)
  {
    var m := DecodePacket(raw);
    m.Some? && m.value.passcode == passcode && m.value.cmd in {0x10, 0x12, 0x14, 0x20, 0x22}
  }

  /** Which packets are requests, which are met with silence, and which are turned away. */
  lemma KindIs(passcode: nat, raw: bytes)
    ensures var m, kind := DecodePacket(raw), KindOf(passcode, raw);
            (kind.Request? <==> IsRequestPacket(passcode, raw)) &&
            (kind.Request? ==> kind.cmd == m.value.cmd) &&
            (kind.Silent? <==> m.None? || (m.value.passcode == passcode && m.value.cmd == 0x01))
  {
  }

  ghost predicate SaysAnswer(codec: Codec, passcode: nat, home: Home, outcome: ServiceOutcome, m: Message,
                             packet: bytes)
  {
    exists cmd, j ::
      SaysJson(codec, passcode, packet, cmd, j) && Answers(home, outcome, m.cmd, Meaning(codec, m.payload), cmd, j)
  }

  /**
   * A request is acknowledged, and unless handling it raises it is then answered with what it asked
   * for, as Home Assistant has it.
   */
  lemma RequestAnswered(codec: Codec, passcode: nat, home: Home, outcome: ServiceOutcome, raw: bytes)
    requires passcode < 0x1_0000_0000 && IsRequestPacket(passcode, raw)
    ensures var e := Handle(codec, passcode, home, outcome, raw);
            |e.sent| == (if e.raised then 1 else 2) &&
            DecodePacket(e.sent[0]) == Some(Message(passcode, 0x01, [])) &&
            (!e.raised ==> SaysAnswer(codec, passcode, home, outcome, DecodePacket(raw).value, e.sent[1]))
  {
    var m := DecodePacket(raw).value;
    var payload := Meaning(codec, m.payload);
    KindIs(passcode, raw);
    MeaningParsed(codec, m.payload);
    RequestReplies(codec, passcode, home, outcome, raw);
    RequestEffect(codec, passcode, home, outcome, m.cmd, payload);
    EmitOne(codec, passcode, Reply(ACK, None));
    if WellTyped(m.cmd, payload) {
      AnswerEmitted(codec, passcode, home, outcome, m, payload);
    }
  }

  lemma AnswerEmitted(codec: Codec, passcode: nat, home: Home, outcome: ServiceOutcome, m: Message, payload: Json)
    requires passcode < 0x1_0000_0000 && IsRequest(m.cmd) && WellTyped(m.cmd, payload)
    requires payload == Meaning(codec, m.payload)
    ensures var e := Emit(codec, passcode, [Answer(home, outcome, m.cmd, payload)]);
            !e.raised ==> |e.sent| == 1 && SaysAnswer(codec, passcode, home, outcome, m, e.sent[0])
  {
    var answer := Answer(home, outcome, m.cmd, payload);
    AnswerCommand(home, outcome, m.cmd, payload);
    EmitOne(codec, passcode, answer);
    AnswerTells(home, outcome, m.cmd, payload);
    if Fits(codec, answer) {
      var p := Emit(codec, passcode, [answer]).sent[0];
      assert SaysJson(codec, passcode, p, answer.cmd, answer.payload.value);
    }
  }

  /** c is the upper-case hexadecimal digit for n. */
  predicate IsHexDigit(c: char, n: nat)
  {
    c as int == if n < 10 then '0' as int + n else 'A' as int + (n - 10)
  }

  predicate IsUnknownCommand(text: string, cmd: nat)
  {
    exists hi, lo :: text == "unknown command 0x" + [hi, lo] && IsHexDigit(hi, cmd / 16) && IsHexDigit(lo, cmd % 16)
  }

  /** The packet is a NACK that gives this reason. */
  ghost predicate SaysNack(codec: Codec, passcode: nat, packet: bytes, text: string)
  {
    exists j :: SaysJson(codec, passcode, packet, 0x02, j) && SaysError(j, text)
  }

  /** Why a packet is turned away. */
  predicate IsReason(passcode: nat, m: Message, text: string)
  {
    if m.passcode != passcode then text == "wrong passcode" else IsUnknownCommand(text, m.cmd)
  }

  lemma RefusalText(passcode: nat, raw: bytes) returns (text: string)
    requires KindOf(passcode, raw) == Rejected
    ensures var r := Refusal(passcode, raw);
            r.cmd == 0x02 && r.payload.Some? && SaysError(r.payload.value, text)
    ensures IsReason(passcode, DecodePacket(raw).value, text)
  {
    var m := DecodePacket(raw).value;
    text := Refusal(passcode, raw).payload.value.fields["error"].s;
    if m.passcode == passcode {
      HexDigitIs(m.cmd / 16);
      HexDigitIs(m.cmd % 16);
    }
  }

  lemma NackEmitted(codec: Codec, passcode: nat, r: Reply, text: string)
    requires passcode < 0x1_0000_0000 && r.cmd == 0x02 && r.payload.Some? && SaysError(r.payload.value, text)
    ensures var e := Emit(codec, passcode, [r]);
            e.raised || (|e.sent| == 1 && SaysNack(codec, passcode, e.sent[0], text))
  {
    EmitOne(codec, passcode, r);
    if Fits(codec, r) {
      assert SaysJson(codec, passcode, Emit(codec, passcode, [r]).sent[0], 0x02, r.payload.value);
    }
  }

  /** A packet turned away earns a NACK that says why, unless that would not fit a packet. */
  lemma RejectionSays(codec: Codec, passcode: nat, home: Home, outcome: ServiceOutcome, raw: bytes)
    returns (text: string)
    requires passcode < 0x1_0000_0000 && KindOf(passcode, raw) == Rejected
    ensures IsReason(passcode, DecodePacket(raw).value, text)
    ensures var e := Handle(codec, passcode, home, outcome, raw);
            e.raised || (|e.sent| == 1 && SaysNack(codec, passcode, e.sent[0], text))
  {
    text := RefusalText(passcode, raw);
    NackEmitted(codec, passcode, Refusal(passcode, raw), text);
  }

  lemma HexDigitIs(n: nat)
    requires n < 16
    ensures IsHexDigit(HexDigit(n), n)
  {
  }

  // ── The service a client calls ────────────────────────────────────────────

  lemma TruthyIff(j: Json)
    ensures Truthy(j) <==>
            j != Null && j != Bool(false) && j != Num(0.0) && j != Str("") && j != Arr([]) && j != Obj(map[])
  {
  }

  /** An entity is named in the request. */
  predicate NamesEntity(payload: Json)
  {
    var entity := Field(payload, "entity_id", Null);
    entity != Null && entity != Bool(false) && entity != Num(0.0) && entity != Str("") && entity != Arr([]) &&
    entity != Obj(map[])
  }

  /** The request is an object, and data to put an entity into is one too. */
  predicate CanCall(payload: Json)
  {
    payload.Obj? && (NamesEntity(payload) ==> Field(payload, "data", Obj(map[])).Obj?)
  }

  /** The call is the one requested: its domain and service, and its data with the entity put in. */
  predicate IsCallFor(call: Call, payload: Json)
  {
    call.domain == Field(payload, "domain", Str("")) && call.service == Field(payload, "service", Str("")) &&
    var data := Field(payload, "data", Obj(map[]));
    if NamesEntity(payload) then data.Obj? && PutsEntity(call.data, data.fields, Field(payload, "entity_id", Null))
    else call.data == data
  }

  /** j is the given object with its entity_id set to entity. */
  predicate PutsEntity(j: Json, fields: map<string, Json>, entity: Json)
  {
    HasKeys(j, fields.Keys + {"entity_id"}) && j.fields["entity_id"] == entity &&
    forall k :: k in fields && k != "entity_id" ==> j.fields[k] == fields[k]
  }

  lemma CallFor(fields: map<string, Json>)
    ensures WellTyped(CALL_SERVICE, Obj(fields)) <==> CanCall(Obj(fields))
    ensures CanCall(Obj(fields)) ==> IsCallFor(CallOf(fields), Obj(fields))
  {
    TruthyIff(Get(fields, "entity_id", Null));
  }

  /**
   * A service is called for a CALL_SERVICE request under this passcode whose payload permits it and
   * for no other packet; then once, and it is the one the request names.
   */
  lemma ServiceCalled(codec: Codec, passcode: nat, home: Home, outcome: ServiceOutcome, raw: bytes)
    requires passcode < 0x1_0000_0000
    ensures var m, calls := DecodePacket(raw), Handle(codec, passcode, home, outcome, raw).calls;
            if m.Some? && m.value.passcode == passcode && m.value.cmd == 0x22 &&
               CanCall(Meaning(codec, m.value.payload))
            then |calls| == 1 && IsCallFor(calls[0], Meaning(codec, m.value.payload))
            else calls == []
  {
    KindIs(passcode, raw);
    match KindOf(passcode, raw)
    case Silent => SilentReplies(codec, passcode, home, outcome, raw);
    case Rejected => RejectedReplies(codec, passcode, home, outcome, raw);
    case Request(cmd) =>
      var payload := DecodePacket(raw).value.payload;
      RequestReplies(codec, passcode, home, outcome, raw);
      MeaningParsed(codec, payload);
      if cmd == 0x22 && Meaning(codec, payload).Obj? {
        CallFor(Meaning(codec, payload).fields);
      }
  }

  /** The payload is one the request can be carried out with. */
  predicate Understood(cmd: nat, payload: Json)
  {
    (cmd == 0x12 ==> payload.Obj?) &&
    (cmd == 0x20 ==> payload.Obj? && Field(payload, "entity_id", Str("")).Str?) &&
    (cmd == 0x22 ==> CanCall(payload))
  }

  lemma UnderstoodIff(cmd: nat, payload: Json)
    ensures WellTyped(cmd, payload) <==> Understood(cmd, payload)
  {
    if payload.Obj? {
      TruthyIff(Get(payload.fields, "entity_id", Null));
    }
  }

  /** Some answer to the request is too large for a packet. */
  ghost predicate AnswerTooLarge(codec: Codec, home: Home, outcome: ServiceOutcome, cmd: nat, payload: Json)
  {
    exists answer, j :: Answers(home, outcome, cmd, payload, answer, j) && |codec.dumps(j)| > 65535
  }

  /** Handling a request raises if its payload is not understood, and otherwise only over an answer too large. */
  lemma RequestRaises(codec: Codec, passcode: nat, home: Home, outcome: ServiceOutcome, raw: bytes)
    requires passcode < 0x1_0000_0000 && IsRequestPacket(passcode, raw)
    ensures var m := DecodePacket(raw).value;
            var raised := Handle(codec, passcode, home, outcome, raw).raised;
            if Understood(m.cmd, Meaning(codec, m.payload))
            then raised ==> AnswerTooLarge(codec, home, outcome, m.cmd, Meaning(codec, m.payload))
            else raised
  {
    var m := DecodePacket(raw).value;
    var payload := Meaning(codec, m.payload);
    KindIs(passcode, raw);
    MeaningParsed(codec, m.payload);
    UnderstoodIff(m.cmd, payload);
    RequestReplies(codec, passcode, home, outcome, raw);
    if Understood(m.cmd, payload) {
      AnswerTells(home, outcome, m.cmd, payload);
      assert PayloadBytes(codec, Answer(home, outcome, m.cmd, payload))
          == codec.dumps(Answer(home, outcome, m.cmd, payload).payload.value);
    }
  }

  // ── The changes pushed ────────────────────────────────────────────────────

  /** The change is to be told: there is a new state, of an entity marked in the registries at that time. */
  predicate IsDue(e: PushEvent)
  {
    e.Change? && e.newState.Some? && Marked(e.home, e.newState.value.entityId)
  }

  /** r tells of this state. */
  predicate IsPushOf(r: Reply, s: EntityState)
  {
    r.cmd == 0x30 && r.payload.Some? && TellsState(r.payload.value, s)
  }

  /** A change that is due is told once, as it is; any other is not told. */
  lemma PushedIff(home: Home, newState: Option<EntityState>)
    ensures var pushed := Pushed(home, newState);
            if IsDue(Change(home, newState)) then |pushed| == 1 && IsPushOf(pushed[0], newState.value) else pushed == []
  {
    if newState.Some? {
      ExposedIff(home, newState.value.entityId);
    }
  }

  /** The new states of the changes that are due, in order. */
  function DueStates(events: seq<PushEvent>): seq<EntityState>
  {
    if events == [] then []
    else
      var n := |events| - 1;
      DueStates(events[..n]) + if IsDue(events[n]) then [events[n].newState.value] else []
  }

  /** The state can be told in one packet. */
  ghost predicate FitsPacket(codec: Codec, s: EntityState)
  {
    exists j :: TellsState(j, s) && |codec.dumps(j)| <= 0xFFFF
  }

  ghost predicate SaysChange(codec: Codec, passcode: nat, packet: bytes, s: EntityState)
  {
    exists j :: SaysJson(codec, passcode, packet, 0x30, j) && TellsState(j, s)
  }

  /** The packets tell of these states in order, one packet for each that fits one. */
  ghost predicate Tell(codec: Codec, passcode: nat, packets: seq<bytes>, states: seq<EntityState>)
    decreases |states|
  {
    if states == [] then packets == []
    else
      var n := |states| - 1;
      if FitsPacket(codec, states[n]) then
        packets != [] && SaysChange(codec, passcode, packets[|packets| - 1], states[n]) &&
        Tell(codec, passcode, packets[..|packets| - 1], states[..n])
      else Tell(codec, passcode, packets, states[..n])
  }

  /** The first states are told by packets sent, the rest by what waits. */
  ghost predicate Told(codec: Codec, passcode: nat, p: Pushing, states: seq<EntityState>)
  {
    |p.waiting| <= |states| &&
    var done := |states| - |p.waiting|;
    Tell(codec, passcode, p.sent, states[..done]) &&
    forall i :: 0 <= i < |p.waiting| ==> IsPushOf(p.waiting[i], states[done + i])
  }

  lemma ChangeTold(codec: Codec, passcode: nat, p: Pushing, states: seq<EntityState>, r: Reply, s: EntityState)
    requires Told(codec, passcode, p, states) && IsPushOf(r, s)
    ensures Told(codec, passcode, p.(waiting := p.waiting + [r]), states + [s])
  {
    var done := |states| - |p.waiting|;
    assert (states + [s])[..done] == states[..done];
  }

  /** What the task of a push sends: one packet that tells the state, if that fits one. */
  ghost predicate SendsOf(codec: Codec, passcode: nat, more: seq<bytes>, s: EntityState)
  {
    if FitsPacket(codec, s) then |more| == 1 && SaysChange(codec, passcode, more[0], s) else more == []
  }

  lemma PushTold(codec: Codec, passcode: nat, r: Reply, s: EntityState)
    requires passcode < 0x1_0000_0000 && IsPushOf(r, s)
    ensures SendsOf(codec, passcode, Emit(codec, passcode, [r]).sent, s)
  {
    EmitOne(codec, passcode, r);
    StateTold(s);
    if Fits(codec, r) {
      assert SaysJson(codec, passcode, Emit(codec, passcode, [r]).sent[0], 0x30, r.payload.value);
    }
  }

  lemma TellOneMore(codec: Codec, passcode: nat, packets: seq<bytes>, more: seq<bytes>,
                    states: seq<EntityState>, n: nat)
    requires n < |states| && Tell(codec, passcode, packets, states[..n]) && SendsOf(codec, passcode, more, states[n])
    ensures Tell(codec, passcode, packets + more, states[..n + 1])
  {
    assert states[..n + 1][..n] == states[..n];
    if FitsPacket(codec, states[n]) {
      assert (packets + more)[..|packets|] == packets;
    } else {
      assert packets + more == packets;
    }
  }

  lemma NextTold(codec: Codec, passcode: nat, p: Pushing, states: seq<EntityState>, more: seq<bytes>)
    requires Told(codec, passcode, p, states) && p.waiting != []
    requires SendsOf(codec, passcode, more, states[|states| - |p.waiting|])
    ensures Told(codec, passcode, Pushing(p.sent + more, p.waiting[1..]), states)
  {
    var done := |states| - |p.waiting|;
    TellOneMore(codec, passcode, p.sent, more, states, done);
    FirstTaken(p.waiting, states, done);
  }

  lemma FirstTaken(waiting: seq<Reply>, states: seq<EntityState>, done: nat)
    requires done + |waiting| == |states| && waiting != []
    requires forall i :: 0 <= i < |waiting| ==> IsPushOf(waiting[i], states[done + i])
    ensures forall i :: 0 <= i < |waiting[1..]| ==> IsPushOf(waiting[1..][i], states[done + 1 + i])
  {
    forall i | 0 <= i < |waiting[1..]|
      ensures IsPushOf(waiting[1..][i], states[done + 1 + i])
    {
      assert IsPushOf(waiting[i + 1], states[done + (i + 1)]);
    }
  }

  lemma TaskTold(codec: Codec, passcode: nat, p: Pushing, states: seq<EntityState>)
    requires passcode < 0x1_0000_0000 && Told(codec, passcode, p, states) && p.waiting != []
    ensures Told(codec, passcode, AfterPush(codec, passcode, p, TaskRuns), states)
  {
    assert IsPushOf(p.waiting[0], states[|states| - |p.waiting| + 0]);
    PushTold(codec, passcode, p.waiting[0], states[|states| - |p.waiting|]);
    NextTold(codec, passcode, p, states, Emit(codec, passcode, [p.waiting[0]]).sent);
  }

  lemma EventTold(codec: Codec, passcode: nat, p: Pushing, states: seq<EntityState>, e: PushEvent)
    requires passcode < 0x1_0000_0000 && Told(codec, passcode, p, states)
    ensures Told(codec, passcode, AfterPush(codec, passcode, p, e),
                 states + if IsDue(e) then [e.newState.value] else [])
  {
    assert states + [] == states && p.waiting + [] == p.waiting;
    match e
    case Change(home, newState) =>
      PushedIff(home, newState);
      if IsDue(e) {
        var pushed := Pushed(home, newState);
        assert pushed == [pushed[0]];
        ChangeTold(codec, passcode, p, states, pushed[0], newState.value);
      }
    case TaskRuns =>
      if p.waiting != [] {
        TaskTold(codec, passcode, p, states);
      }
  }

  /**
   * However changes and tasks interleave, every change of a marked entity is told once, in order, and
   * nothing else is: first by the packets sent, unless a state is too large for one, then by what waits.
   */
  lemma {:induction false} ChangesTold(codec: Codec, passcode: nat, events: seq<PushEvent>)
    requires passcode < 0x1_0000_0000
    ensures Told(codec, passcode, PushRun(codec, passcode, events), DueStates(events))
  {
    if events == [] {
    } else {
      var n := |events| - 1;
      ChangesTold(codec, passcode, events[..n]);
      EventTold(codec, passcode, PushRun(codec, passcode, events[..n]), DueStates(events[..n]), events[n]);
    }
  }

  // ── Progress ──────────────────────────────────────────────────────────────

  /** The tasks of the n oldest pushes run. */
  function Tasks(n: nat): (r: seq<PushEvent>)
    ensures |r| == n && forall e <- r :: e == TaskRuns
  {
    Repeat(TaskRuns, n)
  }

  lemma PushRunNext(codec: Codec, passcode: nat, events: seq<PushEvent>, e: PushEvent)
    ensures PushRun(codec, passcode, events + [e]) == AfterPush(codec, passcode, PushRun(codec, passcode, events), e)
    ensures DueStates(events + [e]) == DueStates(events) + if IsDue(e) then [e.newState.value] else []
  {
    assert (events + [e])[..|events|] == events;
  }

  lemma {:induction false} TasksTakeAll(codec: Codec, passcode: nat, events: seq<PushEvent>, n: nat)
    requires n <= |PushRun(codec, passcode, events).waiting|
    ensures PushRun(codec, passcode, events + Tasks(n)).waiting == PushRun(codec, passcode, events).waiting[n..]
    ensures DueStates(events + Tasks(n)) == DueStates(events)
  {
    if n == 0 {
      assert events + Tasks(0) == events;
    } else {
      TasksTakeAll(codec, passcode, events, n - 1);
      PushRunNext(codec, passcode, events + Tasks(n - 1), TaskRuns);
      assert events + Tasks(n) == events + Tasks(n - 1) + [TaskRuns];
      NextTaken(PushRun(codec, passcode, events).waiting, n - 1);
    }
  }

  lemma NextTaken(waiting: seq<Reply>, n: nat)
    requires n < |waiting|
    ensures waiting[n..] != [] && waiting[n..][1..] == waiting[n + 1..]
  {
  }

  lemma NoneWaits(codec: Codec, passcode: nat, p: Pushing, states: seq<EntityState>)
    requires Told(codec, passcode, p, states) && p.waiting == []
    ensures Tell(codec, passcode, p.sent, states)
  {
    assert states[..|states|] == states;
  }

  /** Once the tasks of the pushes that wait have run, every change due is told by a packet that fits it. */
  lemma AllChangesTold(codec: Codec, passcode: nat, events: seq<PushEvent>)
    requires passcode < 0x1_0000_0000
    ensures var r := PushRun(codec, passcode, events + Tasks(|PushRun(codec, passcode, events).waiting|));
            r.waiting == [] && Tell(codec, passcode, r.sent, DueStates(events))
  {
    var more := events + Tasks(|PushRun(codec, passcode, events).waiting|);
    TasksTakeAll(codec, passcode, events, |PushRun(codec, passcode, events).waiting|);
    ChangesTold(codec, passcode, more);
    NoneWaits(codec, passcode, PushRun(codec, passcode, more), DueStates(more));
  }
}
