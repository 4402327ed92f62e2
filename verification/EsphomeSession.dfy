/** The replies of a dispatcher, wrapped for the ESPHome device and recovered by it. */
module EsphomeSession {
  import opened Bytes
  import opened Varint
  import opened Noise
  import opened Esphome
  import opened Replies
  import D = Dispatcher

  // ── The request around a packet ───────────────────────────────────────────

  /** The data field of a serialised BleServerSendFrameRequest. */
  function Unwrap(s: bytes): Option<bytes>
  {
    if s == [] then Some([])
    else if s[0] != 0x0A then None
    else
      match ReadVarint(s[1..])
      case Value(n, used) => if 1 + used + n == |s| then Some(s[1 + used..]) else None
      case _ => None
  }

  lemma UnwrapsWrapped(data: bytes)
    requires |data| < BOUND
    ensures Unwrap(WrapBytes(data)) == Some(data)
  {
    if data == [] {
    } else {
      var v := VarintBytes(|data|);
      WrappedParts(v, data);
      VarintRoundTrip(|data|, data);
    }
  }

  lemma WrappedParts(v: bytes, data: bytes)
    ensures var s := [0x0A] + v + data;
            s[0] == 0x0A && s[1..] == v + data && s[1 + |v|..] == data && |s| == 1 + |v| + |data|
  {
  }

  /** The payloads of the requests among these messages. */
  function Requests(messages: seq<Received>): seq<bytes>
  {
    if messages == [] then []
    else
      var n := |messages| - 1;
      Requests(messages[..n]) +
      if messages[n].msgType == SEND_FRAME_REQUEST then [messages[n].payload] else []
  }

  function Wrapped(packets: seq<bytes>): (r: seq<bytes>)
    ensures |r| == |packets| && forall i :: 0 <= i < |packets| ==> r[i] == WrapBytes(packets[i])
  {
    seq(|packets|, i requires 0 <= i < |packets| => WrapBytes(packets[i]))
  }

  /** What the device passes on to the Bluetooth client. */
  function Unwrapped(payloads: seq<bytes>): (r: seq<Option<bytes>>)
    ensures |r| == |payloads| && forall i :: 0 <= i < |payloads| ==> r[i] == Unwrap(payloads[i])
  {
    seq(|payloads|, i requires 0 <= i < |payloads| => Unwrap(payloads[i]))
  }

  function Present(packets: seq<bytes>): (r: seq<Option<bytes>>)
    ensures |r| == |packets| && forall i :: 0 <= i < |packets| ==> r[i] == Some(packets[i])
  {
    seq(|packets|, i requires 0 <= i < |packets| => Some(packets[i]))
  }

  lemma {:induction false} RequestsGrow(messages: seq<Received>, n: nat)
    requires n <= |messages|
    ensures Requests(messages[..n]) <= Requests(messages)
  {
    if n == |messages| {
      assert messages[..n] == messages;
    } else {
      var before := messages[..|messages| - 1];
      RequestsGrow(before, n);
      assert before[..n] == messages[..n];
    }
  }

  // ── What reaches a connection ─────────────────────────────────────────────

  /** The messages whose _send_message met connection k, in order. */
  function SentOn(c: Cipher, events: seq<Event>, k: nat): seq<Received>
  {
    if events == [] then []
    else
      var m := |events| - 1;
      SentOn(c, events[..m], k) +
      if Meets(Run(c, events[..m]), events[m], k) then [Received(events[m].msgType, events[m].payload)] else []
  }

  predicate Meets(b: Bridge, e: Event, k: nat)
  {
    e.Send? && b.writer.Some? && b.frame == Some(k)
  }

  /** Every such message can be framed: the cipher accepts it, and it is not one of those too large. */
  predicate AllFramed(c: Cipher, events: seq<Event>, k: nat)
  {
    forall i :: 0 <= i < |events| && Meets(Run(c, events[..i]), events[i], k) ==>
      FramedBy(c, Run(c, events[..i]), events[i], k)
  }

  predicate FramedBy(c: Cipher, b: Bridge, e: Event, k: nat)
    requires WellFormed(b) && Meets(b, e, k)
  {
    Accepts(c, b.conns[k].handshaken, b.conns[k].nonce, e.msgType, e.payload) && |e.payload| <= 65515
  }

  function AllSealed(messages: seq<Received>): (r: seq<Entry>)
    ensures |r| == |messages| && forall i :: 0 <= i < |messages| ==> r[i] == Sealed(messages[i])
  {
    seq(|messages|, i requires 0 <= i < |messages| => Sealed(messages[i]))
  }

  lemma StepLogs(c: Cipher, b: Bridge, e: Event, k: nat)
    requires Tagged(c) && WellFormed(b) && k < |b.conns| && b.conns[k].noise
    requires Meets(b, e, k) ==> FramedBy(c, b, e, k)
    ensures k < |Step(c, b, e).conns| && Step(c, b, e).conns[k].noise
    ensures Step(c, b, e).conns[k].log ==
              b.conns[k].log + if Meets(b, e, k) then [Sealed(Received(e.msgType, e.payload))] else []
  {
    if Meets(b, e, k) {
      EncodesIff(c, b.conns[k].handshaken, b.conns[k].nonce, e.msgType, e.payload);
    }
    assert b.conns[k].log + [] == b.conns[k].log;
  }

  lemma NewLog(c: Cipher, b: Bridge, e: Event, k: nat)
    requires WellFormed(b) && |b.conns| <= k < |Step(c, b, e).conns|
    ensures Step(c, b, e).conns[k].log == [] && !Meets(b, e, k)
  {
  }

  lemma TransportStays(c: Cipher, b: Bridge, e: Event, k: nat)
    requires WellFormed(b) && k < |b.conns|
    ensures k < |Step(c, b, e).conns| && Step(c, b, e).conns[k].noise == b.conns[k].noise
  {
  }

  /** Then the transport's log is what was sent on the connection. */
  lemma {:induction false} LogIsSent(c: Cipher, events: seq<Event>, k: nat)
    requires Tagged(c) && k < |Run(c, events).conns| && Run(c, events).conns[k].noise && AllFramed(c, events, k)
    ensures Run(c, events).conns[k].log == AllSealed(SentOn(c, events, k))
  {
    if events == [] {
    } else {
      var m := |events| - 1;
      FramedBefore(c, events, k);
      if k < |Run(c, events[..m]).conns| {
        TransportStays(c, Run(c, events[..m]), events[m], k);
        LogIsSent(c, events[..m], k);
        LogGrows(c, Run(c, events[..m]), events[m], k, SentOn(c, events[..m], k));
      } else {
        NewLog(c, Run(c, events[..m]), events[m], k);
        NothingSent(c, events[..m], k);
      }
    }
  }

  lemma LogGrows(c: Cipher, b: Bridge, e: Event, k: nat, sent: seq<Received>)
    requires Tagged(c) && WellFormed(b) && k < |b.conns| && b.conns[k].noise && b.conns[k].log == AllSealed(sent)
    requires Meets(b, e, k) ==> FramedBy(c, b, e, k)
    ensures k < |Step(c, b, e).conns|
    ensures Step(c, b, e).conns[k].log ==
              AllSealed(sent + if Meets(b, e, k) then [Received(e.msgType, e.payload)] else [])
  {
    StepLogs(c, b, e, k);
    SealedMore(sent, if Meets(b, e, k) then [Received(e.msgType, e.payload)] else []);
  }

  lemma SealedMore(messages: seq<Received>, more: seq<Received>)
    ensures AllSealed(messages + more) == AllSealed(messages) + AllSealed(more)
  {
  }

  lemma FramedBefore(c: Cipher, events: seq<Event>, k: nat)
    requires events != [] && AllFramed(c, events, k)
    ensures AllFramed(c, events[..|events| - 1], k)
    ensures var m := |events| - 1;
            Meets(Run(c, events[..m]), events[m], k) ==> FramedBy(c, Run(c, events[..m]), events[m], k)
  {
    var before := events[..|events| - 1];
    forall i | 0 <= i < |before| && Meets(Run(c, before[..i]), before[i], k)
      ensures FramedBy(c, Run(c, before[..i]), before[i], k)
    {
      assert before[..i] == events[..i] && before[i] == events[i];
    }
  }

  lemma {:induction false} NothingSent(c: Cipher, events: seq<Event>, k: nat)
    requires k >= |Run(c, events).conns|
    ensures SentOn(c, events, k) == []
  {
    if events == [] {
    } else {
      var m := |events| - 1;
      ConnectionsGrow(c, Run(c, events[..m]), events[m]);
      NothingSent(c, events[..m], k);
    }
  }

  // ── End to end ────────────────────────────────────────────────────────────

  lemma NoBurn(log: seq<Entry>, messages: seq<Received>)
    requires log == AllSealed(messages)
    ensures FirstBurn(log) == |log|
  {
    NothingBurned(log);
  }

  /** The peer's messages are an initial stretch of those sent on the connection. */
  lemma PeerReadsSent(c: Cipher, events: seq<Event>, k: nat)
    requires Aead(c) && k < |Run(c, events).conns| && Run(c, events).conns[k].noise && AllFramed(c, events, k)
    ensures var wire, sent := Run(c, events).conns[k].wire, SentOn(c, events, k);
            |wire| <= |sent| && PeerReads(c, 0, WireBytes(wire)) == sent[..|wire|]
  {
    var conn := Run(c, events).conns[k];
    var sent := SentOn(c, events, k);
    LogIsSent(c, events, k);
    NoBurn(conn.log, sent);
    PeerRecovers(c, events, k);
    WireNumbered(c, events, k);
    WireWithinLog(conn.wire, conn.log);
    assert SealedMessages(conn.log, |conn.wire|) == sent[..|conn.wire|];
  }

  lemma WireWithinLog(wire: seq<Out>, log: seq<Entry>)
    requires forall p :: 0 <= p < |wire| ==> p <= wire[p].nonce < |log|
    ensures |wire| <= |log|
  {
    assert wire == [] || wire[|wire| - 1].nonce < |log|;
  }

  /** The first n packets follow the script from `lo` on. */
  predicate Scripted(packets: seq<bytes>, n: nat, passcode: nat, script: seq<set<nat>>, lo: nat)
  {
    n <= |packets| && lo + n <= |script| && Follows(packets[..n], passcode, script[lo..lo + n])
  }

  /**
   * If the requests sent on a Noise connection carry a stretch of a dispatcher's replies, in order, then
   * what the device unwraps is an initial stretch of those replies and follows the script there,
   * whatever other messages and connections come between.
   */
  lemma DeviceHearsReplies(c: Cipher, events: seq<Event>, k: nat,
                           codec: D.Codec, passcode: nat, inputs: seq<Input>, lo: nat, packets: seq<bytes>)
    requires Aead(c) && passcode < 0x1_0000_0000
    ensures CarriesReplies(c, events, k, codec, passcode, inputs, lo, packets) ==>
              DeviceHears(c, events, k, packets, passcode, Script(codec, passcode, inputs), lo)
  {
    if CarriesReplies(c, events, k, codec, passcode, inputs, lo, packets) {
      DeviceUnwraps(c, events, k, packets);
      ServeStretch(codec, passcode, inputs, lo, packets, |DeviceReads(c, events, k)|);
    }
  }

  /** All messages of this Noise connection can be framed; the requests are these packets, the replies from `lo` on. */
  predicate CarriesReplies(c: Cipher, events: seq<Event>, k: nat,
                           codec: D.Codec, passcode: nat, inputs: seq<Input>, lo: nat, packets: seq<bytes>)
  {
    k < |Run(c, events).conns| && Run(c, events).conns[k].noise && AllFramed(c, events, k) &&
    Requests(SentOn(c, events, k)) == Wrapped(packets) &&
    lo + |packets| <= |Serve(codec, passcode, inputs)| &&
    packets == Serve(codec, passcode, inputs)[lo..lo + |packets|]
  }

  /** What the device finds in the requests it can read. */
  function DeviceReads(c: Cipher, events: seq<Event>, k: nat): seq<Option<bytes>>
    requires k < |Run(c, events).conns|
  {
    Unwrapped(Requests(PeerReads(c, 0, WireBytes(Run(c, events).conns[k].wire))))
  }

  predicate DeviceHears(c: Cipher, events: seq<Event>, k: nat, packets: seq<bytes>,
                        passcode: nat, script: seq<set<nat>>, lo: nat)
    requires k < |Run(c, events).conns|
  {
    var heard := DeviceReads(c, events, k);
    |heard| <= |packets| && heard == Present(packets[..|heard|]) && Scripted(packets, |heard|, passcode, script, lo)
  }

  lemma DeviceUnwraps(c: Cipher, events: seq<Event>, k: nat, packets: seq<bytes>)
    requires Aead(c) && k < |Run(c, events).conns| && Run(c, events).conns[k].noise && AllFramed(c, events, k)
    requires Requests(SentOn(c, events, k)) == Wrapped(packets)
    ensures var heard := DeviceReads(c, events, k);
            |heard| <= |packets| && heard == Present(packets[..|heard|])
  {
    var wire, sent := Run(c, events).conns[k].wire, SentOn(c, events, k);
    PeerReadsSent(c, events, k);
    RequestsGrow(sent, |wire|);
    AllSmall(c, events, k);
    SmallRequests(sent);
    PacketsUnwrapped(packets, Requests(sent[..|wire|]));
  }

  lemma ServeStretch(codec: D.Codec, passcode: nat, inputs: seq<Input>, lo: nat, packets: seq<bytes>, n: nat)
    requires passcode < 0x1_0000_0000 && lo + |packets| <= |Serve(codec, passcode, inputs)| && n <= |packets|
    requires packets == Serve(codec, passcode, inputs)[lo..lo + |packets|]
    ensures Scripted(packets, n, passcode, Script(codec, passcode, inputs), lo)
  {
    SessionFollowsScript(codec, passcode, inputs);
    FollowsStretch(Serve(codec, passcode, inputs), packets, passcode, Script(codec, passcode, inputs), lo, n);
  }

  lemma FollowsStretch(sent: seq<bytes>, packets: seq<bytes>, passcode: nat, script: seq<set<nat>>, lo: nat, n: nat)
    requires Follows(sent, passcode, script) && lo + |packets| <= |sent| && packets == sent[lo..lo + |packets|]
    requires n <= |packets|
    ensures Scripted(packets, n, passcode, script, lo)
  {
  }

  lemma {:induction false} AllSmall(c: Cipher, events: seq<Event>, k: nat)
    requires AllFramed(c, events, k)
    ensures forall m <- SentOn(c, events, k) :: |m.payload| <= 65515
  {
    if events == [] {
    } else {
      FramedBefore(c, events, k);
      AllSmall(c, events[..|events| - 1], k);
    }
  }

  lemma {:induction false} SmallRequests(messages: seq<Received>)
    requires forall m <- messages :: |m.payload| <= 65515
    ensures forall p <- Requests(messages) :: |p| <= 65515
  {
    if messages == [] {
    } else {
      SmallRequests(messages[..|messages| - 1]);
    }
  }

  lemma PacketsUnwrapped(packets: seq<bytes>, payloads: seq<bytes>)
    requires payloads <= Wrapped(packets) && forall p <- Wrapped(packets) :: |p| <= 65515
    ensures Unwrapped(payloads) == Present(packets[..|payloads|])
  {
    forall i | 0 <= i < |payloads|
      ensures Unwrap(payloads[i]) == Some(packets[i])
    {
      assert payloads[i] == Wrapped(packets)[i] == WrapBytes(packets[i]);
      assert |Wrapped(packets)[i]| <= 65515;
      UnwrapsWrapped(packets[i]);
    }
  }

  /** Once nobody waits for the lock any more, the device has every packet carried. */
  lemma DeviceHearsAll(c: Cipher, events: seq<Event>, k: nat, packets: seq<bytes>)
    requires Aead(c) && k < |Run(c, events).conns| && Run(c, events).conns[k].noise && AllFramed(c, events, k)
    requires Requests(SentOn(c, events, k)) == Wrapped(packets)
    ensures var more := events + ([DrainDone] + Rounds(|Run(c, events).waiters|));
            k < |Run(c, more).conns| && DeviceReads(c, more, k) == Present(packets)
  {
    var sent, log := SentOn(c, events, k), Run(c, events).conns[k].log;
    EverythingEncodedArrives(c, events, k);
    LogIsSent(c, events, k);
    NoBurn(log, sent);
    assert SealedMessages(log, |log|) == sent;
    AllSmall(c, events, k);
    SmallRequests(sent);
    PacketsUnwrapped(packets, Wrapped(packets));
    assert packets[..|packets|] == packets;
  }
}
