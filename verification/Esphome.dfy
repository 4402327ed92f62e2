/**
 * The ESPHome API client (esphome_server.py): concurrent senders that encode before they queue
 * for the write lock, over connections that come and go.
 */
module Esphome {
  import opened Bytes
  import opened Varint
  import opened Noise
  import D = Dispatcher

  // ── State ─────────────────────────────────────────────────────────────────

  /** What became of one nonce: a frame, or nothing because the ciphertext had no valid length. */
  datatype Entry = Sealed(message: Received) | Burned

  /** An encoded frame: the connection whose transport encoded it, the one it is written to, its nonce. */
  datatype Out = Out(source: nat, to: nat, nonce: nat, message: Received, frame: bytes)

  /** One connection: its transport, everything its transport encoded, and everything written. */
  datatype Conn = Conn(noise: bool, handshaken: bool, nonce: nat, log: seq<Entry>, wire: seq<Out>)

  /**
   * conns lists every connection so far; writer and frame name the connection that _writer and
   * _frame belong to. The lock is held by one writer, and waiters queue for it in order.
   */
  datatype Bridge = Bridge(
    conns: seq<Conn>,
    writer: Option<nat>,
    frame: Option<nat>,
    locked: bool,
    waiters: seq<Out>,
    stopped: bool,
    client: D.Client)

  const CREATED := Bridge([], None, None, false, [], false, D.NO_CLIENT)

  datatype Event =
    | Begin(noise: bool)                     // _connect_and_pump picks a transport
    | Opened                                 // the connection is open
    | HandshakeDone
    | SessionUp                              // the dispatcher is told a client may be there
    | Send(msgType: nat, payload: bytes)     // _send_message up to its first suspension
    | DrainDone                              // the lock holder leaves
    | Resume                                 // the first waiter takes the lock and writes
    | End                                    // _run tidies up after _connect_and_pump
    | Stop                                   // stop() up to the cancellation it requests

  // ── Steps ─────────────────────────────────────────────────────────────────

  function EncodeOn(c: Cipher, conn: Conn, m: Received): Attempt
  {
    if conn.noise then Encode(c, conn.handshaken, conn.nonce, m.msgType, m.payload)
    else Attempt(Frame(PlainFrame(m.msgType, m.payload)), true)
  }

  function WriteOut(b: Bridge, out: Out): Bridge
    requires out.to < |b.conns|
  {
    var conn := b.conns[out.to];
    b.(locked := true, conns := b.conns[out.to := conn.(wire := conn.wire + [out])])
  }

  /** Take the lock if it is free and nobody is queuing; queue otherwise. */
  function LockAndWrite(b: Bridge, out: Out): Bridge
    requires out.to < |b.conns|
  {
    if !b.locked && b.waiters == [] then WriteOut(b, out)
    else b.(waiters := b.waiters + [out])
  }

  /** The transport of connection k spends a nonce. */
  function Logged(b: Bridge, k: nat, entry: Entry): Bridge
    requires k < |b.conns|
  {
    var conn := b.conns[k];
    b.(conns := b.conns[k := conn.(nonce := conn.nonce + 1, log := conn.log + [entry])])
  }

  function AfterSend(c: Cipher, b: Bridge, m: Received): Bridge
    requires WellFormed(b)
  {
    if b.writer.None? || b.frame.None? then b
    else
      var k := b.frame.value;
      var conn := b.conns[k];
      var e := EncodeOn(c, conn, m);
      if !e.advanced then b
      else
        var entry := if e.result.Frame? then Sealed(m) else Burned;
        if e.result.Failed? then Logged(b, k, entry)
        else LockAndWrite(Logged(b, k, entry), Out(k, b.writer.value, conn.nonce, m, e.result.bytes))
  }

  function Step(c: Cipher, b: Bridge, e: Event): Bridge
    requires WellFormed(b)
  {
    match e
    case Begin(noise) =>
      if b.frame.Some? || b.stopped then b
      else b.(conns := b.conns + [Conn(noise, false, 0, [], [])], frame := Some(|b.conns|))
    case Opened => if b.frame.None? then b else b.(writer := b.frame)
    case HandshakeDone =>
      if b.writer.None? then b
      else b.(conns := b.conns[b.writer.value := b.conns[b.writer.value].(handshaken := true)])
    case SessionUp => if b.writer.None? || b.stopped then b else b.(client := D.OnConnected(b.client))
    case Send(msgType, payload) => AfterSend(c, b, Received(msgType, payload))
    case DrainDone => b.(locked := false)
    case Resume =>
      if b.locked || b.waiters == [] then b
      else WriteOut(b.(waiters := b.waiters[1..]), b.waiters[0])
    case End => b.(writer := None, frame := None, client := D.OnDisconnected(b.client))
    case Stop => b.(stopped := true, client := D.OnDisconnected(b.client))
  }

  // ── Invariant ─────────────────────────────────────────────────────────────

  predicate WellFormed(b: Bridge)
  {
    (b.frame.Some? ==> b.frame.value < |b.conns|) && (b.writer.Some? ==> b.writer == b.frame) &&
    forall i :: 0 <= i < |b.waiters| ==> b.waiters[i].to < |b.conns|
  }

  /** The frames a connection's transport produced, in encoding order. */
  function Outs(c: Cipher, k: nat, noise: bool, log: seq<Entry>): seq<Out>
  {
    if log == [] then []
    else
      var n := |log| - 1;
      Outs(c, k, noise, log[..n]) +
      match log[n]
      case Burned => []
      case Sealed(m) => [Out(k, k, n, m, FrameBytes(c, noise, n, m))]
  }

  function FrameBytes(c: Cipher, noise: bool, nonce: nat, m: Received): bytes
  {
    match EncodeOn(c, Conn(noise, true, nonce, [], []), m).result
    case Frame(f) => f
    case Failed(_) => []
  }

  function WaitingFor(waiters: seq<Out>, k: nat): seq<Out>
  {
    if waiters == [] then []
    else (if waiters[0].to == k then [waiters[0]] else []) + WaitingFor(waiters[1..], k)
  }

  /** What a connection has on the wire, then what waits for it, is all it encoded, in order. */
  predicate InOrder(c: Cipher, b: Bridge, k: nat)
    requires k < |b.conns|
  {
    var conn := b.conns[k];
    conn.nonce == |conn.log| && conn.wire + WaitingFor(b.waiters, k) == Outs(c, k, conn.noise, conn.log) &&
    Sound(c, conn)
  }

  /** Every logged message did yield a frame. */
  predicate Sound(c: Cipher, conn: Conn)
  {
    (forall i :: 0 <= i < |conn.log| && conn.log[i].Sealed? ==>
      EncodeOn(c, Conn(conn.noise, true, i, [], []), conn.log[i].message).result.Frame?) &&
    (!conn.noise ==> forall i :: 0 <= i < |conn.log| ==> conn.log[i].Sealed?)
  }

  predicate Inv(c: Cipher, b: Bridge)
  {
    Tidy(b) && forall k :: 0 <= k < |b.conns| ==> InOrder(c, b, k)
  }

  /** Frames wait for the connection that encoded them; the subscription follows the session. */
  predicate Tidy(b: Bridge)
  {
    WellFormed(b) && (forall i :: 0 <= i < |b.waiters| ==> b.waiters[i].source == b.waiters[i].to) &&
    D.Safe(b.client) && D.Synced(b.client) && (b.writer.None? ==> !b.client.connected)
  }

  lemma {:induction false} WaitingAppend(waiters: seq<Out>, out: Out, k: nat)
    ensures WaitingFor(waiters + [out], k) == WaitingFor(waiters, k) + if out.to == k then [out] else []
  {
    if waiters == [] {
      WaitingCons(out, [], k);
      assert [out] + [] == waiters + [out];
    } else {
      WaitingAppend(waiters[1..], out, k);
      WaitingCons(waiters[0], waiters[1..] + [out], k);
      assert [waiters[0]] + (waiters[1..] + [out]) == waiters + [out];
    }
  }

  lemma WaitingCons(first: Out, rest: seq<Out>, k: nat)
    ensures WaitingFor([first] + rest, k) == (if first.to == k then [first] else []) + WaitingFor(rest, k)
  {
    assert ([first] + rest)[1..] == rest;
  }

  lemma OutsAppend(c: Cipher, k: nat, noise: bool, log: seq<Entry>, e: Entry)
    ensures Outs(c, k, noise, log + [e]) ==
              Outs(c, k, noise, log) +
              if e.Burned? then [] else [Out(k, k, |log|, e.message, FrameBytes(c, noise, |log|, e.message))]
  {
    assert (log + [e])[..|log|] == log;
  }

  // ── Every step keeps it ───────────────────────────────────────────────────

  lemma WriteKeepsOrder(c: Cipher, b: Bridge, out: Out, k: nat)
    requires WellFormed(b) && out.to < |b.conns| && k < |b.conns|
    requires var conn := b.conns[k];
             Sound(c, conn) && conn.nonce == |conn.log| &&
             conn.wire + (if out.to == k then [out] else []) + WaitingFor(b.waiters, k)
               == Outs(c, k, conn.noise, conn.log)
    ensures InOrder(c, WriteOut(b, out), k)
  {
    assert b.conns[k].wire + [] == b.conns[k].wire;
  }

  lemma ResumeKeepsOrder(c: Cipher, b: Bridge, k: nat)
    requires WellFormed(b) && k < |b.conns| && InOrder(c, b, k) && b.waiters != []
    ensures InOrder(c, WriteOut(b.(waiters := b.waiters[1..]), b.waiters[0]), k)
  {
    var own := if b.waiters[0].to == k then [b.waiters[0]] else [];
    var rest := WaitingFor(b.waiters[1..], k);
    assert b.conns[k].wire + (own + rest) == b.conns[k].wire + own + rest;
    WriteKeepsOrder(c, b.(waiters := b.waiters[1..]), b.waiters[0], k);
  }

  /** With one more frame encoded on connection i, the books balance once that frame joins the line. */
  lemma LoggedOwes(c: Cipher, b: Bridge, i: nat, m: Received, sealed: bool, k: nat)
    requires i < |b.conns| && k < |b.conns| && InOrder(c, b, k) && (sealed || b.conns[i].noise)
    requires sealed ==> EncodeOn(c, Conn(b.conns[i].noise, true, b.conns[i].nonce, [], []), m).result.Frame?
    ensures var conn := Logged(b, i, if sealed then Sealed(m) else Burned).conns[k];
            var out := Out(i, i, b.conns[i].nonce, m, FrameBytes(c, b.conns[i].noise, b.conns[i].nonce, m));
            Sound(c, conn) && conn.nonce == |conn.log| &&
            conn.wire + WaitingFor(b.waiters, k) + (if sealed && k == i then [out] else [])
              == Outs(c, k, conn.noise, conn.log)
  {
    var entry := if sealed then Sealed(m) else Burned;
    if k == i {
      OutsAppend(c, i, b.conns[i].noise, b.conns[i].log, entry);
      EntrySound(c, b.conns[i], entry);
    }
  }

  lemma EntrySound(c: Cipher, conn: Conn, entry: Entry)
    requires Sound(c, conn) && conn.nonce == |conn.log| && (entry.Sealed? || conn.noise)
    requires entry.Sealed? ==> EncodeOn(c, Conn(conn.noise, true, conn.nonce, [], []), entry.message).result.Frame?
    ensures Sound(c, conn.(nonce := conn.nonce + 1, log := conn.log + [entry]))
  {
  }

  /** A frame that joins the line keeps the order, whether it is written at once or has to wait. */
  lemma LockKeepsOrder(c: Cipher, b: Bridge, out: Out, k: nat)
    requires WellFormed(b) && out.to < |b.conns| && k < |b.conns|
    requires var conn := b.conns[k];
             Sound(c, conn) && conn.nonce == |conn.log| &&
             conn.wire + WaitingFor(b.waiters, k) + (if out.to == k then [out] else [])
               == Outs(c, k, conn.noise, conn.log)
    ensures InOrder(c, LockAndWrite(b, out), k)
  {
    var own := if out.to == k then [out] else [];
    if !b.locked && b.waiters == [] {
      assert b.conns[k].wire + own + [] == b.conns[k].wire + [] + own;
      WriteKeepsOrder(c, b, out, k);
    } else {
      WaitingAppend(b.waiters, out, k);
      assert b.conns[k].wire + (WaitingFor(b.waiters, k) + own) == b.conns[k].wire + WaitingFor(b.waiters, k) + own;
    }
  }

  /** Encoding and joining the line in one go leaves every connection in order. */
  lemma SendKeepsOrder(c: Cipher, b: Bridge, m: Received, k: nat)
    requires WellFormed(b) && k < |b.conns| && InOrder(c, b, k)
    ensures InOrder(c, AfterSend(c, b, m), k)
  {
    if b.writer.Some? {
      var i := b.frame.value;
      var conn := b.conns[i];
      var e := EncodeOn(c, conn, m);
      if e.advanced {
        LoggedOwes(c, b, i, m, e.result.Frame?, k);
        if e.result.Frame? {
          LockKeepsOrder(c, Logged(b, i, Sealed(m)), Out(i, i, conn.nonce, m, e.result.bytes), k);
        } else {
          BurnKeepsOrder(c, b, i, k);
        }
      }
    }
  }

  lemma BurnKeepsOrder(c: Cipher, b: Bridge, i: nat, k: nat)
    requires i < |b.conns| && k < |b.conns| && InOrder(c, b, k) && b.conns[i].noise
    ensures InOrder(c, Logged(b, i, Burned), k)
  {
    if k == i {
      OutsAppend(c, i, b.conns[i].noise, b.conns[i].log, Burned);
    }
  }

  lemma StepKeepsOrder(c: Cipher, b: Bridge, e: Event, k: nat)
    requires WellFormed(b) && k < |b.conns| && InOrder(c, b, k)
    ensures k < |Step(c, b, e).conns| && InOrder(c, Step(c, b, e), k)
  {
    if e.Send? {
      SendKeepsOrder(c, b, Received(e.msgType, e.payload), k);
    } else if e.Resume? && !b.locked && b.waiters != [] {
      ResumeKeepsOrder(c, b, k);
    } else {
      OthersLeave(c, b, e, k);
      SameOrder(c, b, Step(c, b, e), k);
    }
  }

  lemma OthersLeave(c: Cipher, b: Bridge, e: Event, k: nat)
    requires WellFormed(b) && k < |b.conns| && !e.Send? && !(e.Resume? && !b.locked && b.waiters != [])
    ensures var r := Step(c, b, e);
            r.waiters == b.waiters && k < |r.conns| &&
            r.conns[k] == b.conns[k].(handshaken := r.conns[k].handshaken)
  {
  }

  lemma SameOrder(c: Cipher, b: Bridge, r: Bridge, k: nat)
    requires k < |b.conns| && InOrder(c, b, k) && r.waiters == b.waiters && k < |r.conns|
    requires r.conns[k] == b.conns[k].(handshaken := r.conns[k].handshaken)
    ensures InOrder(c, r, k)
  {
  }

  lemma StepKeeps(c: Cipher, b: Bridge, e: Event)
    requires Inv(c, b)
    ensures Inv(c, Step(c, b, e))
  {
    StepKeepsTidy(c, b, e);
    forall k | 0 <= k < |Step(c, b, e).conns|
      ensures InOrder(c, Step(c, b, e), k)
    {
      if k < |b.conns| {
        StepKeepsOrder(c, b, e, k);
      } else {
        NobodyWaits(b.waiters, k);
      }
    }
  }

  lemma SendKeepsTidy(c: Cipher, b: Bridge, m: Received)
    requires Tidy(b)
    ensures Tidy(AfterSend(c, b, m))
  {
  }

  lemma StepKeepsTidy(c: Cipher, b: Bridge, e: Event)
    requires Tidy(b)
    ensures Tidy(Step(c, b, e))
  {
    D.ClientSignalsKeep(b.client);
    if e.Send? {
      SendKeepsTidy(c, b, Received(e.msgType, e.payload));
    }
  }

  lemma {:induction false} NobodyWaits(waiters: seq<Out>, k: nat)
    requires forall i :: 0 <= i < |waiters| ==> waiters[i].to != k
    ensures WaitingFor(waiters, k) == []
  {
    if waiters == [] {
    } else {
      NobodyWaits(waiters[1..], k);
    }
  }

  function Run(c: Cipher, events: seq<Event>): (b: Bridge)
    ensures Inv(c, b)
  {
    if events == [] then CREATED
    else
      var n := |events| - 1;
      StepKeeps(c, Run(c, events[..n]), events[n]);
      Step(c, Run(c, events[..n]), events[n])
  }

  // ── Results ───────────────────────────────────────────────────────────────

  /** How many nonces were spent before the first that produced no frame. */
  function FirstBurn(log: seq<Entry>): (n: nat)
    ensures n <= |log| && forall i :: 0 <= i < n ==> log[i].Sealed?
  {
    if log == [] then 0
    else
      var n := FirstBurn(log[..|log| - 1]);
      if n == |log| - 1 && log[n].Sealed? then n + 1 else n
  }

  lemma {:induction false} FirstBurnAt(log: seq<Entry>)
    ensures FirstBurn(log) < |log| ==> log[FirstBurn(log)].Burned?
  {
    if log == [] {
    } else {
      FirstBurnAt(log[..|log| - 1]);
    }
  }

  /** Up to the first burned nonce the i-th frame has nonce i; the next frame has a later one. */
  lemma {:induction false} OutsNumbered(c: Cipher, k: nat, noise: bool, log: seq<Entry>, i: nat)
    requires i < |Outs(c, k, noise, log)|
    ensures |Outs(c, k, noise, log)| <= |log|
    ensures var out, b := Outs(c, k, noise, log)[i], FirstBurn(log);
            out.source == out.to == k && i <= out.nonce < |log| &&
            log[out.nonce] == Sealed(out.message) && out.frame == FrameBytes(c, noise, out.nonce, out.message) &&
            (i < b ==> out.nonce == i) && (i >= b ==> out.nonce > i)
  {
    var n := |log| - 1;
    var before := Outs(c, k, noise, log[..n]);
    OutsAtMost(c, k, noise, log[..n]);
    FirstBurnAt(log[..n]);
    if i < |before| {
      OutsNumbered(c, k, noise, log[..n], i);
    }
  }

  lemma {:induction false} OutsAtMost(c: Cipher, k: nat, noise: bool, log: seq<Entry>)
    ensures FirstBurn(log) <= |Outs(c, k, noise, log)| <= |log|
    ensures FirstBurn(log) < |log| ==> |Outs(c, k, noise, log)| < |log|
  {
    if log == [] {
    } else {
      OutsAtMost(c, k, noise, log[..|log| - 1]);
    }
  }

  /** Nonces grow along the frames, burned ones or not. */
  lemma {:induction false} OutsIncreasing(c: Cipher, k: nat, noise: bool, log: seq<Entry>, i: nat, j: nat)
    requires i < j < |Outs(c, k, noise, log)|
    ensures Outs(c, k, noise, log)[i].nonce < Outs(c, k, noise, log)[j].nonce
  {
    var n := |log| - 1;
    if j < |Outs(c, k, noise, log[..n])| {
      OutsIncreasing(c, k, noise, log[..n], i, j);
    } else {
      OutsNumbered(c, k, noise, log[..n], i);
    }
  }

  /** Every message that was encoded has its frame. */
  lemma {:induction false} OutsComplete(c: Cipher, k: nat, noise: bool, log: seq<Entry>, n: nat) returns (i: nat)
    requires n < |log| && log[n].Sealed?
    ensures i < |Outs(c, k, noise, log)| && Outs(c, k, noise, log)[i].nonce == n
  {
    if n == |log| - 1 {
      i := |Outs(c, k, noise, log)| - 1;
    } else {
      i := OutsComplete(c, k, noise, log[..|log| - 1], n);
    }
  }

  /** Exactly the messages encoded stand in the line, each once, by growing nonce. */
  predicate Ordered(line: seq<Out>, log: seq<Entry>, k: nat)
  {
    (forall i :: 0 <= i < |line| ==>
      line[i].source == line[i].to == k && line[i].nonce < |log| && log[line[i].nonce] == Sealed(line[i].message)) &&
    (forall i, j :: 0 <= i < j < |line| ==> line[i].nonce < line[j].nonce) &&
    forall n :: 0 <= n < |log| && log[n].Sealed? ==> exists i :: 0 <= i < |line| && line[i].nonce == n
  }

  lemma OutsOrdered(c: Cipher, k: nat, noise: bool, log: seq<Entry>)
    ensures Ordered(Outs(c, k, noise, log), log, k)
  {
    var line := Outs(c, k, noise, log);
    forall i | 0 <= i < |line|
      ensures line[i].source == line[i].to == k
      ensures line[i].nonce < |log| && log[line[i].nonce] == Sealed(line[i].message)
    {
      OutsNumbered(c, k, noise, log, i);
    }
    forall i, j | 0 <= i < j < |line|
      ensures line[i].nonce < line[j].nonce
    {
      OutsIncreasing(c, k, noise, log, i, j);
    }
    forall n | 0 <= n < |log| && log[n].Sealed?
      ensures exists i :: 0 <= i < |line| && line[i].nonce == n
    {
      var i := OutsComplete(c, k, noise, log, n);
      assert line[i].nonce == n;
    }
  }

  /**
   * Whoever sends and whenever, every frame goes to the connection whose transport encoded it, and
   * none is left out: on the wire of a connection, and then in the line for it, frames stand in
   * encoding order. Up to the first burned nonce the nonces are 0, 1, 2, ... without a gap.
   */
  lemma WireOrder(c: Cipher, events: seq<Event>, k: nat)
    requires k < |Run(c, events).conns|
    ensures var b := Run(c, events);
            var conn := b.conns[k];
            var line := conn.wire + WaitingFor(b.waiters, k);
            Ordered(line, conn.log, k) &&
            FirstBurn(conn.log) <= |line| <= |conn.log| &&
            forall i :: 0 <= i < FirstBurn(conn.log) ==> line[i].nonce == i
  {
    var b := Run(c, events);
    var conn := b.conns[k];
    assert InOrder(c, b, k);
    var line := Outs(c, k, conn.noise, conn.log);
    OutsOrdered(c, k, conn.noise, conn.log);
    OutsAtMost(c, k, conn.noise, conn.log);
    forall i | 0 <= i < FirstBurn(conn.log)
      ensures line[i].nonce == i
    {
      OutsNumbered(c, k, conn.noise, conn.log, i);
    }
  }

  function WireBytes(wire: seq<Out>): bytes
  {
    if wire == [] then [] else wire[0].frame + WireBytes(wire[1..])
  }

  function SealedMessages(log: seq<Entry>, n: nat): (r: seq<Received>)
    requires n <= FirstBurn(log)
    ensures |r| == n && forall i :: 0 <= i < n ==> r[i] == log[i].message
  {
    seq(n, i requires 0 <= i < n => log[i].message)
  }

  /** The frame is what its message encodes to under its nonce. */
  ghost predicate Genuine(c: Cipher, out: Out)
  {
    Encode(c, true, out.nonce, out.message.msgType, out.message.payload).result == Noise.Frame(out.frame)
  }

  ghost predicate AllGenuine(c: Cipher, wire: seq<Out>)
  {
    forall i :: 0 <= i < |wire| ==> Genuine(c, wire[i])
  }

  lemma GenuineRest(c: Cipher, wire: seq<Out>)
    requires AllGenuine(c, wire) && wire != []
    ensures Genuine(c, wire[0]) && AllGenuine(c, wire[1..])
  {
  }

  /** The first `good` frames carry the nonces from `at` on, and the one after them does not. */
  predicate Counted(wire: seq<Out>, at: nat, good: nat)
  {
    good <= |wire| && (forall i :: 0 <= i < good ==> wire[i].nonce == at + i) &&
    (good < |wire| ==> wire[good].nonce != at + good)
  }

  /** The messages of the first n frames. */
  function MessagesOf(wire: seq<Out>, n: nat): (r: seq<Received>)
    requires n <= |wire|
    ensures |r| == n && forall i :: 0 <= i < n ==> r[i] == wire[i].message
  {
    if n == 0 then [] else [wire[0].message] + MessagesOf(wire[1..], n - 1)
  }

  lemma PeerReadsFirst(c: Cipher, out: Out, at: nat, tail: bytes)
    requires Aead(c) && Genuine(c, out)
    ensures PeerReads(c, at, out.frame + tail) ==
              if out.nonce == at then [out.message] + PeerReads(c, at + 1, tail) else []
  {
    FrameReadBack(c, out.nonce, out.message.msgType, out.message.payload, at, tail);
  }

  lemma CountedRest(wire: seq<Out>, at: nat, good: nat)
    requires Counted(wire, at, good)
    ensures good > 0 ==> wire[0].nonce == at && Counted(wire[1..], at + 1, good - 1)
    ensures good == 0 && wire != [] ==> wire[0].nonce != at
  {
    if good > 0 {
      forall i | 0 <= i < good - 1
        ensures wire[1..][i].nonce == at + 1 + i
      {
        assert wire[1..][i] == wire[i + 1];
      }
    }
  }

  lemma PeerReadsEmpty(c: Cipher, at: nat)
    ensures PeerReads(c, at, []) == []
  {
  }

  /** A counting peer reads a wire up to the first gap in its nonces. */
  lemma {:induction false} PeerReadsWire(c: Cipher, wire: seq<Out>, at: nat, good: nat)
    requires Aead(c) && Counted(wire, at, good) && AllGenuine(c, wire)
    ensures PeerReads(c, at, WireBytes(wire)) == MessagesOf(wire, good)
    decreases |wire|
  {
    if wire == [] {
      PeerReadsEmpty(c, at);
    } else {
      CountedRest(wire, at, good);
      GenuineRest(c, wire);
      PeerReadsFirst(c, wire[0], at, WireBytes(wire[1..]));
      if good > 0 {
        PeerReadsWire(c, wire[1..], at + 1, good - 1);
      }
    }
  }

  /**
   * A peer that counts nonces recovers from a Noise connection exactly the messages written, in
   * the order they were encoded, until the first burned nonce; past that one it recovers nothing.
   */
  lemma PeerRecovers(c: Cipher, events: seq<Event>, k: nat)
    requires Aead(c) && k < |Run(c, events).conns| && Run(c, events).conns[k].noise
    ensures var conn := Run(c, events).conns[k];
            var n := if |conn.wire| < FirstBurn(conn.log) then |conn.wire| else FirstBurn(conn.log);
            PeerReads(c, 0, WireBytes(conn.wire)) == SealedMessages(conn.log, n)
  {
    var b := Run(c, events);
    var conn := b.conns[k];
    assert InOrder(c, b, k);
    var outs := Outs(c, k, true, conn.log);
    var good := if |conn.wire| < FirstBurn(conn.log) then |conn.wire| else FirstBurn(conn.log);
    forall i | 0 <= i < |conn.wire|
      ensures Genuine(c, conn.wire[i])
      ensures i < good ==> conn.wire[i].nonce == i && conn.log[i] == Sealed(conn.wire[i].message)
      ensures i >= FirstBurn(conn.log) ==> conn.wire[i].nonce > i
    {
      assert conn.wire[i] == outs[i];
      OutsNumbered(c, k, true, conn.log, i);
    }
    PeerReadsWire(c, conn.wire, 0, good);
  }

  // ── Which sends cost the peer its messages ────────────────────────────────

  /** The event sends, on connection k, a payload that the cipher accepts but no frame can carry. */
  predicate Burns(c: Cipher, b: Bridge, e: Event, k: nat)
    requires WellFormed(b)
  {
    e.Send? && b.writer.Some? && b.frame == Some(k) && b.conns[k].noise &&
    Accepts(c, b.conns[k].handshaken, b.conns[k].nonce, e.msgType, e.payload) && |e.payload| > 65515
  }

  predicate BurnedAt(log: seq<Entry>, n: nat)
  {
    n < |log| && log[n].Burned?
  }

  lemma SendBurns(c: Cipher, b: Bridge, e: Event, k: nat, n: nat)
    requires Tagged(c) && WellFormed(b) && k < |b.conns| && b.conns[k].nonce == |b.conns[k].log| && e.Send?
    ensures BurnedAt(AfterSend(c, b, Received(e.msgType, e.payload)).conns[k].log, n) <==>
            BurnedAt(b.conns[k].log, n) || (Burns(c, b, e, k) && n == b.conns[k].nonce)
  {
    if b.writer.Some? {
      var conn := b.conns[b.frame.value];
      NonceBurnedIff(c, conn.handshaken, conn.nonce, e.msgType, e.payload);
    }
  }

  lemma StepBurns(c: Cipher, b: Bridge, e: Event, k: nat, n: nat)
    requires Tagged(c) && WellFormed(b) && k < |b.conns| && b.conns[k].nonce == |b.conns[k].log|
    ensures k < |Step(c, b, e).conns|
    ensures BurnedAt(Step(c, b, e).conns[k].log, n) <==>
            BurnedAt(b.conns[k].log, n) || (Burns(c, b, e, k) && n == b.conns[k].nonce)
  {
    if e.Send? {
      SendBurns(c, b, e, k, n);
    }
  }

  lemma NewConnection(c: Cipher, b: Bridge, e: Event, k: nat)
    requires WellFormed(b) && |b.conns| <= k < |Step(c, b, e).conns|
    ensures Step(c, b, e).conns[k].log == [] && !Burns(c, b, e, k)
  {
  }

  /** Event i of the run spends nonce n of connection k without a frame. */
  predicate BurnsNonce(c: Cipher, events: seq<Event>, i: nat, k: nat, n: nat)
    requires i < |events|
  {
    var b := Run(c, events[..i]);
    Burns(c, b, events[i], k) && b.conns[k].nonce == n
  }

  /** A nonce is burned exactly by the send that met it and was too large. */
  lemma {:induction false} BurnedIff(c: Cipher, events: seq<Event>, k: nat, n: nat)
    requires Tagged(c) && k < |Run(c, events).conns|
    ensures BurnedAt(Run(c, events).conns[k].log, n) <==>
            exists i :: 0 <= i < |events| && BurnsNonce(c, events, i, k, n)
  {
    if events == [] {
    } else {
      var m := |events| - 1;
      var before, b := events[..m], Run(c, events[..m]);
      EarlierBurns(c, events, k, n);
      if k < |b.conns| {
        assert InOrder(c, b, k);
        StepBurns(c, b, events[m], k, n);
        BurnedIff(c, before, k, n);
      } else {
        NewConnection(c, b, events[m], k);
        NoneBefore(c, before, k, n);
      }
    }
  }

  lemma EarlierBurns(c: Cipher, events: seq<Event>, k: nat, n: nat)
    requires events != []
    ensures var m := |events| - 1;
            (exists i :: 0 <= i < |events| && BurnsNonce(c, events, i, k, n)) <==>
            BurnsNonce(c, events, m, k, n) || exists i :: 0 <= i < m && BurnsNonce(c, events[..m], i, k, n)
  {
    var m := |events| - 1;
    forall i | 0 <= i < m
      ensures BurnsNonce(c, events, i, k, n) <==> BurnsNonce(c, events[..m], i, k, n)
    {
      assert events[..m][..i] == events[..i] && events[..m][i] == events[i];
    }
    if i :| 0 <= i < |events| && BurnsNonce(c, events, i, k, n) {
      assert i == m || BurnsNonce(c, events[..m], i, k, n);
    }
    if i :| 0 <= i < m && BurnsNonce(c, events[..m], i, k, n) {
      assert BurnsNonce(c, events, i, k, n);
    }
  }

  /** Nothing was sent on a connection before it began. */
  lemma NoneBefore(c: Cipher, events: seq<Event>, k: nat, n: nat)
    requires k >= |Run(c, events).conns|
    ensures !exists i :: 0 <= i < |events| && BurnsNonce(c, events, i, k, n)
  {
    forall i | 0 <= i < |events|
      ensures !BurnsNonce(c, events, i, k, n)
    {
      ConnectionsStay(c, events, i);
    }
  }

  lemma {:induction false} ConnectionsStay(c: Cipher, events: seq<Event>, i: nat)
    requires i <= |events|
    ensures |Run(c, events[..i]).conns| <= |Run(c, events).conns|
  {
    if i == |events| {
      assert events[..i] == events;
    } else {
      var m := |events| - 1;
      ConnectionsStay(c, events[..m], i);
      assert events[..m][..i] == events[..i];
      ConnectionsGrow(c, Run(c, events[..m]), events[m]);
    }
  }

  lemma ConnectionsGrow(c: Cipher, b: Bridge, e: Event)
    requires WellFormed(b)
    ensures |b.conns| <= |Step(c, b, e).conns|
  {
  }

  /** Some frame on the wire was encoded after a send that burned its nonce. */
  predicate LostToBurn(c: Cipher, events: seq<Event>, k: nat)
    requires k < |Run(c, events).conns|
  {
    var wire := Run(c, events).conns[k].wire;
    exists i, p :: 0 <= i < |events| && 0 <= p < |wire| && BurnsNonce(c, events, i, k, BurnOf(c, events, i, k)) &&
                   BurnOf(c, events, i, k) < wire[p].nonce
  }

  /** The nonce that event i meets on connection k. */
  function BurnOf(c: Cipher, events: seq<Event>, i: nat, k: nat): nat
    requires i < |events|
  {
    var b := Run(c, events[..i]);
    if k < |b.conns| then b.conns[k].nonce else 0
  }

  lemma BurnOfIs(c: Cipher, events: seq<Event>, i: nat, k: nat, n: nat)
    requires i < |events| && BurnsNonce(c, events, i, k, n)
    ensures BurnOf(c, events, i, k) == n
  {
  }

  lemma NothingLostYet(c: Cipher, events: seq<Event>, k: nat)
    requires Aead(c) && k < |Run(c, events).conns| && Run(c, events).conns[k].noise
    requires |Run(c, events).conns[k].wire| <= FirstBurn(Run(c, events).conns[k].log)
    ensures !LostToBurn(c, events, k)
  {
    var wire := Run(c, events).conns[k].wire;
    WireNumbered(c, events, k);
    forall i, p | 0 <= i < |events| && 0 <= p < |wire| && BurnsNonce(c, events, i, k, BurnOf(c, events, i, k))
      ensures BurnOf(c, events, i, k) >= wire[p].nonce
    {
      BurnedIff(c, events, k, BurnOf(c, events, i, k));
    }
  }

  lemma LostBehindBurn(c: Cipher, events: seq<Event>, k: nat)
    requires Aead(c) && k < |Run(c, events).conns| && Run(c, events).conns[k].noise
    requires |Run(c, events).conns[k].wire| > FirstBurn(Run(c, events).conns[k].log)
    ensures LostToBurn(c, events, k)
  {
    var conn := Run(c, events).conns[k];
    var good := FirstBurn(conn.log);
    WireNumbered(c, events, k);
    FirstBurnAt(conn.log);
    assert conn.wire[good].nonce > good;
    BurnedIff(c, events, k, good);
    var i :| 0 <= i < |events| && BurnsNonce(c, events, i, k, good);
    BurnOfIs(c, events, i, k, good);
  }

  /**
   * A counting peer recovers every message written on a Noise connection, in order, exactly if no
   * frame written there was encoded after a payload of more than 65515 bytes that the cipher accepted.
   */
  lemma PeerRecoversAllIff(c: Cipher, events: seq<Event>, k: nat)
    requires Aead(c) && k < |Run(c, events).conns| && Run(c, events).conns[k].noise
    ensures var wire := Run(c, events).conns[k].wire;
            PeerReads(c, 0, WireBytes(wire)) == MessagesOf(wire, |wire|) <==> !LostToBurn(c, events, k)
  {
    var conn := Run(c, events).conns[k];
    PeerRecovers(c, events, k);
    WireNumbered(c, events, k);
    if |conn.wire| <= FirstBurn(conn.log) {
      NothingLostYet(c, events, k);
      assert MessagesOf(conn.wire, |conn.wire|) == SealedMessages(conn.log, |conn.wire|);
    } else {
      LostBehindBurn(c, events, k);
    }
  }

  /** Each frame written carries its message under its nonce, which is its place up to the first burn. */
  lemma WireNumbered(c: Cipher, events: seq<Event>, k: nat)
    requires k < |Run(c, events).conns|
    ensures var conn := Run(c, events).conns[k];
            forall p :: 0 <= p < |conn.wire| ==>
              conn.wire[p].nonce < |conn.log| && conn.log[conn.wire[p].nonce] == Sealed(conn.wire[p].message) &&
              (p < FirstBurn(conn.log) ==> conn.wire[p].nonce == p) &&
              (p >= FirstBurn(conn.log) ==> conn.wire[p].nonce > p)
  {
    var b := Run(c, events);
    var conn := b.conns[k];
    assert InOrder(c, b, k);
    forall p | 0 <= p < |conn.wire|
      ensures conn.wire[p].nonce < |conn.log| && conn.log[conn.wire[p].nonce] == Sealed(conn.wire[p].message)
      ensures p < FirstBurn(conn.log) ==> conn.wire[p].nonce == p
      ensures p >= FirstBurn(conn.log) ==> conn.wire[p].nonce > p
    {
      assert conn.wire[p] == Outs(c, k, conn.noise, conn.log)[p];
      OutsNumbered(c, k, conn.noise, conn.log, p);
    }
  }

  /** With a cipher that keeps ciphertexts within 65535 bytes, the peer always recovers all that is written. */
  lemma NothingLostWithinLimit(c: Cipher, events: seq<Event>, k: nat)
    requires Aead(c) && c.maxPlain <= 65519 && k < |Run(c, events).conns| && Run(c, events).conns[k].noise
    ensures var wire := Run(c, events).conns[k].wire;
            PeerReads(c, 0, WireBytes(wire)) == MessagesOf(wire, |wire|)
  {
    PeerRecoversAllIff(c, events, k);
  }

  lemma RunNext(c: Cipher, events: seq<Event>, e: Event)
    ensures Run(c, events + [e]) == Step(c, Run(c, events), e)
  {
    assert (events + [e])[..|events|] == events;
  }

  /** With any other a message can be lost: the one sent after a payload too large arrives unreadable. */
  lemma MessageLost(c: Cipher, big: bytes, m: Received) returns (events: seq<Event>)
    requires Aead(c) && 65515 < |big| <= 65535 && 4 + |big| <= c.maxPlain
    requires m.msgType <= 0xFFFF && |m.payload| <= 65515
    ensures var conns := Run(c, events).conns;
            |conns| == 1 && |conns[0].wire| == 1 && conns[0].wire[0].message == m &&
            PeerReads(c, 0, WireBytes(conns[0].wire)) == []
  {
    events := ReadyToSend(c);
    var b := Run(c, events);
    NonceBurnedIff(c, true, 0, 0, big);
    RunNext(c, events, Send(0, big));
    events := events + [Send(0, big)];
    EncodesIff(c, true, 1, m.msgType, m.payload);
    RunNext(c, events, Send(m.msgType, m.payload));
    events := events + [Send(m.msgType, m.payload)];
    UnreadableAlone(c, Run(c, events).conns[0].wire[0]);
    assert Run(c, events).conns[0].wire == [Run(c, events).conns[0].wire[0]];
  }

  lemma ReadyToSend(c: Cipher) returns (events: seq<Event>)
    ensures Run(c, events) == Bridge([Conn(true, true, 0, [], [])], Some(0), Some(0), false, [], false, D.NO_CLIENT)
  {
    events := [Begin(true)] + [Opened] + [HandshakeDone];
    assert [] + [Begin(true)] == [Begin(true)];
    RunNext(c, [], Begin(true));
    RunNext(c, [Begin(true)], Opened);
    RunNext(c, [Begin(true)] + [Opened], HandshakeDone);
    SessionReady(c);
  }

  lemma SessionReady(c: Cipher)
    ensures var b := Step(c, CREATED, Begin(true));
            WellFormed(b) && WellFormed(Step(c, b, Opened)) &&
            Step(c, Step(c, b, Opened), HandshakeDone) ==
              Bridge([Conn(true, true, 0, [], [])], Some(0), Some(0), false, [], false, D.NO_CLIENT)
  {
  }

  lemma UnreadableAlone(c: Cipher, out: Out)
    requires Aead(c) && Genuine(c, out) && out.nonce != 0
    ensures PeerReads(c, 0, WireBytes([out])) == []
  {
    assert WireBytes([out]) == out.frame + WireBytes([]);
    PeerReadsFirst(c, out, 0, WireBytes([]));
  }

  lemma {:induction false} PlainWire(wire: seq<Out>)
    requires forall i :: 0 <= i < |wire| ==>
      Encodable(wire[i].message) && wire[i].frame == PlainFrame(wire[i].message.msgType, wire[i].message.payload)
    ensures ReadPlainAll(WireBytes(wire)) == MessagesOf(wire, |wire|)
  {
    if wire == [] {
    } else {
      PlainReadBack(wire[0].message, WireBytes(wire[1..]));
      PlainWire(wire[1..]);
    }
  }

  lemma {:induction false} NothingBurned(log: seq<Entry>)
    requires forall i :: 0 <= i < |log| ==> log[i].Sealed?
    ensures FirstBurn(log) == |log|
  {
    if log == [] {
    } else {
      NothingBurned(log[..|log| - 1]);
    }
  }

  /** Over a plaintext connection the peer reads every message written, in encoding order. */
  lemma PlainPeerRecovers(c: Cipher, events: seq<Event>, k: nat)
    requires k < |Run(c, events).conns| && !Run(c, events).conns[k].noise
    requires forall e <- Run(c, events).conns[k].log :: e.Sealed? ==> Encodable(e.message)
    ensures var conn := Run(c, events).conns[k];
            |conn.wire| <= |conn.log| == FirstBurn(conn.log) &&
            ReadPlainAll(WireBytes(conn.wire)) == SealedMessages(conn.log, |conn.wire|)
  {
    var b := Run(c, events);
    var conn := b.conns[k];
    assert InOrder(c, b, k);
    var outs := Outs(c, k, false, conn.log);
    NothingBurned(conn.log);
    OutsAtMost(c, k, false, conn.log);
    forall i | 0 <= i < |conn.wire|
      ensures conn.wire[i].frame == PlainFrame(conn.wire[i].message.msgType, conn.wire[i].message.payload)
      ensures conn.log[i] == Sealed(conn.wire[i].message)
    {
      assert conn.wire[i] == outs[i];
      OutsNumbered(c, k, false, conn.log, i);
    }
    PlainWire(conn.wire);
  }

  /** Between sessions nobody is subscribed; during one a listener is live exactly while a client is. */
  lemma SessionsBeginUnsubscribed(c: Cipher, events: seq<Event>)
    ensures var b := Run(c, events);
            D.Safe(b.client) && D.Synced(b.client) &&
            (b.writer.None? || b.frame.None? ==> !b.client.connected && b.client.live == {})
  {
  }

  // ── Progress ──────────────────────────────────────────────────────────────

  /** Events that follow in some state. */
  function Continue(c: Cipher, b: Bridge, events: seq<Event>): (r: Bridge)
    requires Inv(c, b)
    ensures Inv(c, r)
    decreases events
  {
    if events == [] then b
    else
      StepKeeps(c, b, events[0]);
      Continue(c, Step(c, b, events[0]), events[1..])
  }

  lemma {:induction false} RunContinues(c: Cipher, events: seq<Event>, more: seq<Event>)
    ensures Run(c, events + more) == Continue(c, Run(c, events), more)
    decreases more
  {
    if more == [] {
      assert events + more == events;
    } else {
      var e, rest := more[0], more[1..];
      RunNext(c, events, e);
      RunContinues(c, events + [e], rest);
      ContinueFirst(c, Run(c, events), e, rest);
      OneOver(events, more);
    }
  }

  lemma OneOver(events: seq<Event>, more: seq<Event>)
    requires more != []
    ensures events + [more[0]] + more[1..] == events + more && [more[0]] + more[1..] == more
  {
  }

  lemma ContinueFirst(c: Cipher, b: Bridge, e: Event, more: seq<Event>)
    requires Inv(c, b)
    ensures Inv(c, Step(c, b, e)) && Continue(c, b, [e] + more) == Continue(c, Step(c, b, e), more)
  {
    StepKeeps(c, b, e);
    assert ([e] + more)[1..] == more;
  }

  /** The next n senders in the line each take the lock, write, and leave. */
  function Rounds(n: nat): seq<Event>
  {
    if n == 0 then [] else [Resume] + ([DrainDone] + Rounds(n - 1))
  }

  /** The line has been written out: what waited for connection k follows what it had on the wire. */
  predicate Drained(b: Bridge, r: Bridge, k: nat)
    requires k < |b.conns|
  {
    r.waiters == [] && !r.locked && |r.conns| == |b.conns| &&
    r.conns[k] == b.conns[k].(wire := b.conns[k].wire + WaitingFor(b.waiters, k))
  }

  lemma OneRound(c: Cipher, b: Bridge, k: nat)
    requires Inv(c, b) && !b.locked && b.waiters != [] && k < |b.conns|
    ensures WellFormed(Step(c, b, Resume))
    ensures var r := Step(c, Step(c, b, Resume), DrainDone);
            !r.locked && r.waiters == b.waiters[1..] && |r.conns| == |b.conns| &&
            r.conns[k] ==
              b.conns[k].(wire := b.conns[k].wire + if b.waiters[0].to == k then [b.waiters[0]] else [])
  {
    assert b.conns[k].wire + [] == b.conns[k].wire;
  }

  lemma {:induction false} RoundsDrain(c: Cipher, b: Bridge, k: nat)
    requires Inv(c, b) && !b.locked && k < |b.conns|
    ensures Drained(b, Continue(c, b, Rounds(|b.waiters|)), k)
    decreases |b.waiters|
  {
    if b.waiters == [] {
      assert b.conns[k].wire + [] == b.conns[k].wire;
    } else {
      var rest := Rounds(|b.waiters| - 1);
      ContinueFirst(c, b, Resume, [DrainDone] + rest);
      ContinueFirst(c, Step(c, b, Resume), DrainDone, rest);
      OneRound(c, b, k);
      var r := Step(c, Step(c, b, Resume), DrainDone);
      RoundsDrain(c, r, k);
      var own := if b.waiters[0].to == k then [b.waiters[0]] else [];
      OutsRegrouped(b.conns[k].wire, own, WaitingFor(b.waiters[1..], k));
    }
  }

  lemma OutsRegrouped(a: seq<Out>, b: seq<Out>, c: seq<Out>)
    ensures a + b + c == a + (b + c)
  {
  }

  /**
   * Nobody waits for ever: in any run, once the holder of the lock leaves and each sender in the
   * line has had its turn, the lock is free, nobody waits, and every connection has on its wire what
   * it had before and then all that waited for it.
   */
  lemma LineDrains(c: Cipher, events: seq<Event>, k: nat)
    requires k < |Run(c, events).conns|
    ensures var b := Run(c, events);
            Drained(b, Run(c, events + ([DrainDone] + Rounds(|b.waiters|))), k)
  {
    RunContinues(c, events, [DrainDone] + Rounds(|Run(c, events).waiters|));
    DrainsFrom(c, Run(c, events), k);
  }

  lemma DrainsFrom(c: Cipher, b: Bridge, k: nat)
    requires Inv(c, b) && k < |b.conns|
    ensures Drained(b, Continue(c, b, [DrainDone] + Rounds(|b.waiters|)), k)
  {
    ContinueFirst(c, b, DrainDone, Rounds(|b.waiters|));
    RoundsDrain(c, Step(c, b, DrainDone), k);
  }

  /** The peer then has every message encoded for a Noise connection, up to the first burned nonce. */
  lemma EverythingEncodedArrives(c: Cipher, events: seq<Event>, k: nat)
    requires Aead(c) && k < |Run(c, events).conns| && Run(c, events).conns[k].noise
    ensures var b := Run(c, events);
            var r := Run(c, events + ([DrainDone] + Rounds(|b.waiters|)));
            |r.conns| == |b.conns| && r.conns[k].log == b.conns[k].log &&
            PeerReads(c, 0, WireBytes(r.conns[k].wire)) == SealedMessages(b.conns[k].log, FirstBurn(b.conns[k].log))
  {
    var b := Run(c, events);
    var more := events + ([DrainDone] + Rounds(|b.waiters|));
    LineDrains(c, events, k);
    WireOrder(c, events, k);
    PeerRecovers(c, more, k);
  }

  /**
   * A message sent on a connection that stands is written to it, at once or after those before it: in
   * the state r in which nobody waits any more it is the last on the wire.
   */
  lemma SentIsWritten(c: Cipher, events: seq<Event>, k: nat, m: Received, sent: seq<Event>, r: Bridge)
    requires Run(c, events).writer.Some? && Run(c, events).frame == Some(k)
    requires EncodeOn(c, Run(c, events).conns[k], m).result.Frame?
    requires sent == events + [Send(m.msgType, m.payload)]
    requires r == Run(c, sent + ([DrainDone] + Rounds(|Run(c, sent).waiters|)))
    ensures r.waiters == [] && EndsWith(r, k, m)
  {
    RunNext(c, events, Send(m.msgType, m.payload));
    SendStep(c, Run(c, events), m);
    SentIsLast(c, Run(c, events), m);
    LastIsWritten(c, sent, k, m, r);
  }

  lemma LastIsWritten(c: Cipher, events: seq<Event>, k: nat, m: Received, r: Bridge)
    requires LastOf(Run(c, events), k, m) && r == Run(c, events + ([DrainDone] + Rounds(|Run(c, events).waiters|)))
    ensures r.waiters == [] && EndsWith(r, k, m)
  {
    LineDrains(c, events, k);
    DrainedEnds(Run(c, events), r, k, m);
  }

  lemma DrainedEnds(b: Bridge, r: Bridge, k: nat, m: Received)
    requires LastOf(b, k, m) && Drained(b, r, k)
    ensures EndsWith(r, k, m)
  {
  }

  /** The last message on the wire of connection k is m. */
  predicate EndsWith(b: Bridge, k: nat, m: Received)
  {
    k < |b.conns| && b.conns[k].wire != [] && b.conns[k].wire[|b.conns[k].wire| - 1].message == m
  }

  /** Of all that connection k has on its wire or waiting, m is the last. */
  predicate LastOf(b: Bridge, k: nat, m: Received)
  {
    k < |b.conns| &&
    var all := b.conns[k].wire + WaitingFor(b.waiters, k);
    all != [] && all[|all| - 1].message == m
  }

  lemma SendStep(c: Cipher, b: Bridge, m: Received)
    requires WellFormed(b)
    ensures Step(c, b, Send(m.msgType, m.payload)) == AfterSend(c, b, m)
  {
  }

  lemma SentIsLast(c: Cipher, b: Bridge, m: Received)
    requires Inv(c, b) && b.writer.Some? && b.frame.Some?
    requires EncodeOn(c, b.conns[b.frame.value], m).result.Frame?
    ensures LastOf(AfterSend(c, b, m), b.frame.value, m)
  {
    var k := b.frame.value;
    SendKeepsOrder(c, b, m, k);
    SendSeals(c, b, m);
    OutsAppend(c, k, b.conns[k].noise, b.conns[k].log, Sealed(m));
  }

  lemma SendSeals(c: Cipher, b: Bridge, m: Received)
    requires WellFormed(b) && b.writer.Some? && b.frame.Some?
    requires EncodeOn(c, b.conns[b.frame.value], m).result.Frame?
    ensures var r, k := AfterSend(c, b, m), b.frame.value;
            k < |r.conns| && r.conns[k].noise == b.conns[k].noise && r.conns[k].log == b.conns[k].log + [Sealed(m)]
  {
    var k := b.frame.value;
    var conn := b.conns[k];
    var e := EncodeOn(c, conn, m);
    LockKeepsLog(Logged(b, k, Sealed(m)), Out(k, k, conn.nonce, m, e.result.bytes), k);
  }

  lemma LockKeepsLog(b: Bridge, out: Out, k: nat)
    requires out.to < |b.conns| && k < |b.conns|
    ensures var r := LockAndWrite(b, out);
            k < |r.conns| && r.conns[k].log == b.conns[k].log && r.conns[k].noise == b.conns[k].noise
  {
  }

  // ── The life of a session ─────────────────────────────────────────────────

  /** When a session is up, a client is assumed and its changes are listened for. */
  lemma SessionListens(c: Cipher, events: seq<Event>)
    requires Run(c, events).writer.Some? && !Run(c, events).stopped
    ensures var b := Run(c, events + [SessionUp]); b.client.connected && b.client.live != {}
  {
    RunNext(c, events, SessionUp);
    D.ClientSignalsKeep(Run(c, events).client);
  }

  /** Outside a session a message goes nowhere: it is not encoded, and spends no nonce. */
  lemma NoSessionNoSend(c: Cipher, events: seq<Event>, m: Received)
    requires Run(c, events).writer.None? || Run(c, events).frame.None?
    ensures Run(c, events + [Send(m.msgType, m.payload)]) == Run(c, events)
  {
    RunNext(c, events, Send(m.msgType, m.payload));
  }

  /** When it ends nobody listens, and writer and transport are gone; the connections stay as they are. */
  lemma SessionEnds(c: Cipher, events: seq<Event>)
    ensures var b := Run(c, events + [End]);
            b.writer.None? && b.frame.None? && !b.client.connected && b.client.live == {} &&
            b.conns == Run(c, events).conns
  {
    RunNext(c, events, End);
    D.ClientSignalsKeep(Run(c, events).client);
  }

  /** The next one begins with a transport of its own, and once the handshake is done it may be written to. */
  lemma NextSession(c: Cipher, events: seq<Event>, noise: bool)
    requires !Run(c, events).stopped
    ensures var b, r := Run(c, events), Run(c, events + [End] + [Begin(noise)] + [Opened] + [HandshakeDone]);
            |r.conns| == |b.conns| + 1 && r.writer == r.frame == Some(|b.conns|) &&
            r.conns[|b.conns|] == Conn(noise, true, 0, [], []) && r.conns[..|b.conns|] == b.conns
  {
    RunNext(c, events, End);
    RunNext(c, events + [End], Begin(noise));
    RunNext(c, events + [End] + [Begin(noise)], Opened);
    RunNext(c, events + [End] + [Begin(noise)] + [Opened], HandshakeDone);
    NextConnection(c, Run(c, events), noise);
  }

  lemma NextConnection(c: Cipher, b: Bridge, noise: bool)
    requires WellFormed(b) && !b.stopped
    ensures var begun := Step(c, Step(c, b, End), Begin(noise));
            WellFormed(Step(c, b, End)) && WellFormed(begun) && WellFormed(Step(c, begun, Opened)) &&
            var r := Step(c, Step(c, begun, Opened), HandshakeDone);
            |r.conns| == |b.conns| + 1 && r.writer == r.frame == Some(|b.conns|) &&
            r.conns[|b.conns|] == Conn(noise, true, 0, [], []) && r.conns[..|b.conns|] == b.conns
  {
  }

  /** After a stop nobody listens ever again, and no connection is begun. */
  lemma {:induction false} StopIsFinal(c: Cipher, events: seq<Event>, more: seq<Event>)
    ensures Idle(Run(c, events + [Stop] + more)) &&
            |Run(c, events + [Stop] + more).conns| == |Run(c, events).conns|
    decreases |more|
  {
    if more == [] {
      assert events + [Stop] + more == events + [Stop];
      RunNext(c, events, Stop);
      D.ClientSignalsKeep(Run(c, events).client);
    } else {
      var m := |more| - 1;
      var before := events + [Stop] + more[..m];
      StopIsFinal(c, events, more[..m]);
      RunNext(c, before, more[m]);
      IdleStays(c, Run(c, before), more[m]);
      assert before + [more[m]] == events + [Stop] + more;
    }
  }

  predicate Idle(b: Bridge)
  {
    b.stopped && !b.client.connected && b.client.live == {}
  }

  lemma IdleStays(c: Cipher, b: Bridge, e: Event)
    requires WellFormed(b) && Idle(b)
    ensures Idle(Step(c, b, e)) && |Step(c, b, e).conns| == |b.conns|
  {
  }

  // ── The server object ─────────────────────────────────────────────────────

  class EsphomeApiServer {
    const dispatcher: D.PacketDispatcher
    const cipher: Cipher
    var conns: seq<Conn>
    var writer: Option<nat>
    var frame: Option<nat>
    var locked: bool
    var waiters: seq<Out>
    var running: bool

    constructor (cipher: Cipher, dispatcher: D.PacketDispatcher)
      requires dispatcher.AsClient() == D.NO_CLIENT
      ensures this.dispatcher == dispatcher && this.cipher == cipher && State() == CREATED
    {
      this.cipher, this.dispatcher := cipher, dispatcher;
      conns, writer, frame, locked, waiters, running := [], None, None, false, [], true;
    }

    function State(): Bridge
      reads this, dispatcher
    {
      Bridge(conns, writer, frame, locked, waiters, !running, dispatcher.AsClient())
    }

    method BeginConnection(noise: bool)
      requires WellFormed(State()) && running && frame.None?
      modifies this`conns, this`frame
      ensures State() == Step(cipher, old(State()), Begin(noise))
    {
      conns := conns + [Conn(noise, false, 0, [], [])];
      frame := Some(|conns| - 1);
    }

    method ConnectionOpened()
      requires WellFormed(State()) && frame.Some?
      modifies this`writer
      ensures State() == Step(cipher, old(State()), Opened)
    {
      writer := frame;
    }

    method HandshakeFinished()
      requires WellFormed(State()) && writer.Some?
      modifies this`conns
      ensures State() == Step(cipher, old(State()), HandshakeDone)
    {
      conns := conns[writer.value := conns[writer.value].(handshaken := true)];
    }

    method SessionBegins()
      requires WellFormed(State()) && writer.Some? && running && dispatcher as object != this
      modifies dispatcher
      ensures State() == Step(cipher, old(State()), SessionUp)
    {
      dispatcher.OnBleClientConnected();
    }

    /** Up to the first suspension; the result says whether encoding raised. */
    method SendMessage(msgType: nat, payload: bytes) returns (raised: bool)
      requires WellFormed(State())
      modifies this`conns, this`locked, this`waiters
      ensures State() == AfterSend(cipher, old(State()), Received(msgType, payload))
      ensures raised <==> old(writer).Some? && old(frame).Some? &&
                          EncodeOn(cipher, old(conns)[old(frame).value], Received(msgType, payload)).result.Failed?
    {
      if writer.None? || frame.None? {
        return false;
      }
      var k := frame.value;
      var m := Received(msgType, payload);
      var nonce := conns[k].nonce;
      var e := EncodeOn(cipher, conns[k], m);
      if e.advanced {
        var entry := if e.result.Frame? then Sealed(m) else Burned;
        conns := conns[k := conns[k].(nonce := nonce + 1, log := conns[k].log + [entry])];
      }
      if e.result.Failed? {
        return true;
      }
      var out := Out(k, writer.value, nonce, m, e.result.bytes);
      if !locked && waiters == [] {
        locked := true;
        conns := conns[out.to := conns[out.to].(wire := conns[out.to].wire + [out])];
      } else {
        waiters := waiters + [out];
      }
      return false;
    }

    method ReleaseLock()
      requires WellFormed(State())
      modifies this`locked
      ensures State() == Step(cipher, old(State()), DrainDone)
    {
      locked := false;
    }

    method ResumeWaiter()
      requires WellFormed(State()) && !locked && waiters != []
      modifies this`conns, this`locked, this`waiters
      ensures State() == Step(cipher, old(State()), Resume)
    {
      var out := waiters[0];
      waiters := waiters[1..];
      locked := true;
      conns := conns[out.to := conns[out.to].(wire := conns[out.to].wire + [out])];
    }

    method EndConnection()
      requires WellFormed(State()) && dispatcher as object != this
      modifies this`writer, this`frame, dispatcher
      ensures State() == Step(cipher, old(State()), End)
    {
      dispatcher.OnBleClientDisconnected();
      writer := None;
      frame := None;
    }

    method StopRequested()
      requires WellFormed(State()) && dispatcher as object != this
      modifies this`running, dispatcher
      ensures State() == Step(cipher, old(State()), Stop)
    {
      running := false;
      dispatcher.OnBleClientDisconnected();
    }
  }
}
