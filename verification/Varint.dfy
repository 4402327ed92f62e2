/** Protobuf varints and the plaintext ESPHome framing (esphome_server.py). */
module Varint {
  import opened Bytes
  import opened Streams

  // ── Varints ───────────────────────────────────────────────────────────────

  function VarintBytes(n: nat): (r: bytes)
    ensures |r| > 0
  {
    if n > 0x7F then [n % 0x80 + 0x80] + VarintBytes(n / 0x80) else [n]
  }

  lemma OneGroupOut(out: bytes, value: nat)
    requires value > 0x7F
    ensures out + VarintBytes(value) == out + [value % 0x80 + 0x80] + VarintBytes(value / 0x80)
  {
  }

  method EncodeVarint(n: nat) returns (out: bytes)
    ensures out == VarintBytes(n)
  {
    out := [];
    var value := n;
    while value > 0x7F
      invariant out + VarintBytes(value) == VarintBytes(n)
    {
      OneGroupOut(out, value);
      out := out + [value % 0x80 + 0x80];
      value := value / 0x80;
    }
    out := out + [value % 0x80];
  }

  datatype VarintRead = Value(n: nat, used: nat) | VarintIncomplete | VarintTooLarge

  const MAX_GROUPS: nat := 10

  /** Read one varint of at most `limit` bytes, least significant group first. */
  function ReadVarint(s: bytes, limit: nat := MAX_GROUPS): (r: VarintRead)
    requires limit > 0
    ensures r.Value? ==> 0 < r.used <= |s|
    decreases limit, |s|
  {
    if s == [] then VarintIncomplete
    else if s[0] < 0x80 then Value(s[0], 1)
    else if limit == 1 then VarintTooLarge
    else Continued(s[0] - 0x80, ReadVarint(s[1..], limit - 1))
  }

  /** group << shift */
  function Shifted(group: nat, shift: nat): nat
  {
    group * Pow2(shift)
  }

  /** value | other */
  function OrNat(a: nat, b: nat): nat
  {
    if a == 0 && b == 0 then 0
    else 2 * OrNat(a / 2, b / 2) + if a % 2 == 1 || b % 2 == 1 then 1 else 0
  }

  lemma {:induction false} OrZero(b: nat)
    ensures OrNat(0, b) == b
  {
    if b == 0 {
    } else {
      OrZero(b / 2);
    }
  }

  /** No bit of a value below 2^shift reaches a group shifted that far: the bitwise or is a sum. */
  lemma {:induction false} OrDisjoint(value: nat, group: nat, shift: nat)
    requires value < Pow2(shift)
    ensures OrNat(value, Shifted(group, shift)) == WithGroup(value, group, shift)
  {
    if shift == 0 {
      OrZero(group);
    } else {
      var h := group * Pow2(shift - 1);
      assert group * Pow2(shift) == 2 * h;
      OrDisjoint(value / 2, group, shift - 1);
    }
  }

  lemma StaysBelow(value: nat, group: nat, shift: nat)
    requires value < Pow2(shift) && group < 0x80
    ensures WithGroup(value, group, shift) < Pow2(shift + 7)
  {
    Pow2Seven(shift);
    assert group * Pow2(shift) <= 0x7F * Pow2(shift);
  }

  function WithGroup(value: nat, group: nat, shift: nat): nat
  {
    value + group * Pow2(shift)
  }

  /** The result of a read whose first i groups gave `value`, the rest still to be read. */
  function After(value: nat, shift: nat, i: nat, rest: VarintRead): VarintRead
  {
    match rest
    case Value(n, used) => Value(WithGroup(value, n, shift), i + used)
    case other => other
  }

  /** After i continued groups: what the whole read gives in terms of the rest of it. */
  predicate SoFar(s: bytes, value: nat, shift: nat, i: nat)
    requires i < 10 && i <= |s|
  {
    shift == 7 * i && ReadVarint(s) == After(value, shift, i, ReadVarint(s[i..], 10 - i))
  }

  /** That, with the rest of the stream. */
  predicate Reading(s: bytes, value: nat, shift: nat, i: nat, rest: bytes)
  {
    i < 10 && i <= |s| && rest == s[i..] && value < Pow2(shift) && SoFar(s, value, shift, i)
  }

  lemma ReadingBegins(s: bytes)
    ensures Reading(s, 0, 0, 0, s)
  {
    assert s[0..] == s;
    match ReadVarint(s)
    case Value(n, _) => assert WithGroup(0, n, 0) == n;
    case _ =>
  }

  lemma GroupRead(s: bytes, value: nat, shift: nat, i: nat, rest: bytes)
    requires Reading(s, value, shift, i, rest) && rest != []
    ensures var next := WithGroup(value, rest[0] % 0x80, shift);
            (rest[0] < 0x80 ==> ReadVarint(s) == Value(next, shift / 7 + 1) && s[shift / 7 + 1..] == rest[1..]) &&
            (rest[0] >= 0x80 && shift + 7 > 63 ==> ReadVarint(s) == VarintTooLarge) &&
            (rest[0] >= 0x80 && shift + 7 <= 63 ==> Reading(s, next, shift + 7, i + 1, rest[1..])) &&
            OrNat(value, Shifted(rest[0] % 0x80, shift)) == next
  {
    GroupOred(value, rest[0], shift);
    NextGroup(value, shift, s, i);
    Advance(s, i);
  }

  lemma GroupOred(value: nat, b: byte, shift: nat)
    requires value < Pow2(shift)
    ensures var next := WithGroup(value, b % 0x80, shift);
            OrNat(value, Shifted(b % 0x80, shift)) == next < Pow2(shift + 7)
  {
    OrDisjoint(value, b % 0x80, shift);
    StaysBelow(value, b % 0x80, shift);
  }

  lemma ReadingOver(s: bytes, value: nat, shift: nat, i: nat, rest: bytes)
    requires Reading(s, value, shift, i, rest) && rest == []
    ensures ReadVarint(s) == VarintIncomplete
  {
  }

  method ReadVarintFrom(reader: StreamReader) returns (r: VarintRead)
    requires reader.Valid()
    modifies reader`pos
    ensures reader.Valid()
    ensures r == ReadVarint(old(reader.Rest()))
    ensures r.Value? ==> reader.Rest() == old(reader.Rest())[r.used..]
  {
    ghost var s := reader.Rest();
    ghost var i := 0;
    var value: nat, shift: nat := 0, 0;
    ReadingBegins(s);
    while true
      invariant reader.Valid() && Reading(s, value, shift, i, reader.Rest())
      decreases 10 - i
    {
      ghost var rest := reader.Rest();
      var got := reader.ReadExactly(1);
      if got.None? {
        ReadingOver(s, value, shift, i, rest);
        return VarintIncomplete;
      }
      GroupRead(s, value, shift, i, rest);
      var byte: nat := got.value[0];
      value := OrNat(value, Shifted(byte % 0x80, shift));
      if byte < 0x80 {
        return Value(value, shift / 7 + 1);
      }
      shift, i := shift + 7, i + 1;
      if shift > 63 {
        return VarintTooLarge;
      }
    }
  }

  lemma NextGroup(value: nat, shift: nat, s: bytes, i: nat)
    requires i < 10 && i < |s|
    ensures var r, next := ReadVarint(s[i..], 10 - i), WithGroup(value, s[i] % 0x80, shift);
            (s[i] < 0x80 ==> After(value, shift, i, r) == Value(next, i + 1)) &&
            (s[i] >= 0x80 && i == 9 ==> After(value, shift, i, r) == VarintTooLarge) &&
            (s[i] >= 0x80 && i < 9 ==>
              After(value, shift, i, r) == After(next, shift + 7, i + 1, ReadVarint(s[i + 1..], 9 - i)))
  {
    ReadOn(s, i, 10 - i);
    SevenBits(s[i]);
    if s[i] >= 0x80 && i < 9 {
      MoreGroups(value, shift, i, s[i] - 0x80, ReadVarint(s[i + 1..], 9 - i));
    }
  }

  lemma ReadOn(s: bytes, i: nat, limit: nat)
    requires i < |s| && limit > 0
    ensures ReadVarint(s[i..], limit) ==
              if s[i] < 0x80 then Value(s[i], 1)
              else if limit == 1 then VarintTooLarge
              else Continued(s[i] - 0x80, ReadVarint(s[i + 1..], limit - 1))
  {
    assert s[i..][1..] == s[i + 1..];
  }

  lemma SevenBits(b: byte)
    ensures b as int % 0x80 == if b < 0x80 then b as int else b - 0x80
  {
  }

  /** A byte with the top bit set in front of the varint read from what follows it. */
  function Continued(low: nat, rest: VarintRead): VarintRead
  {
    match rest
    case Value(n, used) => Value(low + 0x80 * n, used + 1)
    case other => other
  }

  lemma MoreGroups(value: nat, shift: nat, i: nat, low: nat, rest: VarintRead)
    ensures After(value, shift, i, Continued(low, rest))
         == After(WithGroup(value, low, shift), shift + 7, i + 1, rest)
  {
    match rest
    case Value(n, used) => GroupsAdd(value, low, n, shift);
    case _ =>
  }

  lemma Advance(s: bytes, i: nat)
    requires i < |s|
    ensures s[i..][..1] == [s[i]] && s[i..][1..] == s[i + 1..]
  {
  }

  lemma Pow2Seven(k: nat)
    ensures Pow2(k + 7) == 0x80 * Pow2(k)
  {
    assert Pow2(k + 7) == 2 * Pow2(k + 6) == 4 * Pow2(k + 5);
    assert Pow2(k + 5) == 2 * Pow2(k + 4) == 4 * Pow2(k + 3);
    assert Pow2(k + 3) == 2 * Pow2(k + 2) == 4 * Pow2(k + 1);
  }

  lemma GroupsAdd(value: nat, low: nat, n: nat, shift: nat)
    ensures WithGroup(value, low + 0x80 * n, shift) == WithGroup(WithGroup(value, low, shift), n, shift + 7)
  {
    Pow2Seven(shift);
    Distribute(Pow2(shift), low, n);
  }

  lemma Distribute(p: nat, low: nat, n: nat)
    ensures (low + 0x80 * n) * p == low * p + n * (0x80 * p)
  {
  }

  /** n fits in k groups of seven bits. */
  predicate FitsGroups(n: nat, k: nat)
  {
    if k == 0 then n == 0 else FitsGroups(n / 0x80, k - 1)
  }

  /** 2^7k */
  function Capacity(k: nat): nat
  {
    if k == 0 then 1 else 0x80 * Capacity(k - 1)
  }

  lemma {:induction false} FitsCapacity(n: nat, k: nat)
    ensures FitsGroups(n, k) <==> n < Capacity(k)
  {
    if k == 0 {
    } else {
      FitsCapacity(n / 0x80, k - 1);
    }
  }

  lemma {:induction false} VarintReadBack(n: nat, tail: bytes, limit: nat)
    requires limit > 0
    ensures ReadVarint(VarintBytes(n) + tail, limit)
         == if FitsGroups(n, limit) then Value(n, |VarintBytes(n)|) else VarintTooLarge
    decreases limit
  {
    if n <= 0x7F {
      ZeroFits(limit - 1);
    } else {
      var rest := VarintBytes(n / 0x80) + tail;
      GroupFirst(n, tail);
      Headed(n % 0x80 + 0x80, rest, limit);
      if limit == 1 {
        assert !FitsGroups(n / 0x80, 0);
      } else {
        VarintReadBack(n / 0x80, tail, limit - 1);
      }
    }
  }

  lemma GroupFirst(n: nat, tail: bytes)
    requires n > 0x7F
    ensures VarintBytes(n) + tail == [n % 0x80 + 0x80] + (VarintBytes(n / 0x80) + tail)
  {
  }

  lemma Headed(b: byte, rest: bytes, limit: nat)
    requires limit > 0 && b >= 0x80
    ensures ReadVarint([b] + rest, limit) ==
              if limit == 1 then VarintTooLarge else Continued(b - 0x80, ReadVarint(rest, limit - 1))
  {
    assert ([b] + rest)[1..] == rest;
  }

  lemma {:induction false} ZeroFits(k: nat)
    ensures FitsGroups(0, k)
  {
    if k == 0 {
    } else {
      ZeroFits(k - 1);
    }
  }

  /** 2^70 */
  const BOUND := 0x40_0000_0000_0000_0000

  /** Reading inverts encoding below 2^70, leaving what follows unread, and fails from there on. */
  lemma VarintRoundTrip(n: nat, tail: bytes)
    ensures n < BOUND ==> ReadVarint(VarintBytes(n) + tail) == Value(n, |VarintBytes(n)|)
    ensures n >= BOUND ==> ReadVarint(VarintBytes(n) + tail) == VarintTooLarge
  {
    VarintReadBack(n, tail, MAX_GROUPS);
    FitsCapacity(n, MAX_GROUPS);
    assert Capacity(10) == BOUND;
  }

  lemma LongerByOne(low: nat, n: nat)
    requires low < 0x80
    ensures |VarintBytes(low + 0x80 * n)| <= 1 + |VarintBytes(n)|
  {
    if n > 0 {
      assert (low + 0x80 * n) / 0x80 == n;
    }
  }

  /** No byte string that reads as n is shorter than its encoding. */
  lemma {:induction false} VarintShortest(s: bytes, limit: nat)
    requires limit > 0 && ReadVarint(s, limit).Value?
    ensures ReadVarint(s, limit).used >= |VarintBytes(ReadVarint(s, limit).n)|
    decreases limit
  {
    if s[0] >= 0x80 {
      VarintShortest(s[1..], limit - 1);
      LongerByOne(s[0] - 0x80, ReadVarint(s[1..], limit - 1).n);
    }
  }

  /** Every one of the first n bytes says that more follow. */
  predicate AllContinue(s: bytes, n: nat)
  {
    n <= |s| && forall i :: 0 <= i < n ==> s[i] >= 0x80
  }

  /** A read fails exactly on ten bytes that all say more follows, or on fewer that are all there is. */
  lemma ReadVarintFailsIff(s: bytes)
    ensures ReadVarint(s) == VarintTooLarge <==> AllContinue(s, 10)
    ensures ReadVarint(s) == VarintIncomplete <==> |s| < 10 && AllContinue(s, |s|)
  {
    ReadFailsIff(s, MAX_GROUPS);
  }

  lemma {:induction false} ReadFailsIff(s: bytes, limit: nat)
    requires limit > 0
    ensures ReadVarint(s, limit) == VarintTooLarge <==> AllContinue(s, limit)
    ensures ReadVarint(s, limit) == VarintIncomplete <==> |s| < limit && AllContinue(s, |s|)
    decreases limit
  {
    if s != [] && s[0] >= 0x80 && limit > 1 {
      ReadFailsIff(s[1..], limit - 1);
      ContinueFirst(s, limit);
      ContinueFirst(s, |s|);
    }
  }

  lemma ContinueFirst(s: bytes, n: nat)
    requires s != [] && n > 0 && s[0] >= 0x80
    ensures AllContinue(s, n) <==> AllContinue(s[1..], n - 1)
  {
    if AllContinue(s[1..], n - 1) {
      forall i | 0 <= i < n
        ensures s[i] >= 0x80
      {
        assert i > 0 ==> s[i] == s[1..][i - 1];
      }
    }
  }

  // ── Plaintext frames ──────────────────────────────────────────────────────

  function PlainFrame(msgType: nat, payload: bytes): bytes
  {
    [0x00] + VarintBytes(|payload|) + VarintBytes(msgType) + payload
  }

  datatype Received = Received(msgType: nat, payload: bytes)

  datatype PlainRead = Got(message: Received, used: nat) | PlainIncomplete | PlainTooLarge | BadPreamble

  function ReadPlain(s: bytes): (r: PlainRead)
    ensures r.Got? ==> 0 < r.used <= |s|
  {
    if s == [] then PlainIncomplete
    else if s[0] != 0x00 then BadPreamble
    else
      match ReadVarint(s[1..])
      case VarintIncomplete => PlainIncomplete
      case VarintTooLarge => PlainTooLarge
      case Value(size, n) => PlainAfterSize(s, 1 + n, size)
  }

  /** The frame s once its size is read: type and payload from `at` on. */
  function PlainAfterSize(s: bytes, at: nat, size: nat): (r: PlainRead)
    requires at <= |s|
    ensures r.Got? ==> at < r.used <= |s|
  {
    match ReadVarint(s[at..])
    case VarintIncomplete => PlainIncomplete
    case VarintTooLarge => PlainTooLarge
    case Value(msgType, n) =>
      var start := at + n;
      if start + size > |s| then PlainIncomplete
      else Got(Received(msgType, s[start..start + size]), start + size)
  }

  method ReadPlainFrom(reader: StreamReader) returns (r: PlainRead)
    requires reader.Valid()
    modifies reader`pos
    ensures reader.Valid()
    ensures r == ReadPlain(old(reader.Rest()))
    ensures r.Got? ==> reader.Rest() == old(reader.Rest())[r.used..]
  {
    ghost var s := reader.Rest();
    var preamble := reader.ReadExactly(1);
    if preamble.None? {
      return PlainIncomplete;
    }
    Advance(s, 0);
    if preamble.value[0] != 0x00 {
      return BadPreamble;
    }
    var size := ReadVarintFrom(reader);
    match size
    case VarintIncomplete => return PlainIncomplete;
    case VarintTooLarge => return PlainTooLarge;
    case Value(length, n) =>
      assert s[1..][n..] == s[1 + n..];
      r := ReadPlainAfterSize(reader, s, 1 + n, length);
  }

  method ReadPlainAfterSize(reader: StreamReader, ghost s: bytes, at: nat, size: nat) returns (r: PlainRead)
    requires reader.Valid() && at <= |s| && reader.Rest() == s[at..]
    modifies reader`pos
    ensures reader.Valid()
    ensures r == PlainAfterSize(s, at, size)
    ensures r.Got? ==> reader.Rest() == s[r.used..]
  {
    var kind := ReadVarintFrom(reader);
    match kind
    case VarintIncomplete => return PlainIncomplete;
    case VarintTooLarge => return PlainTooLarge;
    case Value(msgType, n) =>
      PayloadNext(s, at, n, size);
      var data := reader.ReadExactly(size);
      return if data.Some? then Got(Received(msgType, data.value), at + n + size) else PlainIncomplete;
  }

  lemma PayloadNext(s: bytes, at: nat, n: nat, length: nat)
    requires at + n <= |s|
    ensures s[at..][n..] == s[at + n..]
    ensures at + n + length <= |s| ==>
              s[at + n..][..length] == s[at + n..at + n + length] && s[at + n..][length..] == s[at + n + length..]
  {
  }

  function ReadPlainAll(s: bytes): seq<Received>
    decreases |s|
  {
    var r := ReadPlain(s);
    if r.Got? then [r.message] + ReadPlainAll(s[r.used..]) else []
  }

  predicate Encodable(m: Received)
  {
    m.msgType < BOUND && |m.payload| < BOUND
  }

  lemma PlainFromParts(s: bytes, size: nat, n1: nat, msgType: nat, n2: nat)
    requires s != [] && s[0] == 0x00 && 1 + n1 + n2 + size <= |s| && n1 > 0 && n2 > 0
    requires ReadVarint(s[1..]) == Value(size, n1) && ReadVarint(s[1 + n1..]) == Value(msgType, n2)
    ensures var start := 1 + n1 + n2;
            ReadPlain(s) == Got(Received(msgType, s[start..start + size]), start + size)
  {
  }

  lemma PlainReadBack(m: Received, tail: bytes)
    requires Encodable(m)
    ensures var f := PlainFrame(m.msgType, m.payload);
            ReadPlain(f + tail) == Got(m, |f|) && (f + tail)[|f|..] == tail
  {
    var v1, v2, p := VarintBytes(|m.payload|), VarintBytes(m.msgType), m.payload;
    var s := PlainFrame(m.msgType, p) + tail;
    PlainHeader(s, m.msgType, p, tail);
    PlainPayload(v1, v2, p, tail);
    PlainFromParts(s, |p|, |v1|, m.msgType, |v2|);
  }

  lemma PlainHeader(s: bytes, msgType: nat, p: bytes, tail: bytes)
    requires s == PlainFrame(msgType, p) + tail && msgType < BOUND && |p| < BOUND
    ensures var n1 := |VarintBytes(|p|)|;
            n1 < |s| && ReadVarint(s[1..]) == Value(|p|, n1) &&
            ReadVarint(s[1 + n1..]) == Value(msgType, |VarintBytes(msgType)|)
  {
    var v1, v2 := VarintBytes(|p|), VarintBytes(msgType);
    assert s == [0x00] + v1 + v2 + (p + tail);
    PlainSuffixes(v1, v2, p + tail, s);
    VarintAt(s, 1, |p|, v2 + (p + tail));
    VarintAt(s, 1 + |v1|, msgType, p + tail);
  }

  lemma PlainSuffixes(v1: bytes, v2: bytes, rest: bytes, s: bytes)
    requires s == [0x00] + v1 + v2 + rest
    ensures s[1..] == v1 + (v2 + rest) && s[1 + |v1|..] == v2 + rest
  {
  }

  lemma VarintAt(s: bytes, at: nat, n: nat, tail: bytes)
    requires at <= |s| && s[at..] == VarintBytes(n) + tail && n < BOUND
    ensures ReadVarint(s[at..]) == Value(n, |VarintBytes(n)|)
  {
    VarintRoundTrip(n, tail);
  }

  lemma PlainPayload(v1: bytes, v2: bytes, p: bytes, tail: bytes)
    ensures var f := [0x00] + v1 + v2 + p;
            var s, start := f + tail, 1 + |v1| + |v2|;
            s[0] == 0x00 && |f| == start + |p| && s[start..start + |p|] == p && s[|f|..] == tail
  {
    var f := [0x00] + v1 + v2 + p;
    var s, start := f + tail, 1 + |v1| + |v2|;
    assert s[start..start + |p|] == p;
  }

  /** The groups go low end first, the top bit saying that more follow. */
  lemma VarintLayout(n: nat)
    ensures n < 128 ==> VarintBytes(n) == [n]
    ensures 128 <= n < 16384 ==> VarintBytes(n) == [n % 128 + 128, n / 128]
  {
    if 128 <= n < 16384 {
      assert n / 0x80 <= 0x7F;
    }
  }

  /** A short message: a zero byte, its length, its type, its payload. */
  lemma PlainLayout(msgType: nat, payload: bytes)
    requires msgType < 128 && |payload| < 128
    ensures PlainFrame(msgType, payload) == [0x00, |payload|, msgType] + payload
  {
    VarintLayout(|payload|);
    VarintLayout(msgType);
  }

  function PlainStream(messages: seq<Received>): bytes
  {
    if messages == [] then []
    else PlainFrame(messages[0].msgType, messages[0].payload) + PlainStream(messages[1..])
  }

  /** A stream of plaintext frames is read back message by message. */
  lemma {:induction false} PlainStreamReadBack(messages: seq<Received>)
    requires forall i :: 0 <= i < |messages| ==> Encodable(messages[i])
    ensures ReadPlainAll(PlainStream(messages)) == messages
  {
    if messages == [] {
    } else {
      PlainReadBack(messages[0], PlainStream(messages[1..]));
      PlainStreamReadBack(messages[1..]);
    }
  }
}
