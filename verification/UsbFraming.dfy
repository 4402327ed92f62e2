/** Length-prefixed framing of the USB stream and its resynchronising reader (protocol.py). */
module UsbFraming {
  import opened Bytes
  import opened Streams

  const MAX_FRAME := 0x100_0000
  const MAX_RESYNC := 4096

  /** struct.pack("!I", len(data)) + data; None when the length does not fit (struct.error). */
  function FrameForUsb(data: bytes): Option<bytes>
  {
    if |data| < 0x1_0000_0000 then Some(Framed(data)) else None
  }

  function Framed(data: bytes): (f: bytes)
    requires |data| < 0x1_0000_0000
    ensures |f| == 4 + |data|
  {
    Be32(|data|) + data
  }

  // ── What the reader is meant to find ──────────────────────────────────────

  /** The four bytes at offset k could be the length of a frame. */
  predicate Plausible(s: bytes, k: nat)
  {
    k + 4 <= |s| && 0 < Val32(s[k..k + 4]) <= MAX_FRAME
  }

  /** The least plausible offset at or after k. */
  function FirstPlausible(s: bytes, k: nat := 0): (o: Option<nat>)
    ensures o.Some? ==> k <= o.value && Plausible(s, o.value) && forall j :: k <= j < o.value ==> !Plausible(s, j)
    ensures o.None? ==> forall j :: k <= j ==> !Plausible(s, j)
    decreases |s| - k
  {
    if k + 4 > |s| then None
    else if Plausible(s, k) then Some(k)
    else FirstPlausible(s, k + 1)
  }

  lemma FirstIs(s: bytes, k: nat)
    requires Plausible(s, k) && forall j :: 0 <= j < k ==> !Plausible(s, j)
    ensures FirstPlausible(s) == Some(k)
  {
  }

  datatype Outcome = Frame(payload: bytes) | Incomplete | ResyncFailed

  datatype Read = Read(outcome: Outcome, used: nat)

  /** One frame read off the stream s: what is delivered and how many bytes are consumed. */
  function ReadFrame(s: bytes): (r: Read)
    ensures r.used <= |s|
  {
    var first := FirstPlausible(s);
    if first.Some? && first.value <= MAX_RESYNC then
      var start := first.value + 4;
      var length := Val32(s[first.value..start]);
      if start + length <= |s| then Read(Frame(s[start..start + length]), start + length)
      else Read(Incomplete, |s|)
    else if |s| >= MAX_RESYNC + 4 then
      Read(ResyncFailed, MAX_RESYNC + 4)
    else
      Read(Incomplete, |s|)
  }

  /** Four bytes of length, big-endian, and the message; no frame for a length that does not fit them. */
  lemma FrameLayout(data: bytes)
    ensures FrameForUsb(data).Some? <==> |data| < 0x1_0000_0000
    ensures FrameForUsb(data).Some? ==>
              var f := FrameForUsb(data).value;
              |f| == 4 + |data| && f[4..] == data &&
              0x100_0000 * f[0] as int + 0x1_0000 * f[1] as int + 0x100 * f[2] as int + f[3] as int == |data|
  {
    if |data| < 0x1_0000_0000 {
      Be32RoundTrip(|data|);
      assert Framed(data)[..4] == Be32(|data|);
    }
  }

  /** A length is plausible from 1 to 16777216. */
  lemma PlausibleIff(s: bytes, k: nat)
    ensures Plausible(s, k) <==>
            k + 4 <= |s| &&
            1 <= 0x100_0000 * s[k] as int + 0x1_0000 * s[k + 1] as int + 0x100 * s[k + 2] as int + s[k + 3] as int
              <= 16777216
  {
  }

  // ── The reader of the source ──────────────────────────────────────────────

  /** k offsets tried in vain: header is the window at offset k and rest what follows it. */
  predicate Searched(s: bytes, k: nat, header: bytes, rest: bytes)
  {
    k <= MAX_RESYNC && k + 4 <= |s| && header == s[k..k + 4] && rest == s[k + 4..] &&
    forall j :: 0 <= j < k ==> !Plausible(s, j)
  }

  lemma SearchBegins(s: bytes)
    requires |s| >= 4
    ensures Searched(s, 0, s[..4], s[4..])
  {
  }

  lemma HeaderFound(s: bytes, k: nat, header: bytes, rest: bytes)
    requires Searched(s, k, header, rest) && 0 < Val32(header) <= MAX_FRAME
    ensures var n, r := Val32(header), ReadFrame(s);
            r.outcome == (if n <= |rest| then Frame(rest[..n]) else Incomplete) &&
            s[r.used..] == if n <= |rest| then rest[n..] else []
  {
    FirstIs(s, k);
    var n := Val32(header);
    if n <= |rest| {
      Resliced(s, k + 4, n);
    }
  }

  lemma Resliced(s: bytes, k: nat, n: nat)
    requires k + n <= |s|
    ensures s[k..][..n] == s[k..k + n] && s[k..][n..] == s[k + n..]
  {
  }

  lemma SearchSlides(s: bytes, k: nat, header: bytes, rest: bytes)
    requires Searched(s, k, header, rest) && !(0 < Val32(header) <= MAX_FRAME) && k < MAX_RESYNC && rest != []
    ensures Searched(s, k + 1, header[1..] + rest[..1], rest[1..])
  {
    SlideWindow(s, k);
  }

  lemma SlideWindow(s: bytes, k: nat)
    requires k + 5 <= |s|
    ensures s[k..k + 4][1..] + s[k + 4..][..1] == s[k + 1..k + 5] && s[k + 4..][1..] == s[k + 5..]
  {
  }

  /** The last offset that may be tried, or the last the stream has, was in vain. */
  lemma SearchFails(s: bytes, k: nat, header: bytes, rest: bytes)
    requires Searched(s, k, header, rest) && !(0 < Val32(header) <= MAX_FRAME) && (k == MAX_RESYNC || rest == [])
    ensures ReadFrame(s).outcome == if k == MAX_RESYNC then ResyncFailed else Incomplete
    ensures s[ReadFrame(s).used..] == rest
  {
    assert forall j :: 0 <= j <= k ==> !Plausible(s, j);
  }

  method RfcommReadFrame(reader: StreamReader) returns (o: Outcome)
    requires reader.Valid()
    modifies reader`pos
    ensures reader.Valid()
    ensures o == ReadFrame(old(reader.Rest())).outcome
    ensures reader.Rest() == old(reader.Rest())[ReadFrame(old(reader.Rest())).used..]
  {
    ghost var s := reader.Rest();
    var got := reader.ReadExactly(4);
    if got.None? {
      return Incomplete;
    }
    var header := got.value;
    var skipped := 0;
    SearchBegins(s);
    while true
      invariant reader.Valid() && Searched(s, skipped, header, reader.Rest())
      decreases MAX_RESYNC - skipped
    {
      var length := Val32(header);
      ghost var rest := reader.Rest();
      if 0 < length <= MAX_FRAME {
        HeaderFound(s, skipped, header, rest);
        got := reader.ReadExactly(length);
        return if got.Some? then Frame(got.value) else Incomplete;
      }
      skipped := skipped + 1;
      if skipped > MAX_RESYNC {
        SearchFails(s, skipped - 1, header, rest);
        return ResyncFailed;
      }
      got := reader.ReadExactly(1);
      if got.None? {
        SearchFails(s, skipped - 1, header, rest);
        return Incomplete;
      }
      SearchSlides(s, skipped - 1, header, rest);
      header := header[1..] + got.value;
    }
  }

  // ── Exact behaviour of one read ───────────────────────────────────────────

  /** A frame is delivered exactly from the least plausible offset, if that is at most 4096. */
  lemma DeliversFirstPlausible(s: bytes, d: bytes)
    ensures ReadFrame(s).outcome == Frame(d) <==> exists k: nat :: k <= MAX_RESYNC && DeliversAt(s, k, d)
  {
    if k: nat :| k <= MAX_RESYNC && DeliversAt(s, k, d) {
      FirstIs(s, k);
    }
    if ReadFrame(s).outcome == Frame(d) {
      assert DeliversAt(s, FirstPlausible(s).value, d);
    }
  }

  /** Offset k is the first plausible one, and d is all of the frame it begins. */
  predicate DeliversAt(s: bytes, k: nat, d: bytes)
  {
    Plausible(s, k) && (forall j :: 0 <= j < k ==> !Plausible(s, j)) &&
    var n := Val32(s[k..k + 4]);
    k + 4 + n <= |s| && d == s[k + 4..k + 4 + n]
  }

  /** Resynchronisation is given up exactly when 4100 bytes hold no plausible length. */
  lemma GivesUpIff(s: bytes)
    ensures ReadFrame(s).outcome == ResyncFailed <==>
            |s| >= 4100 && forall k :: 0 <= k <= 4096 ==> !Plausible(s, k)
    ensures ReadFrame(s).outcome == ResyncFailed ==> ReadFrame(s).used == 4100
  {
    var first := FirstPlausible(s);
    if first.Some? && first.value <= 4096 {
      assert Plausible(s, first.value);
    }
  }

  // ── Whole streams ─────────────────────────────────────────────────────────

  /** The frames the bridge's reader loop delivers until the stream ends or is given up. */
  function ReadAll(s: bytes): seq<bytes>
    decreases |s|
  {
    var r := ReadFrame(s);
    if r.outcome.Frame? then [r.outcome.payload] + ReadAll(s[r.used..]) else []
  }

  /** Bytes that may stand before the frame of d without being mistaken for a header. */
  predicate Silent(g: bytes, d: bytes)
  {
    |g| <= MAX_RESYNC && 0 < |d| <= MAX_FRAME &&
    forall j :: 0 <= j < |g| ==> !Plausible(g + Be32(|d|), j)
  }

  datatype Item = Item(noise: bytes, message: bytes)

  predicate AllSilent(items: seq<Item>)
  {
    forall i :: 0 <= i < |items| ==> Silent(items[i].noise, items[i].message)
  }

  function Stream(items: seq<Item>): bytes
    requires AllSilent(items)
  {
    if items == [] then []
    else items[0].noise + Framed(items[0].message) + Stream(items[1..])
  }

  function Messages(items: seq<Item>): seq<bytes>
  {
    if items == [] then [] else [items[0].message] + Messages(items[1..])
  }

  lemma PlausibleInPrefix(a: bytes, b: bytes, j: nat)
    requires j + 4 <= |a|
    ensures Plausible(a + b, j) <==> Plausible(a, j)
  {
    assert (a + b)[j..j + 4] == a[j..j + 4];
  }

  lemma HeaderAt(g: bytes, d: bytes, tail: bytes)
    requires Silent(g, d)
    ensures var s := g + Framed(d) + tail;
            s[|g|..|g| + 4] == Be32(|d|) && s[|g| + 4..|g| + 4 + |d|] == d && s[|g| + 4 + |d|..] == tail &&
            Plausible(s, |g|) && forall j :: 0 <= j < |g| ==> !Plausible(s, j)
  {
    var s := g + Framed(d) + tail;
    Be32RoundTrip(|d|);
    assert s == (g + Be32(|d|)) + (d + tail);
    assert s[|g|..|g| + 4] == Be32(|d|);
    assert s[|g| + 4..|g| + 4 + |d|] == d;
    assert s[|g| + 4 + |d|..] == tail;
    forall j | 0 <= j < |g|
      ensures !Plausible(s, j)
    {
      PlausibleInPrefix(g + Be32(|d|), d + tail, j);
    }
  }

  lemma ReadsPastSilence(g: bytes, d: bytes, tail: bytes)
    requires Silent(g, d)
    ensures ReadFrame(g + Framed(d) + tail) == Read(Frame(d), |g| + 4 + |d|)
  {
    HeaderAt(g, d, tail);
    FirstIs(g + Framed(d) + tail, |g|);
    Be32RoundTrip(|d|);
  }

  /** A stream of frames, each behind silent noise, yields exactly its messages in order. */
  lemma {:induction false} StreamRecovered(items: seq<Item>, tail: bytes)
    requires AllSilent(items)
    ensures ReadAll(Stream(items) + tail) == Messages(items) + ReadAll(tail)
  {
    if items == [] {
      assert Stream(items) + tail == tail;
    } else {
      var rest := Stream(items[1..]) + tail;
      Associate(items[0].noise, Framed(items[0].message), Stream(items[1..]), tail);
      ReadAllStep(items[0].noise, items[0].message, rest);
      StreamRecovered(items[1..], tail);
    }
  }

  lemma Associate(a: bytes, b: bytes, c: bytes, d: bytes)
    ensures a + b + c + d == a + b + (c + d)
  {
  }

  lemma ReadAllStep(g: bytes, d: bytes, rest: bytes)
    requires Silent(g, d)
    ensures ReadAll(g + Framed(d) + rest) == [d] + ReadAll(rest)
  {
    ReadsPastSilence(g, d, rest);
    HeaderAt(g, d, rest);
  }

  /** Boot-log text is silent: no byte below 2, at most 4096 of them. */
  lemma GarbageIsSilent(g: bytes, d: bytes)
    requires |g| <= MAX_RESYNC && 0 < |d| <= MAX_FRAME && forall i :: 0 <= i < |g| ==> g[i] >= 2
    ensures Silent(g, d)
  {
    var s := g + Be32(|d|);
    forall j | 0 <= j < |g|
      ensures !Plausible(s, j)
    {
      if j + 4 <= |s| {
        assert s[j..j + 4][0] == g[j];
      }
    }
  }

  function Zeros(z: nat): (g: bytes)
    ensures |g| == z && forall i :: 0 <= i < z ==> g[i] == 0
  {
    seq(z, _ => 0)
  }

  /** How many of the four length bytes stand between the first one that is not zero and the last. */
  function Excess(n: nat): (k: nat)
    requires 0 < n <= MAX_FRAME
    ensures k <= 3 && (k == 0 <==> n < 256)
  {
    if n < 0x100 then 0 else if n < 0x1_0000 then 1 else if n < 0x100_0000 then 2 else 3
  }

  /** n / 256^k */
  function Dropped(n: nat, k: nat): (r: nat)
    requires k <= 3
    ensures r <= n && (k == 0 ==> r == n)
  {
    if k == 0 then n else Dropped(n / 256, k - 1)
  }

  /**
   * How early the reader locks on behind z zero bytes: by the length bytes in excess of one, as far
   * as there are zeros to take their place.
   */
  function Early(z: nat, n: nat): (k: nat)
    requires 0 < n <= MAX_FRAME
    ensures k <= z && k <= 3
  {
    if Excess(n) <= z then Excess(n) else z
  }

  /** The length bytes that the early header leaves over. */
  function Spilt(n: nat, k: nat): (r: bytes)
    requires 0 < n <= MAX_FRAME && k <= 3
    ensures |r| == k
  {
    Be32(n)[4 - k..]
  }

  lemma Be32Bytes(n: nat)
    requires 0 < n <= MAX_FRAME
    ensures var h := Be32(n);
            h[0] == n / 0x100_0000 && h[1] == n / 0x1_0000 % 256 && h[2] == n / 0x100 % 256 && h[3] == n % 256
  {
    Be16Halves(n);
  }

  lemma Be16Halves(n: nat)
    requires n < 0x1_0000_0000
    ensures n / 0x1_0000 / 256 == n / 0x100_0000 && n % 0x1_0000 / 256 == n / 256 % 256
    ensures n % 0x1_0000 % 256 == n % 256
  {
  }

  /** The first three bytes of the length that are not significant are zero. */
  lemma LeadingZeros(n: nat, j: nat)
    requires 0 < n <= MAX_FRAME && j < 3 - Excess(n)
    ensures Be32(n)[j] == 0
  {
    Be32Bytes(n);
  }

  /** Reading k bytes early drops the last k bytes of the length. */
  lemma EarlyLength(n: nat, k: nat)
    requires 0 < n <= MAX_FRAME && k <= Excess(n)
    ensures var h := Be32(n);
            var w := Zeros(k) + h[..4 - k];
            Val32(w) == Dropped(n, k) > 0
  {
    Be32Bytes(n);
    var h := Be32(n);
    var w := Zeros(k) + h[..4 - k];
    if k == 0 {
      Be32RoundTrip(n);
      assert w == h;
    } else if k == 1 {
      assert w == [0, h[0], h[1], h[2]];
    } else if k == 2 {
      assert w == [0, 0, h[0], h[1]];
    } else {
      assert w == [0, 0, 0, h[0]];
    }
  }

  /** The padded stream, cut where the reader locks on. */
  lemma PaddedParts(z: nat, d: bytes, tail: bytes, k: nat)
    requires k <= z && k <= 3 && |d| < 0x1_0000_0000
    ensures var h := Be32(|d|);
            Zeros(z) + Framed(d) + tail ==
              Zeros(z - k) + (Zeros(k) + h[..4 - k]) + (h[4 - k..] + d + tail)
  {
    var h := Be32(|d|);
    assert Zeros(z) == Zeros(z - k) + Zeros(k);
    assert h == h[..4 - k] + h[4 - k..];
  }

  lemma WindowAt(a: bytes, w: bytes, b: bytes)
    requires |w| == 4
    ensures (a + w + b)[|a|..|a| + 4] == w && (a + w + b)[|a| + 4..] == b
  {
  }

  /** No window before the one the reader locks on to holds anything but zeros. */
  lemma EarlierWindowsZero(z: nat, d: bytes, tail: bytes, j: nat)
    requires 0 < |d| <= MAX_FRAME && j < z - Early(z, |d|)
    ensures !Plausible(Zeros(z) + Framed(d) + tail, j)
  {
    var s := Zeros(z) + Framed(d) + tail;
    forall i | j <= i < j + 4
      ensures s[i] == 0
    {
      if i >= z {
        LeadingZeros(|d|, i - z);
        assert s[i] == Be32(|d|)[i - z];
      }
    }
    var w := s[j..j + 4];
    assert w[0] == s[j] && w[1] == s[j + 1] && w[2] == s[j + 2] && w[3] == s[j + 3];
  }

  /**
   * Zero bytes before a frame: the reader locks on early by as many bytes as the length has in
   * excess of one. It then takes the leading bytes of the length for all of it and delivers that
   * many bytes of what follows. Only messages shorter than 256 bytes come out as they are.
   */
  lemma ZeroPadding(z: nat, d: bytes, tail: bytes)
    requires 0 < |d| <= MAX_FRAME && z <= MAX_RESYNC
    ensures var k := Early(z, |d|);
            var n := Dropped(|d|, k);
            0 < n <= |d| &&
            FirstPlausible(Zeros(z) + Framed(d) + tail) == Some(z - k) &&
            ReadFrame(Zeros(z) + Framed(d) + tail) == Read(Frame((Spilt(|d|, k) + d)[..n]), z - k + 4 + n)
    ensures z > 0 ==> (Early(z, |d|) == 0 <==> |d| < 256)
  {
    var k := Early(z, |d|);
    var n := Dropped(|d|, k);
    var s := Zeros(z) + Framed(d) + tail;
    var w := Zeros(k) + Be32(|d|)[..4 - k];
    PaddedParts(z, d, tail, k);
    EarlyLength(|d|, k);
    WindowAt(Zeros(z - k), w, Spilt(|d|, k) + d + tail);
    forall j | 0 <= j < z - k
      ensures !Plausible(s, j)
    {
      EarlierWindowsZero(z, d, tail, j);
    }
    FirstIs(s, z - k);
    DeliveredFrom(s, z - k, Spilt(|d|, k) + d, tail, n);
  }

  lemma DeliveredFrom(s: bytes, k: nat, body: bytes, tail: bytes, n: nat)
    requires k <= MAX_RESYNC && FirstPlausible(s) == Some(k) && s[k + 4..] == body + tail
    requires n == Val32(s[k..k + 4]) <= |body|
    ensures ReadFrame(s) == Read(Frame(body[..n]), k + 4 + n)
  {
    Resliced(s, k + 4, n);
    BodyTaken(body, tail, n);
  }

  lemma BodyTaken(body: bytes, tail: bytes, n: nat)
    requires n <= |body|
    ensures (body + tail)[..n] == body[..n] && n <= |body + tail|
  {
  }

  /** Which messages survive the zeros in front of them. */
  lemma PaddedSilent(z: nat, d: bytes)
    requires 1 <= z <= MAX_RESYNC && 0 < |d| <= MAX_FRAME
    ensures Silent(Zeros(z), d) <==> |d| < 256
  {
    var g, h := Zeros(z), Be32(|d|);
    ZeroPadding(z, d, []);
    var s := g + Framed(d) + [];
    assert s == g + h + d;
    forall j | 0 <= j < z
      ensures Plausible(g + h, j) <==> Plausible(s, j)
    {
      PlausibleInPrefix(g + h, d, j);
    }
  }

  lemma NothingFramed()
    ensures Framed([]) == Zeros(4)
  {
  }

  /** An empty frame is four zero bytes: a longer message behind it is misread by all its excess length bytes. */
  lemma EmptyFrame(d: bytes, tail: bytes)
    requires 0 < |d| <= MAX_FRAME
    ensures var k := Excess(|d|);
            var n := Dropped(|d|, k);
            ReadFrame(Framed([]) + Framed(d) + tail) == Read(Frame((Spilt(|d|, k) + d)[..n]), 8 - k + n) &&
            n < 256 && (|d| < 256 ==> ReadFrame(Framed([]) + Framed(d) + tail) == Read(Frame(d), 8 + |d|))
  {
    var z := |Framed([])|;
    NothingFramed();
    ZeroPadding(z, d, tail);
    LeadingByte(|d|);
    if |d| < 256 {
      Unspilt(Spilt(|d|, 0), d);
    }
  }

  lemma LeadingByte(n: nat)
    requires 0 < n <= MAX_FRAME
    ensures Dropped(n, Excess(n)) < 256
  {
  }

  lemma Unspilt(none: bytes, d: bytes)
    requires |none| == 0
    ensures (none + d)[..|d|] == d
  {
    assert none + d == d;
  }
}
