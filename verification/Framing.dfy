/** WebTransport framing: each body is preceded by its length as four big-endian bytes. */
module Framing {
  import opened Types
  import opened Frames
  import opened Wire

  const MAX_BODY: nat := 16 * 1024 * 1024

  function BigEndian(n: nat): (b: Bytes)
    ensures |b| == 4
  {
    [n / 256 / 256 / 256 % 256, n / 256 / 256 % 256, n / 256 % 256, n % 256]
  }

  function FromBigEndian(b: Bytes): nat
    requires |b| == 4
  {
    (b[0] as int) * 0x100_0000 + (b[1] as int) * 0x1_0000 + (b[2] as int) * 256 + b[3]
  }

  /** The length is written as a 32-bit number, whatever the length is. */
  function Framed(body: Bytes): Bytes { BigEndian(|body|) + body }

  function Stream(bodies: seq<Bytes>): Bytes {
    if bodies == [] then [] else Framed(bodies[0]) + Stream(bodies[1..])
  }

  /** The bodies a reader takes from a byte stream before it ends or announces too long a body. */
  function Bodies(s: Bytes): (r: seq<Bytes>)
    decreases |s|
  {
    if |s| < 4 then []
    else
      var n := FromBigEndian(s[..4]);
      if n > MAX_BODY || |s| - 4 < n then [] else [s[4..4 + n]] + Bodies(s[4 + n..])
  }

  /** The length read back is the length written exactly when it fits 32 bits. */
  lemma LengthReadsBack(n: nat)
    ensures FromBigEndian(BigEndian(n)) == n % 0x1_0000_0000
  {
    var a, b, c := n / 256, n / 256 / 256, n / 256 / 256 / 256;
    var r0: int, r1: int, r2: int, r3: int, d: int := n % 256, a % 256, b % 256, c % 256, c / 256;
    Digits(n, a, b, c, d, r0, r1, r2, r3);
    assert FromBigEndian([r3, r2, r1, r0]) == r3 * 0x100_0000 + r2 * 0x1_0000 + r1 * 256 + r0;
  }

  lemma Digits(n: int, a: int, b: int, c: int, d: int, r0: int, r1: int, r2: int, r3: int)
    requires n == 256 * a + r0 && a == 256 * b + r1 && b == 256 * c + r2 && c == 256 * d + r3
    requires 0 <= r0 < 256 && 0 <= r1 < 256 && 0 <= r2 < 256 && 0 <= r3 < 256
    ensures n % 0x1_0000_0000 == r3 * 0x100_0000 + r2 * 0x1_0000 + r1 * 256 + r0
  {
    var r := r3 * 0x100_0000 + r2 * 0x1_0000 + r1 * 256 + r0;
    assert n == 0x1_0000_0000 * d + r && 0 <= r < 0x1_0000_0000;
  }

  /** Lengths are written most significant byte first: a greater length has the greater byte where the two first differ. */
  lemma GreaterIsLater(m: nat, n: nat) returns (i: nat)
    requires m < n < 0x1_0000_0000
    ensures i < 4 && BigEndian(m)[..i] == BigEndian(n)[..i] && BigEndian(m)[i] < BigEndian(n)[i]
  {
    if m / 256 == n / 256 {
      i := 3;
    } else if m / 256 / 256 == n / 256 / 256 {
      i := 2;
    } else if m / 256 / 256 / 256 == n / 256 / 256 / 256 {
      i := 1;
    } else {
      i := 0;
    }
  }

  /** A framed body within the limit is read whole and what follows it is left. */
  lemma BodyReadsBack(body: Bytes, rest: Bytes)
    requires |body| <= MAX_BODY
    ensures Bodies(Framed(body) + rest) == [body] + Bodies(rest)
  {
    hide FromBigEndian, BigEndian;
    var s := Framed(body) + rest;
    LengthReadsBack(|body|);
    assert s[..4] == BigEndian(|body|);
    assert s[4..4 + |body|] == body && s[4 + |body|..] == rest;
  }

  predicate Fit(bodies: seq<Bytes>) { forall i :: 0 <= i < |bodies| ==> |bodies[i]| <= 0x100_0000 }

  /** What was written is read back, in order, and reading goes on after it. */
  lemma {:induction false} StreamRoundTrip(bodies: seq<Bytes>, rest: Bytes)
    requires Fit(bodies)
    ensures Bodies(Stream(bodies) + rest) == bodies + Bodies(rest)
  {
    hide Framed;
    if bodies == [] {
      assert Stream(bodies) + rest == rest;
    } else {
      assert Stream(bodies) + rest == Framed(bodies[0]) + (Stream(bodies[1..]) + rest);
      BodyReadsBack(bodies[0], Stream(bodies[1..]) + rest);
      StreamRoundTrip(bodies[1..], rest);
    }
  }

  /** The first body whose announced length is over the limit ends the reading, whatever comes after it. */
  lemma OversizeStops(bodies: seq<Bytes>, big: Bytes, rest: Bytes)
    requires Fit(bodies) && |big| % 0x1_0000_0000 > 0x100_0000
    ensures Bodies(Stream(bodies) + Framed(big) + rest) == bodies
  {
    hide FromBigEndian, BigEndian;
    StreamRoundTrip(bodies, Framed(big) + rest);
    assert Stream(bodies) + (Framed(big) + rest) == Stream(bodies) + Framed(big) + rest;
    LengthReadsBack(|big|);
    assert (Framed(big) + rest)[..4] == BigEndian(|big|);
  }

  /**
   * Otherwise a body is read as its first bytes, as many as its length modulo 2^32, and reading
   * goes on inside it; so it is read whole exactly when it is within the limit.
   */
  lemma AnnouncedPartIsRead(body: Bytes, rest: Bytes)
    requires |body| % 0x1_0000_0000 <= 0x100_0000
    ensures
      var n := |body| % 0x1_0000_0000;
      && n <= |body|
      && Bodies(Framed(body) + rest) == [body[..n]] + Bodies(body[n..] + rest)
      && (body[..n] == body <==> |body| <= 0x100_0000)
  {
    hide FromBigEndian, BigEndian;
    var s, n := Framed(body) + rest, |body| % 0x1_0000_0000;
    LengthReadsBack(|body|);
    assert s[..4] == BigEndian(|body|);
    assert s[4..4 + n] == body[..n] && s[4 + n..] == body[n..] + rest;
  }

  /** How many of the bodies lie whole within the first `k` bytes of their stream. */
  function Arrived(bodies: seq<Bytes>, k: int): (n: nat)
    ensures n <= |bodies|
  {
    if bodies == [] || k < |Framed(bodies[0])| then 0 else 1 + Arrived(bodies[1..], k - |Framed(bodies[0])|)
  }

  lemma {:induction false} ArrivedIsMaximal(bodies: seq<Bytes>, k: nat)
    ensures |Stream(bodies[..Arrived(bodies, k)])| <= k
    ensures Arrived(bodies, k) < |bodies| ==> k < |Stream(bodies[..Arrived(bodies, k) + 1])|
  {
    hide Framed;
    if bodies != [] {
      var first, n := Framed(bodies[0]), Arrived(bodies, k);
      if k < |first| {
        assert Stream(bodies[..1]) == first + Stream(bodies[..1][1..]);
      } else {
        ArrivedIsMaximal(bodies[1..], k - |first|);
        assert bodies[..n][1..] == bodies[1..][..n - 1];
        if n < |bodies| { assert bodies[..n + 1][1..] == bodies[1..][..n]; }
      }
    }
  }

  /** A stream cut anywhere yields exactly the bodies that had arrived whole. */
  lemma {:induction false} CutStream(bodies: seq<Bytes>, k: nat)
    requires Fit(bodies) && k <= |Stream(bodies)|
    ensures Bodies(Stream(bodies)[..k]) == bodies[..Arrived(bodies, k)]
  {
    hide Framed, Bodies;
    if bodies == [] {
      assert Stream(bodies)[..k] == [];
      NoBodies();
    } else {
      var first, tail := Framed(bodies[0]), bodies[1..];
      if k < |first| {
        CutHead(bodies[0], Stream(tail), k);
      } else {
        var rest := Stream(tail)[..k - |first|];
        CutStream(tail, k - |first|);
        assert Stream(bodies)[..k] == first + rest;
        BodyReadsBack(bodies[0], rest);
      }
    }
  }

  lemma NoBodies()
    ensures Bodies([]) == []
  {
  }

  lemma CutHead(body: Bytes, rest: Bytes, k: nat)
    requires |body| <= MAX_BODY && k < |Framed(body)|
    ensures Bodies((Framed(body) + rest)[..k]) == []
  {
    hide FromBigEndian, BigEndian;
    LengthReadsBack(|body|);
    var s := (Framed(body) + rest)[..k];
    if k >= 4 { assert s[..4] == BigEndian(|body|); }
  }

  // --------------------------------------------------------------------
  // The writer
  // --------------------------------------------------------------------

  lemma {:induction false} StreamSnoc(bodies: seq<Bytes>, body: Bytes)
    ensures Stream(bodies + [body]) == Stream(bodies) + Framed(body)
  {
    hide Framed;
    if bodies == [] {
      assert (bodies + [body])[1..] == [];
    } else {
      assert (bodies + [body])[1..] == bodies[1..] + [body];
      StreamSnoc(bodies[1..], body);
    }
  }

  function EncodedServer(frames: seq<ServerFrame>): seq<Bytes> {
    seq(|frames|, i requires 0 <= i < |frames| => EncodeServer(frames[i]))
  }

  /** The writer task drains the outbox in order, length first. */
  method WriteAll(frames: seq<ServerFrame>) returns (out: Bytes)
    ensures out == Stream(EncodedServer(frames))
  {
    hide EncodeServer, BigEndian;
    out := [];
    for i := 0 to |frames|
      invariant out == Stream(EncodedServer(frames[..i]))
    {
      var bytes := EncodeServer(frames[i]);
      out := out + BigEndian(|bytes|);
      out := out + bytes;
      StreamSnoc(EncodedServer(frames[..i]), bytes);
      assert EncodedServer(frames[..i + 1]) == EncodedServer(frames[..i]) + [bytes];
    }
    assert frames[..|frames|] == frames;
  }

  // --------------------------------------------------------------------
  // The reader, over a stream that arrives in chunks
  // --------------------------------------------------------------------

  class ChunkReader {
    var chunks: seq<Bytes>

    constructor (chunks: seq<Bytes>)
      ensures this.chunks == chunks
    {
      this.chunks := chunks;
    }

    /** Waits for exactly `n` bytes; fails if the stream ends first. */
    method ReadExact(n: nat) returns (r: Option<Bytes>)
      modifies this
      ensures r.Some? == (n <= |old(Flatten(chunks))|)
      ensures r.Some? ==> r.value == old(Flatten(chunks))[..n] && Flatten(chunks) == old(Flatten(chunks))[n..]
    {
      ghost var whole := Flatten(chunks);
      var got: Bytes := [];
      while |got| < n
        invariant |got| <= n && got + Flatten(chunks) == whole
        decreases |chunks|
      {
        if chunks == [] { return None; }
        var need, chunk := n - |got|, chunks[0];
        assert Flatten(chunks) == chunk + Flatten(chunks[1..]);
        if |chunk| <= need {
          assert got + (chunk + Flatten(chunks[1..])) == got + chunk + Flatten(chunks[1..]);
          got, chunks := got + chunk, chunks[1..];
        } else {
          ghost var rest := chunks[1..];
          assert chunk == chunk[..need] + chunk[need..];
          got, chunks := got + chunk[..need], [chunk[need..]] + chunks[1..];
          assert chunks[1..] == rest;
          assert got + Flatten(chunks) == whole;
          break;
        }
      }
      r := Some(got);
    }
  }

  /** Each body decoded in turn; the first that does not decode is the last that is looked at. */
  function Decoded(bodies: seq<Bytes>): seq<Result<ClientFrame, DecodeError>> {
    if bodies == [] then []
    else if DecodeClient(bodies[0]).Err? then [DecodeClient(bodies[0])]
    else [DecodeClient(bodies[0])] + Decoded(bodies[1..])
  }

  /** The read loop sees the frames of the whole stream, however it was cut into chunks. */
  method Serve(reader: ChunkReader) returns (seen: seq<Result<ClientFrame, DecodeError>>)
    modifies reader
    ensures seen == Decoded(Bodies(old(Flatten(reader.chunks))))
  {
    hide DecodeClient, FromBigEndian, Bodies, Decoded;
    seen := [];
    ghost var whole := Flatten(reader.chunks);
    assert seen + Decoded(Bodies(whole)) == Decoded(Bodies(whole));
    while true
      invariant Decoded(Bodies(whole)) == seen + Decoded(Bodies(Flatten(reader.chunks)))
      decreases |Flatten(reader.chunks)|
    {
      ghost var s, before := Flatten(reader.chunks), seen;
      BodiesOf(s);
      var prefix := reader.ReadExact(4);
      if prefix.None? { NoMore(seen); return; }
      var n := FromBigEndian(prefix.value);
      if n > MAX_BODY { NoMore(seen); return; }
      var body := reader.ReadExact(n);
      if body.None? { NoMore(seen); return; }
      assert s[4..][..n] == s[4..4 + n] && s[4..][n..] == s[4 + n..];
      var frame := DecodeClient(body.value);
      seen := seen + [frame];
      DecodesFirst(before, body.value, Bodies(Flatten(reader.chunks)));
      if frame.Err? { return; }
    }
  }

  /** What the reader takes next, if anything. */
  lemma BodiesOf(s: Bytes)
    ensures |s| < 4 ==> Bodies(s) == []
    ensures |s| >= 4 && (FromBigEndian(s[..4]) > MAX_BODY || |s| - 4 < FromBigEndian(s[..4])) ==> Bodies(s) == []
    ensures |s| >= 4 && FromBigEndian(s[..4]) <= MAX_BODY && |s| - 4 >= FromBigEndian(s[..4]) ==>
              var n := FromBigEndian(s[..4]);
              Bodies(s) == [s[4..4 + n]] + Bodies(s[4 + n..])
  {
    hide FromBigEndian;
  }

  lemma NoMore(seen: seq<Result<ClientFrame, DecodeError>>)
    ensures seen + Decoded([]) == seen
  {
  }

  lemma DecodesFirst(seen: seq<Result<ClientFrame, DecodeError>>, body: Bytes, rest: seq<Bytes>)
    ensures seen + Decoded([body] + rest)
         == if DecodeClient(body).Err? then seen + [DecodeClient(body)] else seen + [DecodeClient(body)] + Decoded(rest)
  {
    hide DecodeClient;
    assert ([body] + rest)[1..] == rest;
    assert seen + ([DecodeClient(body)] + Decoded(rest)) == seen + [DecodeClient(body)] + Decoded(rest);
  }

  // --------------------------------------------------------------------
  // End to end
  // --------------------------------------------------------------------

  function Encoded(frames: seq<ClientFrame>): seq<Bytes> {
    seq(|frames|, i requires 0 <= i < |frames| => EncodeClient(frames[i]))
  }

  function Accepted(frames: seq<ClientFrame>): seq<Result<ClientFrame, DecodeError>> {
    seq(|frames|, i requires 0 <= i < |frames| => Ok(frames[i]))
  }

  lemma {:induction false} DecodesAll(frames: seq<ClientFrame>)
    requires forall i :: 0 <= i < |frames| ==> ClientValid(frames[i])
    ensures Decoded(Encoded(frames)) == Accepted(frames)
  {
    hide EncodeClient, DecodeClient, ClientValid;
    if frames != [] {
      ClientRoundTrip(frames[0]);
      assert Encoded(frames)[1..] == Encoded(frames[1..]);
      assert Accepted(frames) == [Ok(frames[0])] + Accepted(frames[1..]);
      DecodesAll(frames[1..]);
    }
  }

  /** A client's frames, framed and sent in any chunks, reach the server as they were, in order. */
  lemma FramesArrive(frames: seq<ClientFrame>, chunks: seq<Bytes>)
    requires forall i :: 0 <= i < |frames| ==> ClientValid(frames[i])
    requires Fit(Encoded(frames)) && Flatten(chunks) == Stream(Encoded(frames))
    ensures Decoded(Bodies(Flatten(chunks))) == Accepted(frames)
  {
    hide ClientValid;
    StreamRoundTrip(Encoded(frames), []);
    assert Stream(Encoded(frames)) + [] == Stream(Encoded(frames)) && Bodies([]) == [];
    assert Encoded(frames) + [] == Encoded(frames);
    DecodesAll(frames);
  }
}
