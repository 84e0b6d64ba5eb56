/** The dependency-free codec of the browser demo, and its agreement with the server's. */
module Browser {
  import opened Types
  import opened Utf8
  import opened Protobuf
  import opened Frames
  import opened Wire

  /** A JavaScript number holds the whole numbers of 53 bits, times a power of two. */
  const SAFE: nat := 0x20_0000_0000_0000

  // --------------------------------------------------------------------
  // Writing
  // --------------------------------------------------------------------

  class ByteBuffer {
    var bytes: Bytes

    constructor ()
      ensures bytes == []
    {
      bytes := [];
    }

    method Push(b: byte)
      modifies this
      ensures bytes == old(bytes) + [b]
    {
      bytes := bytes + [b];
    }

    method WriteVarint(value: nat)
      modifies this
      ensures bytes == old(bytes) + Varint(value)
    {
      var v := value;
      while v >= 0x80
        invariant bytes + Varint(v) == old(bytes) + Varint(value)
      {
        ghost var before := bytes;
        assert before + Varint(v) == before + [v % 128 + 128] + Varint(v / 128);
        Push(v % 128 + 128);
        v := v / 128;
      }
      Push(v);
    }

    method PushAll(more: Bytes)
      modifies this
      ensures bytes == old(bytes) + more
    {
      var i := 0;
      while i < |more|
        invariant 0 <= i <= |more| && bytes == old(bytes) + more[..i]
      {
        Push(more[i]);
        i := i + 1;
      }
    }

    /** Strings, byte arrays and messages are all written, empty or not. */
    method EncodeDelimited(field: nat, value: Bytes)
      modifies this
      ensures bytes == old(bytes) + WriteField(field, Raw(value))
    {
      hide Varint;
      WriteVarint(field * 8 + 2);
      WriteVarint(|value|);
      PushAll(value);
    }

    method EncodeUint64(field: nat, value: nat)
      modifies this
      ensures bytes == old(bytes) + EncodeField(field, U64, Int(value))
    {
      hide Varint;
      if value == 0 { return; }
      WriteVarint(field * 8);
      WriteVarint(value);
    }
  }

  lemma ServerReadsTwo(schema: Schema, id: nat, channel: Channel, rest: Bytes, depth: nat)
    requires 2 <= |schema| <= MAX_TAG && schema[0] == U64 && schema[1] == Text
    requires Valid(U64, Int(id)) && Valid(Text, Raw(channel))
    ensures DecodeFields(schema, Defaults(schema), EncodeField(1, U64, Int(id)) + WriteField(2, Raw(channel)) + rest, depth)
         == DecodeFields(schema, Defaults(schema)[0 := Int(id)][1 := Raw(channel)], rest, depth)
  {
    hide DecodeFields, EncodeField, WriteField, ValidUtf8;
    var second := WriteField(2, Raw(channel)) + rest;
    FieldReadsBack(schema, Defaults(schema), 0, Int(id), second, depth);
    WrittenReadsBack(schema, Defaults(schema)[0 := Int(id)], 1, Raw(channel), rest, depth);
    assert EncodeField(1, U64, Int(id)) + second == EncodeField(1, U64, Int(id)) + WriteField(2, Raw(channel)) + rest;
  }

  lemma ServerReadsThree(id: nat, channel: Channel, data: Bytes, depth: nat)
    requires Valid(U64, Int(id)) && Valid(Text, Raw(channel)) && Valid(Blob, Raw(data))
    ensures DecodeFields(CLIENT[2], Defaults(CLIENT[2]),
                         EncodeField(1, U64, Int(id)) + WriteField(2, Raw(channel)) + WriteField(3, Raw(data)), depth)
         == Some([Int(id), Raw(channel), Raw(data)])
  {
    hide EncodeField, WriteField, ValidUtf8, ReadKey, ReadValue, Skip, SkipGroup;
    var rec := Defaults(CLIENT[2])[0 := Int(id)][1 := Raw(channel)];
    ServerReadsTwo(CLIENT[2], id, channel, WriteField(3, Raw(data)), depth);
    assert WriteField(3, Raw(data)) + [] == WriteField(3, Raw(data));
    WrittenReadsBack(CLIENT[2], rec, 2, Raw(data), [], depth);
    assert rec[2 := Raw(data)] == [Int(id), Raw(channel), Raw(data)];
  }

  /** Identifiers and lengths below 2^53 leave every body addressable. */
  lemma BodyFits(id: nat, channel: Channel, data: Bytes)
    requires id < SAFE && |channel| < SAFE && |data| < SAFE
    ensures |EncodeField(1, U64, Int(id)) + WriteField(2, Raw(channel)) + WriteField(3, Raw(data))| <= U64_MAX
  {
    hide WriteField;
    FieldLength(1, Int(id));
    FieldLength(2, Raw(channel));
    FieldLength(3, Raw(data));
  }

  lemma ServerReadsSubscribe(id: nat, channel: Channel)
    requires id < SAFE && ValidUtf8(channel) && |channel| < SAFE
    ensures DecodeClient(Envelope(1, EncodeField(1, U64, Int(id)) + WriteField(2, Raw(channel))))
         == Ok(Subscribe(id, channel, 0))
  {
    hide EncodeField, WriteField, ValidUtf8, DecodeOneof, Envelope, ReadKey, ReadValue, Skip, SkipGroup;
    var inner := EncodeField(1, U64, Int(id)) + WriteField(2, Raw(channel));
    BodyFits(id, channel, []);
    SealedOpens(CLIENT, 1, inner);
    ServerReadsTwo(CLIENT[0], id, channel, [], RECURSION_LIMIT - 1);
    assert inner + [] == inner;
  }

  lemma ServerReadsPublish(id: nat, channel: Channel, data: Bytes)
    requires id < SAFE && ValidUtf8(channel) && |channel| < SAFE && |data| < SAFE
    ensures DecodeClient(Envelope(3, EncodeField(1, U64, Int(id)) + WriteField(2, Raw(channel)) + WriteField(3, Raw(data))))
         == Ok(Publish(id, channel, data))
  {
    hide EncodeField, WriteField, ValidUtf8, DecodeOneof, Envelope, DecodeFields;
    BodyFits(id, channel, data);
    SealedOpens(CLIENT, 3, EncodeField(1, U64, Int(id)) + WriteField(2, Raw(channel)) + WriteField(3, Raw(data)));
    ServerReadsThree(id, channel, data, RECURSION_LIMIT - 1);
  }

  /** What the demo sends decodes, on the server, to the subscribe it meant. */
  method BuildSubscribe(requestId: nat, channel: Channel) returns (b: Bytes)
    requires requestId < SAFE && ValidUtf8(channel) && |channel| < SAFE
    ensures DecodeClient(b) == Ok(Subscribe(requestId, channel, 0))
  {
    hide EncodeField, ValidUtf8, DecodeClient, Key, Delimited;
    var inner := new ByteBuffer();
    inner.EncodeUint64(1, requestId);
    inner.EncodeDelimited(2, channel);
    ghost var body := inner.bytes;
    assert body == EncodeField(1, U64, Int(requestId)) + WriteField(2, Raw(channel));
    var outer := new ByteBuffer();
    outer.EncodeDelimited(1, inner.bytes);
    b := outer.bytes;
    assert b == Envelope(1, body);
    ServerReadsSubscribe(requestId, channel);
  }

  method BuildPublish(requestId: nat, channel: Channel, data: Bytes) returns (b: Bytes)
    requires requestId < SAFE && ValidUtf8(channel) && |channel| < SAFE && |data| < SAFE
    ensures DecodeClient(b) == Ok(Publish(requestId, channel, data))
  {
    hide EncodeField, ValidUtf8, DecodeClient, Key, Delimited;
    var inner := new ByteBuffer();
    inner.EncodeUint64(1, requestId);
    inner.EncodeDelimited(2, channel);
    inner.EncodeDelimited(3, data);
    ghost var body := inner.bytes;
    assert body == EncodeField(1, U64, Int(requestId)) + WriteField(2, Raw(channel)) + WriteField(3, Raw(data));
    var outer := new ByteBuffer();
    outer.EncodeDelimited(3, inner.bytes);
    b := outer.bytes;
    assert b == Envelope(3, body);
    ServerReadsPublish(requestId, channel, data);
  }

  // --------------------------------------------------------------------
  // Reading
  // --------------------------------------------------------------------

  /** What a piece of JavaScript does: throws, meets a varint of too many bytes to follow here, or gives a value. */
  datatype Js<T> = Throws | Unclear | Gives(value: T)

  /** With no more bytes than this, 2^1022 bounds every sum, so none is infinite. */
  const MAX_SIZE: nat := 146

  /** Whole numbers a JavaScript number holds exactly: 53 bits times a power of two. */
  predicate Exact(n: nat) { n < SAFE || (n % 2 == 0 && Exact(n / 2)) }

  /** The distance between neighbouring JavaScript numbers around `n`. */
  function Ulp(n: nat): (u: nat)
    ensures u > 0
  {
    if n < SAFE then 1 else 2 * Ulp(n / 2)
  }

  /** The nearest JavaScript number, halfway cases going to the even one. */
  function Round(n: nat): nat {
    var u := Ulp(n);
    var q, low := n / u, n % u;
    if 2 * low < u || (2 * low == u && q % 2 == 0) then q * u else (q + 1) * u
  }

  lemma Halved(n: nat, u: nat)
    requires u > 0
    ensures n / (2 * u) == n / 2 / u
    ensures n % 2 == 0 && n / 2 % u == 0 ==> n % (2 * u) == 0
  {
    var q, low := n / 2 / u, n / 2 % u;
    assert n == (2 * u) * q + (2 * low + n % 2);
    Quotient(2 * u, q, 2 * low + n % 2);
  }

  lemma Quotient(d: nat, q: nat, r: nat)
    requires r < d
    ensures (d * q + r) / d == q && (d * q + r) % d == r
  {
    var n := d * q + r;
    var gap := n / d - q;
    assert d * gap == r - n % d;
    assert gap == 0;
  }

  lemma {:induction false} QuotientFits(n: nat)
    ensures n / Ulp(n) < SAFE
  {
    if n >= SAFE {
      QuotientFits(n / 2);
      Halved(n, Ulp(n / 2));
    }
  }

  lemma {:induction false} ScaledIsExact(m: nat, n: nat)
    requires m <= SAFE
    ensures Exact(m * Ulp(n))
  {
    if n >= SAFE {
      ScaledIsExact(m, n / 2);
      assert m * Ulp(n) == 2 * (m * Ulp(n / 2));
    }
  }

  lemma {:induction false} ExactDivides(n: nat)
    requires Exact(n)
    ensures n % Ulp(n) == 0
  {
    if n >= SAFE {
      ExactDivides(n / 2);
      Halved(n, Ulp(n / 2));
    }
  }

  /** Rounding gives a number that can be held, and leaves alone the numbers that can. */
  lemma RoundIsExact(n: nat)
    ensures Exact(Round(n))
    ensures Round(n) == n <==> Exact(n)
  {
    hide Ulp, Exact;
    var q := n / Ulp(n);
    QuotientFits(n);
    ScaledIsExact(q, n);
    ScaledIsExact(q + 1, n);
    if Exact(n) { ExactDivides(n); }
  }

  predicate PowerOfTwo(n: nat) { n == 1 || (n > 1 && n % 2 == 0 && PowerOfTwo(n / 2)) }

  lemma Doubled(n: nat)
    requires PowerOfTwo(n)
    ensures PowerOfTwo(2 * n)
  {
    assert 2 * n > 1 && 2 * n % 2 == 0 && 2 * n / 2 == n;
  }

  lemma NextScale(scale: nat)
    requires PowerOfTwo(scale)
    ensures PowerOfTwo(scale * 128)
  {
    hide PowerOfTwo;
    Doubled(scale);
    Doubled(scale * 2);
    Doubled(scale * 4);
    Doubled(scale * 8);
    Doubled(scale * 16);
    Doubled(scale * 32);
    Doubled(scale * 64);
  }

  /** A number that can be held has only low parts that can. */
  lemma {:induction false} LowPartIsExact(low: nat, high: nat, scale: nat)
    requires PowerOfTwo(scale) && low < scale && Exact(low + scale * high)
    ensures Exact(low)
    decreases scale
  {
    if low >= SAFE {
      var half := scale / 2;
      assert scale * high == 2 * (half * high);
      LowPartIsExact(low / 2, high, half);
    }
  }

  /** The number a varint of any length stands for; only running off the end fails. */
  function ReadLoose(b: Bytes): (r: Read<nat>)
    ensures r.Good? ==> |r.rest| < |b| && r.rest == b[|b| - |r.rest|..]
  {
    if b == [] then Bad
    else if b[0] < 128 then Good(b[0], b[1..])
    else
      match ReadLoose(b[1..])
      case Bad => Bad
      case Good(v, rest) => Good(b[0] - 128 + 128 * v, rest)
  }

  /** `value += low * 2 ** shift`; the product is exact, the addition is rounded. */
  function Add(value: nat, low: nat, scale: nat): nat { Round(value + low * scale) }

  /** The running sum of the demo. */
  function ReadSums(b: Bytes, value: nat, scale: nat): (r: Read<nat>)
    ensures r.Good? ==> |r.rest| < |b| && r.rest == b[|b| - |r.rest|..]
  {
    if b == [] then Bad
    else
      var sum := Add(value, b[0] % 128, scale);
      if b[0] < 128 then Good(sum, b[1..]) else ReadSums(b[1..], sum, scale * 128)
  }

  /** What the demo reads. */
  function ReadNumber(b: Bytes): (r: Js<(nat, Bytes)>)
    ensures r.Gives? ==> |r.value.1| < |b|
  {
    match ReadSums(b, 0, 1)
    case Bad => Throws
    case Good(v, rest) => if |b| - |rest| <= MAX_SIZE then Gives((v, rest)) else Unclear
  }

  lemma Distribute(low: nat, high: nat, scale: nat)
    ensures scale * low == low * scale >= 0
    ensures scale * (low + 128 * high) == low * scale + (scale * 128) * high
  {
    assert scale * (low + 128 * high) == scale * low + scale * (128 * high);
  }

  lemma Below(value: nat, low: nat, scale: nat)
    requires value < scale && low < 128
    ensures value + low * scale < scale * 128
  {
    assert low * scale <= 127 * scale;
  }

  /** The sums end where the varint does, on a number that can be held. */
  lemma {:induction false} SumsEnd(b: Bytes, value: nat, scale: nat)
    ensures ReadSums(b, value, scale).Good? <==> ReadLoose(b).Good?
    ensures ReadLoose(b).Good? ==>
              ReadSums(b, value, scale).rest == ReadLoose(b).rest && Exact(ReadSums(b, value, scale).value)
    decreases |b|
  {
    if b != [] {
      var low := b[0] % 128;
      assert Exact(Add(value, low, scale)) by { SumsOnce(value, low, scale); }
      hide Add, Exact;
      if b[0] >= 128 { SumsEnd(b[1..], Add(value, low, scale), scale * 128); }
    }
  }

  lemma SumsOnce(value: nat, low: nat, scale: nat)
    ensures value + low * scale >= 0 && Exact(Add(value, low, scale))
    ensures Add(value, low, scale) == value + low * scale <==> Exact(value + low * scale)
  {
    hide Round, Exact;
    Distribute(low, 0, scale);
    RoundIsExact(value + low * scale);
  }

  /** One more group of a number that can be held is added exactly. */
  lemma SumsOnward(value: nat, low: nat, scale: nat, high: nat)
    requires PowerOfTwo(scale) && value < scale && low < 128 && Exact(value + scale * (low + 128 * high))
    ensures Add(value, low, scale) == value + low * scale < scale * 128
    ensures value + scale * (low + 128 * high) == Add(value, low, scale) + (scale * 128) * high
  {
    hide Add, Exact, PowerOfTwo;
    Distribute(low, high, scale);
    Below(value, low, scale);
    NextScale(scale);
    LowPartIsExact(value + low * scale, high, scale * 128);
    SumsOnce(value, low, scale);
  }

  /** If the varint's number can be held, the sums end on it. */
  lemma {:induction false} SumsKeep(b: Bytes, value: nat, scale: nat)
    requires PowerOfTwo(scale) && value < scale
    requires ReadLoose(b).Good? && Exact(value + scale * ReadLoose(b).value)
    ensures ReadSums(b, value, scale) == Good(value + scale * ReadLoose(b).value, ReadLoose(b).rest)
    decreases |b|
  {
    hide Add, Exact, PowerOfTwo;
    var low := b[0] % 128;
    if b[0] < 128 {
      Distribute(low, 0, scale);
      SumsOnce(value, low, scale);
    } else {
      var high := ReadLoose(b[1..]).value;
      SumsOnward(value, low, scale, high);
      NextScale(scale);
      SumsKeep(b[1..], Add(value, low, scale), scale * 128);
    }
  }

  lemma {:induction false} LooseAgrees(b: Bytes, k: nat)
    requires ReadVarint(b, k).Good?
    ensures ReadLoose(b) == ReadVarint(b, k) && |b| - |ReadLoose(b).rest| <= 10 - k
    decreases |b|
  {
    if b[0] >= 128 { LooseAgrees(b[1..], k + 1); }
  }

  /** What the demo makes of a number the server wrote. */
  function Shown(n: nat, value: nat := 0, scale: nat := 1): nat {
    if n < 128 then Add(value, n, scale) else Shown(n / 128, Add(value, n % 128, scale), scale * 128)
  }

  /**
   * A varint the server accepts takes the demo as many bytes as the server, and is read as
   * a number that can be held: the server's number if and only if that can be.
   */
  lemma NumberAgrees(b: Bytes)
    requires ReadVarint(b).Good?
    ensures ReadNumber(b).Gives? && ReadNumber(b).value.1 == ReadVarint(b).rest && Exact(ReadNumber(b).value.0)
    ensures ReadNumber(b).value.0 == ReadVarint(b).value <==> Exact(ReadVarint(b).value)
  {
    hide Exact, ReadSums, ReadLoose, ReadVarint;
    LooseAgrees(b, 0);
    SumsEnd(b, 0, 1);
    if Exact(ReadVarint(b).value) { SumsKeep(b, 0, 1); }
  }

  lemma SumsCons(x: byte, tail: Bytes, value: nat, scale: nat)
    ensures ReadSums([x] + tail, value, scale)
         == if x < 128 then Good(Add(value, x, scale), tail) else ReadSums(tail, Add(value, x - 128, scale), scale * 128)
  {
    hide Add;
    assert ([x] + tail)[1..] == tail;
  }

  lemma {:induction false} SumsOfVarint(n: nat, rest: Bytes, value: nat, scale: nat)
    ensures ReadSums(Varint(n) + rest, value, scale) == Good(Shown(n, value, scale), rest)
  {
    hide Add, ReadSums;
    if n < 128 {
      SumsCons(n, rest, value, scale);
    } else {
      var low := n % 128;
      assert Varint(n) + rest == [low + 128] + (Varint(n / 128) + rest);
      SumsCons(low + 128, Varint(n / 128) + rest, value, scale);
      SumsOfVarint(n / 128, rest, Add(value, low, scale), scale * 128);
    }
  }

  lemma ShowsNumber(n: nat, rest: Bytes)
    requires n <= U64_MAX
    ensures ReadNumber(Varint(n) + rest) == Gives((Shown(n), rest))
    ensures Shown(n) == n <==> Exact(n)
  {
    hide Exact, ReadSums, Shown, ReadVarint, Varint;
    VarintRoundTrip(n, rest);
    NumberAgrees(Varint(n) + rest);
    SumsOfVarint(n, rest, 0, 1);
  }

  lemma NumberRoundTrip(n: nat, rest: Bytes)
    requires n < SAFE
    ensures ReadNumber(Varint(n) + rest) == Gives((n, rest))
  {
    hide ReadNumber, Shown, Varint;
    ShowsNumber(n, rest);
  }

  /** The do-while loop. */
  method ReadVarintAt(view: Bytes, start: nat) returns (r: Js<(nat, nat)>)
    requires start <= |view|
    ensures r.Throws? <==> ReadNumber(view[start..]).Throws?
    ensures r.Unclear? <==> ReadNumber(view[start..]).Unclear?
    ensures r.Gives? ==>
              start < r.value.1 <= |view| && ReadNumber(view[start..]) == Gives((r.value.0, view[r.value.1..]))
  {
    hide Add;
    var value: nat, scale: nat, offset: nat, b: byte := 0, 1, start, 0x80;
    while b >= 0x80
      invariant start <= offset <= |view| && (b < 0x80 ==> start < offset)
      invariant ReadSums(view[start..], 0, 1)
             == if b >= 0x80 then ReadSums(view[offset..], value, scale) else Good(value, view[offset..])
      decreases |view| - offset
    {
      if offset >= |view| { return Throws; }
      b := view[offset];
      assert view[offset..][1..] == view[offset + 1..];
      value := Add(value, b % 0x80, scale);
      scale := scale * 0x80;
      offset := offset + 1;
    }
    r := if offset - start <= MAX_SIZE then Gives((value, offset)) else Unclear;
  }

  /** A delimited payload, clamped to the bytes there are. */
  function ReadClamped(b: Bytes): (r: Js<(Bytes, Bytes)>)
    ensures r.Gives? ==> |r.value.1| < |b|
  {
    match ReadNumber(b)
    case Throws => Throws
    case Unclear => Unclear
    case Gives((n, rest)) => var m := if n > |rest| then |rest| else n; Gives((rest[..m], rest[m..]))
  }

  lemma ClampedRoundTrip(payload: Bytes, rest: Bytes)
    requires |payload| < SAFE
    ensures ReadClamped(Delimited(payload) + rest) == Gives((payload, rest))
  {
    hide ReadNumber;
    assert Delimited(payload) + rest == Varint(|payload|) + (payload + rest);
    NumberRoundTrip(|payload|, payload + rest);
  }

  datatype Opened = Empty | Unknown | Frame(field: nat, body: Bytes)

  /** What the demo makes of the bytes of a server frame. */
  function Open(b: Bytes): Js<Opened> {
    if b == [] then Gives(Empty)
    else
      match ReadNumber(b)
      case Throws => Throws
      case Unclear => Unclear
      case Gives((t, rest)) =>
        if t % 8 != 2 then Gives(Unknown)
        else
          match ReadClamped(rest)
          case Throws => Throws
          case Unclear => Unclear
          case Gives((body, _)) => Gives(Frame(t / 8, body))
  }

  /** A payload read in place is the clamped payload of the spec. */
  lemma SlicesAgree(view: Bytes, at: nat, n: nat, start: nat)
    requires at <= start <= |view| && ReadNumber(view[at..]) == Gives((n, view[start..]))
    ensures start + n < |view| ==> ReadClamped(view[at..]) == Gives((view[start..start + n], view[start + n..]))
    ensures start + n >= |view| ==> ReadClamped(view[at..]) == Gives((view[start..], []))
  {
    hide ReadNumber;
    if start + n < |view| {
      assert view[start..][..n] == view[start..start + n] && view[start..][n..] == view[start + n..];
    } else {
      assert view[start..][..|view| - start] == view[start..] && view[start..][|view| - start..] == [];
    }
  }

  /** Where the payload ends may lie past the end of the bytes. */
  method ReadClampedAt(view: Bytes, at: nat) returns (r: Js<(Bytes, nat)>)
    requires at <= |view|
    ensures r.Throws? <==> ReadClamped(view[at..]).Throws?
    ensures r.Unclear? <==> ReadClamped(view[at..]).Unclear?
    ensures r.Gives? ==>
              && at < r.value.1
              && ReadClamped(view[at..]) == Gives((r.value.0, if r.value.1 < |view| then view[r.value.1..] else []))
  {
    hide ReadNumber;
    var len := ReadVarintAt(view, at);
    if len.Throws? { return Throws; }
    if len.Unclear? { return Unclear; }
    var (n, start) := len.value;
    SlicesAgree(view, at, n, start);
    var end := if start + n < |view| then start + n else |view|;
    assert view[start..|view|] == view[start..];
    r := Gives((view[start..end], start + n));
  }

  method DecodeServerFrame(bytes: Bytes) returns (r: Js<Opened>)
    ensures r == Open(bytes)
  {
    hide ReadNumber, ReadClamped;
    if |bytes| == 0 { return Gives(Empty); }
    assert bytes[0..] == bytes;
    var outer := ReadVarintAt(bytes, 0);
    if outer.Throws? { return Throws; }
    if outer.Unclear? { return Unclear; }
    var (t, after) := outer.value;
    if t % 8 != 2 { return Gives(Unknown); }
    var body := ReadClampedAt(bytes, after);
    if body.Throws? { return Throws; }
    if body.Unclear? { return Unclear; }
    r := Gives(Frame(t / 8, body.value.0));
  }

  predicate HasBom(b: Bytes) { |b| >= 3 && b[0] == 0xEF && b[1] == 0xBB && b[2] == 0xBF }

  /** `TextDecoder`: drops a leading byte order mark; `lossy` is its reading of ill-formed bytes. */
  function TextDecode(lossy: Bytes -> Bytes, b: Bytes): Bytes {
    if !ValidUtf8(b) then lossy(b) else if HasBom(b) then b[3..] else b
  }

  /** Reads fields 1 to 3 in any order and stops at anything else. */
  function Scan(lossy: Bytes -> Bytes, b: Bytes, p: Publication): Js<Publication>
    decreases |b|
  {
    if b == [] then Gives(p)
    else
      match ReadNumber(b)
      case Throws => Throws
      case Unclear => Unclear
      case Gives((t, rest)) =>
        if t == 16 then
          match ReadNumber(rest)
          case Throws => Throws
          case Unclear => Unclear
          case Gives((n, after)) => Scan(lossy, after, p.(offset := n))
        else if t == 10 || t == 26 then
          match ReadClamped(rest)
          case Throws => Throws
          case Unclear => Unclear
          case Gives((payload, after)) =>
            Scan(lossy, after, if t == 10 then p.(channel := TextDecode(lossy, payload)) else p.(data := payload))
        else Gives(p)
  }

  const NOTHING: Publication := Publication([], 0, [])

  method DecodePublication(lossy: Bytes -> Bytes, body: Bytes) returns (r: Js<Publication>)
    ensures r == Scan(lossy, body, NOTHING)
  {
    hide ReadNumber, ReadClamped, TextDecode;
    var p, offset := NOTHING, 0;
    assert body[0..] == body;
    while offset < |body|
      invariant 0 <= offset
      invariant Scan(lossy, body, NOTHING) == if offset < |body| then Scan(lossy, body[offset..], p) else Gives(p)
      decreases |body| - offset
    {
      var key := ReadVarintAt(body, offset);
      if key.Throws? { return Throws; }
      if key.Unclear? { return Unclear; }
      var (t, after) := key.value;
      if t / 8 == 2 && t % 8 == 0 {
        var number := ReadVarintAt(body, after);
        if number.Throws? { return Throws; }
        if number.Unclear? { return Unclear; }
        p, offset := p.(offset := number.value.0), number.value.1;
      } else if (t / 8 == 1 || t / 8 == 3) && t % 8 == 2 {
        var payload := ReadClampedAt(body, after);
        if payload.Throws? { return Throws; }
        if payload.Unclear? { return Unclear; }
        p := if t / 8 == 1 then p.(channel := TextDecode(lossy, payload.value.0)) else p.(data := payload.value.0);
        offset := payload.value.1;
      } else {
        return Gives(p);
      }
    }
    r := Gives(p);
  }

  // --------------------------------------------------------------------
  // The demo shows what the server published, unless a name starts with a byte order mark
  // --------------------------------------------------------------------

  /** One field the server wrote, as the demo takes it. */
  function Taken(lossy: Bytes -> Bytes, i: nat, v: Value, p: Publication): Publication
    requires i < 3 && v.Int? == IsInt(PUBLICATION[i])
  {
    if i == 0 then p.(channel := TextDecode(lossy, v.bytes))
    else if i == 1 then p.(offset := Shown(v.n))
    else p.(data := v.bytes)
  }

  predicate Fits(v: Value) { v.Raw? ==> |v.bytes| < SAFE }

  lemma ScanStep(lossy: Bytes -> Bytes, i: nat, v: Value, b: Bytes, body: Bytes, rest: Bytes, p: Publication)
    requires i < 3 && v.Int? == IsInt(PUBLICATION[i]) && b != []
    requires ReadNumber(b) == Gives(((i + 1) * 8 + if v.Int? then 0 else 2, body))
    requires if v.Int? then ReadNumber(body) == Gives((Shown(v.n), rest)) else ReadClamped(body) == Gives((v.bytes, rest))
    ensures Scan(lossy, b, p) == Scan(lossy, rest, Taken(lossy, i, v, p))
  {
    hide ReadNumber, ReadClamped, TextDecode, Shown;
  }

  lemma ScanTakes(lossy: Bytes -> Bytes, i: nat, v: Value, rest: Bytes, p: Publication)
    requires i < 3 && Valid(PUBLICATION[i], v) && Fits(v)
    ensures Scan(lossy, WriteField(i + 1, v) + rest, p) == Scan(lossy, rest, Taken(lossy, i, v, p))
  {
    hide Scan, Taken, Shown, ReadNumber, ReadClamped, Varint, Delimited, ValidUtf8;
    var t := (i + 1) * 8 + if v.Int? then 0 else 2;
    var body := if v.Int? then Varint(v.n) + rest else Delimited(v.bytes) + rest;
    assert WriteField(i + 1, v) + rest == Varint(t) + body;
    NumberRoundTrip(t, body);
    if v.Int? { ShowsNumber(v.n, rest); } else { ClampedRoundTrip(v.bytes, rest); }
    ScanStep(lossy, i, v, Varint(t) + body, body, rest, p);
  }

  lemma ScanReads(lossy: Bytes -> Bytes, i: nat, v: Value, rest: Bytes, p: Publication)
    requires i < 3 && Valid(PUBLICATION[i], v) && Fits(v)
    requires i == 0 ==> p.channel == []
    requires i == 1 ==> p.offset == 0
    requires i == 2 ==> p.data == []
    ensures Scan(lossy, EncodeField(i + 1, PUBLICATION[i], v) + rest, p) == Scan(lossy, rest, Taken(lossy, i, v, p))
  {
    hide Scan, WriteField;
    if v == Default(PUBLICATION[i]) {
      assert EncodeField(i + 1, PUBLICATION[i], v) + rest == rest && Taken(lossy, i, v, p) == p;
    } else {
      ScanTakes(lossy, i, v, rest, p);
    }
  }

  lemma EncodePublicationUnfolds(p: Publication)
    ensures EncodePublication(p) == EncodeField(1, Text, Raw(p.channel))
                                  + (EncodeField(2, U64, Int(p.offset)) + (EncodeField(3, Blob, Raw(p.data)) + []))
  {
    hide EncodeField;
    var rec := PublicationRecord(p);
    assert EncodeFields(PUBLICATION, rec, 3) == [];
    assert EncodeFields(PUBLICATION, rec, 2) == EncodeField(3, Blob, Raw(p.data)) + [];
    assert EncodeFields(PUBLICATION, rec, 1)
        == EncodeField(2, U64, Int(p.offset)) + (EncodeField(3, Blob, Raw(p.data)) + []);
  }

  lemma ScanReadsPublication(lossy: Bytes -> Bytes, p: Publication)
    requires AllValid(PUBLICATION, PublicationRecord(p)) && |p.channel| < SAFE && |p.data| < SAFE
    ensures Scan(lossy, EncodePublication(p), NOTHING)
         == Gives(Publication(TextDecode(lossy, p.channel), Shown(p.offset), p.data))
  {
    hide EncodeField, TextDecode, ValidUtf8, EncodePublication, ReadNumber, ReadClamped, Shown;
    EncodePublicationUnfolds(p);
    var rec := PublicationRecord(p);
    assert Valid(PUBLICATION[0], rec[0]) && Valid(PUBLICATION[1], rec[1]) && Valid(PUBLICATION[2], rec[2]);
    var third := EncodeField(3, Blob, rec[2]) + [];
    var second := EncodeField(2, U64, rec[1]) + third;
    var named := NOTHING.(channel := TextDecode(lossy, p.channel));
    ScanReads(lossy, 0, rec[0], second, NOTHING);
    ScanReads(lossy, 1, rec[1], third, named);
    ScanReads(lossy, 2, rec[2], [], named.(offset := Shown(p.offset)));
  }

  lemma OpensPublished(p: Publication)
    requires |EncodePublication(p)| < SAFE
    ensures Open(EncodeServer(Published(p))) == Gives(Frame(3, EncodePublication(p)))
  {
    hide ReadNumber, ReadClamped, EncodeFields, Varint, Delimited;
    var body := EncodePublication(p);
    assert EncodeServer(Published(p)) == Varint(26) + Delimited(body);
    assert Delimited(body) + [] == Delimited(body);
    NumberRoundTrip(26, Delimited(body));
    ClampedRoundTrip(body, []);
  }

  /**
   * The demo opens the frame of every publication shorter than 2^53 bytes, and reads back
   * exactly what was published if and only if the offset is one a JavaScript number holds
   * and the channel name does not start with a byte order mark.
   */
  lemma ReadsWhatWasPublished(lossy: Bytes -> Bytes, p: Publication)
    requires AllValid(PUBLICATION, PublicationRecord(p)) && |EncodePublication(p)| < SAFE
    ensures Open(EncodeServer(Published(p))) == Gives(Frame(3, EncodePublication(p)))
    ensures Scan(lossy, EncodePublication(p), NOTHING).Gives?
    ensures Scan(lossy, EncodePublication(p), NOTHING) == Gives(p) <==> Exact(p.offset) && !HasBom(p.channel)
  {
    hide EncodeFields, Scan, Open, EncodeServer, Shown, Exact;
    OpensPublished(p);
    PartsAreShorter(p);
    ScanReadsPublication(lossy, p);
    assert Valid(PUBLICATION[0], PublicationRecord(p)[0]) && Valid(PUBLICATION[1], PublicationRecord(p)[1]);
    ShowsNumber(p.offset, []);
    assert HasBom(p.channel) ==> |TextDecode(lossy, p.channel)| < |p.channel|;
  }

  /** 2^53 is shown as itself, and the offset after it as 2^53 too. */
  lemma NextOffsetIsLost()
    ensures Exact(SAFE) && Shown(SAFE) == SAFE
    ensures !Exact(SAFE + 1) && Shown(SAFE + 1) == SAFE
  {
    hide Shown, Add;
    ShowsNumber(SAFE, []);
    ShowsOneMore(0x10, 1);
    RoundsDown(SAFE + 1);
    assert Add(1, 0x10, 0x2_0000_0000_0000) == Round(SAFE + 1) by { AddIs(1, 0x10, 0x2_0000_0000_0000); }
  }

  lemma AddIs(value: nat, low: nat, scale: nat)
    ensures low * scale >= 0 && Add(value, low, scale) == Round(value + low * scale)
  {
    Distribute(low, 0, scale);
  }

  lemma RoundsDown(n: nat)
    requires n == SAFE + 1
    ensures Round(n) == SAFE
  {
    assert Ulp(n) == 2;
  }

  lemma ShowsOneMore(n: nat, one: nat)
    requires 0 < n < 128 && one == 1
    ensures Shown(n * 0x2_0000_0000_0000 + one) == Add(1, n, 0x2_0000_0000_0000)
  {
    hide Add, Shown, Exact;
    SumsOnce(0, one, 1);
    assert Exact(1) by { SmallIsExact(1); }
    ShownStep(one, n * 0x400_0000_0000, 0, 1);
    Zeroes(n, 1);
    ShownLast(n, 1, 0x2_0000_0000_0000);
  }

  lemma SmallIsExact(n: nat)
    requires n < SAFE
    ensures Exact(n)
  {
  }

  lemma ShownStep(low: nat, high: nat, value: nat, scale: nat)
    requires low < 128 && high > 0
    ensures Shown(low + 128 * high, value, scale) == Shown(high, Add(value, low, scale), scale * 128)
  {
    hide Add;
    var n := low + 128 * high;
    assert n >= 128 && n / 128 == high && n % 128 == low;
  }

  lemma ShownLast(n: nat, value: nat, scale: nat)
    requires n < 128
    ensures Shown(n, value, scale) == Add(value, n, scale)
  {
    hide Add;
  }

  /** A group of zero bits leaves the sum alone. */
  lemma ZeroGroup(high: nat, value: nat, scale: nat)
    requires high > 0 && Exact(value)
    ensures Shown(128 * high, value, scale) == Shown(high, value, scale * 128)
  {
    hide Add, Shown, Exact;
    ShownStep(0, high, value, scale);
    SumsOnce(value, 0, scale);
  }

  lemma Zeroes(n: nat, value: nat)
    requires n > 0 && Exact(value)
    ensures Shown(n * 0x400_0000_0000, value, 0x80) == Shown(n, value, 0x2_0000_0000_0000)
  {
    hide Shown, Exact;
    ZeroGroup(n * 0x8_0000_0000, value, 0x80);
    ZeroGroup(n * 0x1000_0000, value, 0x4000);
    ZeroGroup(n * 0x20_0000, value, 0x20_0000);
    ZeroGroup(n * 0x4000, value, 0x1000_0000);
    ZeroGroup(n * 0x80, value, 0x8_0000_0000);
    ZeroGroup(n, value, 0x400_0000_0000);
  }

  lemma PartsAreShorter(p: Publication)
    ensures |p.channel| <= |EncodePublication(p)| && |p.data| <= |EncodePublication(p)|
  {
    hide EncodePublication, Key, Varint;
    EncodePublicationUnfolds(p);
  }

  /** A channel named by the mark alone is shown with an empty name. */
  lemma MarkedNameIsLost(lossy: Bytes -> Bytes)
    ensures var p := Publication([0xEF, 0xBB, 0xBF], 1, []);
            AllValid(PUBLICATION, PublicationRecord(p)) && Scan(lossy, EncodePublication(p), NOTHING) == Gives(p.(channel := []))
  {
    var p := Publication([0xEF, 0xBB, 0xBF], 1, []);
    assert ValidUtf8(p.channel) by { assert p.channel[3..] == []; }
    assert TextDecode(lossy, p.channel) == [];
    ScanReadsPublication(lossy, p);
  }
}
