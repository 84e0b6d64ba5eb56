/** Wire protocol v1: frames as Protocol Buffers, each frame a message with one `oneof`. */
module Wire {
  import opened Types
  import opened Protobuf
  import opened Frames

  /** How deep messages and groups may nest. */
  const RECURSION_LIMIT: nat := 100

  // --------------------------------------------------------------------
  // A message whose only fields are the variants of a oneof
  // --------------------------------------------------------------------

  datatype Oneof = Unset | Set(tag: nat, rec: seq<Value>)

  predicate OneofShaped(variants: seq<Schema>, o: Oneof) {
    o.Set? ==> 1 <= o.tag <= |variants| && Shaped(variants[o.tag - 1], o.rec)
  }

  function Envelope(tag: nat, body: Bytes): Bytes { Key(tag, Len) + Delimited(body) }

  /** The record a variant's body is merged into: the same variant again, or a fresh one. */
  function Target(variants: seq<Schema>, o: Oneof, tag: nat): (rec: seq<Value>)
    requires OneofShaped(variants, o) && 1 <= tag <= |variants|
    ensures Shaped(variants[tag - 1], rec)
  {
    if o.Set? && o.tag == tag then o.rec else Defaults(variants[tag - 1])
  }

  function DecodeVariant(variants: seq<Schema>, o: Oneof, tag: nat, w: WireType, b: Bytes): (r: Read<Oneof>)
    requires OneofShaped(variants, o) && 1 <= tag <= |variants|
    ensures r.Good? ==> OneofShaped(variants, r.value) && |r.rest| < |b|
  {
    if w != Len then Bad
    else
      match ReadDelimited(b)
      case Bad => Bad
      case Good(body, rest) =>
        match DecodeFields(variants[tag - 1], Target(variants, o, tag), body, RECURSION_LIMIT - 1)
        case None => Bad
        case Some(rec) => Good(Set(tag, rec), rest)
  }

  function DecodeOneof(variants: seq<Schema>, o: Oneof, b: Bytes): (r: Option<Oneof>)
    requires OneofShaped(variants, o)
    ensures r.Some? ==> OneofShaped(variants, r.value)
    decreases |b|
  {
    if b == [] then Some(o)
    else
      match ReadKey(b)
      case Bad => None
      case Good((tag, w), rest) =>
        if 1 <= tag <= |variants| then
          match DecodeVariant(variants, o, tag, w, rest)
          case Bad => None
          case Good(o', after) => DecodeOneof(variants, o', after)
        else
          match Skip(w, tag, rest, RECURSION_LIMIT)
          case Bad => None
          case Good(_, after) => DecodeOneof(variants, o, after)
  }

  lemma VariantExtends(variants: seq<Schema>, o: Oneof, tag: nat, w: WireType, b: Bytes, more: Bytes)
    requires OneofShaped(variants, o) && 1 <= tag <= |variants| && DecodeVariant(variants, o, tag, w, b).Good?
    ensures DecodeVariant(variants, o, tag, w, b + more)
         == Good(DecodeVariant(variants, o, tag, w, b).value, DecodeVariant(variants, o, tag, w, b).rest + more)
  {
    hide ReadDelimited, DecodeFields;
    DelimitedExtends(b, more);
  }

  /** Decoding `a + b` continues with `b` from what `a` decodes to. */
  lemma {:induction false} OneofConcat(variants: seq<Schema>, o: Oneof, a: Bytes, b: Bytes)
    requires OneofShaped(variants, o) && DecodeOneof(variants, o, a).Some?
    ensures DecodeOneof(variants, o, a + b) == DecodeOneof(variants, DecodeOneof(variants, o, a).value, b)
    decreases |a|
  {
    hide ReadKey, DecodeVariant, Skip, SkipGroup, OneofShaped;
    if a == [] {
      assert a + b == b;
    } else {
      KeyExtends(a, b);
      var Good((tag, w), rest) := ReadKey(a);
      if 1 <= tag <= |variants| {
        VariantExtends(variants, o, tag, w, rest, b);
        var Good(o', after) := DecodeVariant(variants, o, tag, w, rest);
        OneofConcat(variants, o', after, b);
      } else {
        SkipExtends(w, tag, rest, b, RECURSION_LIMIT);
        OneofConcat(variants, o, Skip(w, tag, rest, RECURSION_LIMIT).rest, b);
      }
    }
  }

  lemma {:induction false} UnknownKeepsOneof(variants: seq<Schema>, o: Oneof, u: Bytes)
    requires OneofShaped(variants, o) && AllUnknown(|variants|, u, RECURSION_LIMIT)
    ensures DecodeOneof(variants, o, u) == Some(o)
    decreases |u|
  {
    hide ReadKey, DecodeVariant, Skip, SkipGroup, OneofShaped;
    if u != [] {
      var Good((tag, w), rest) := ReadKey(u);
      UnknownKeepsOneof(variants, o, Skip(w, tag, rest, RECURSION_LIMIT).rest);
    }
  }

  /** An envelope is consumed whole and its body merged into the variant it names. */
  lemma EnvelopeOpens(variants: seq<Schema>, o: Oneof, tag: nat, body: Bytes, rest: Bytes)
    requires OneofShaped(variants, o) && 1 <= tag <= |variants| <= MAX_TAG && |body| <= U64_MAX
    ensures DecodeOneof(variants, o, Envelope(tag, body) + rest)
         == match DecodeFields(variants[tag - 1], Target(variants, o, tag), body, RECURSION_LIMIT - 1)
            case None => None
            case Some(rec) => DecodeOneof(variants, Set(tag, rec), rest)
  {
    hide ReadKey, ReadDelimited, DecodeFields, Skip, SkipGroup, Key, Delimited, Target, Shaped;
    var b := Envelope(tag, body) + rest;
    assert b == Key(tag, Len) + (Delimited(body) + rest);
    KeyRoundTrip(tag, Len, Delimited(body) + rest);
    DelimitedRoundTrip(body, rest);
    assert |Delimited(body) + rest| < |b|;
  }

  /** Once set, a oneof stays set; so only unknown fields leave it unset. */
  lemma {:induction false} StaysSet(variants: seq<Schema>, o: Oneof, b: Bytes)
    requires OneofShaped(variants, o) && DecodeOneof(variants, o, b).Some?
    ensures o.Set? ==> DecodeOneof(variants, o, b).value.Set?
    ensures DecodeOneof(variants, o, b).value.Unset? ==> AllUnknown(|variants|, b, RECURSION_LIMIT)
    decreases |b|
  {
    hide ReadKey, ReadDelimited, DecodeFields, Skip, SkipGroup, Target, Shaped;
    if b != [] {
      var Good((tag, w), rest) := ReadKey(b);
      if 1 <= tag <= |variants| {
        var Good(o', after) := DecodeVariant(variants, o, tag, w, rest);
        StaysSet(variants, o', after);
      } else {
        StaysSet(variants, o, Skip(w, tag, rest, RECURSION_LIMIT).rest);
      }
    }
  }

  /** Unknown fields may be inserted between any two fields of the envelope. */
  lemma UnknownIgnoredInOneof(variants: seq<Schema>, a: Bytes, u: Bytes, b: Bytes)
    requires DecodeOneof(variants, Unset, a).Some? && AllUnknown(|variants|, u, RECURSION_LIMIT)
    ensures DecodeOneof(variants, Unset, a + u + b) == DecodeOneof(variants, Unset, a + b)
  {
    hide DecodeOneof, AllUnknown;
    var seen := DecodeOneof(variants, Unset, a).value;
    OneofConcat(variants, Unset, a, u + b);
    assert a + (u + b) == a + u + b;
    UnknownKeepsOneof(variants, seen, u);
    OneofConcat(variants, seen, u, b);
    OneofConcat(variants, Unset, a, b);
  }

  lemma SealedOpens(variants: seq<Schema>, tag: nat, body: Bytes)
    requires 1 <= tag <= |variants| <= MAX_TAG && |body| <= U64_MAX
    ensures DecodeOneof(variants, Unset, Envelope(tag, body))
         == match DecodeFields(variants[tag - 1], Defaults(variants[tag - 1]), body, RECURSION_LIMIT - 1)
            case None => None
            case Some(rec) => Some(Set(tag, rec))
  {
    hide DecodeFields;
    EnvelopeOpens(variants, Unset, tag, body, []);
    assert Envelope(tag, body) + [] == Envelope(tag, body);
  }

  // --------------------------------------------------------------------
  // Frames
  // --------------------------------------------------------------------

  const PUBLICATION: Schema := [Text, U64, Blob]

  const CLIENT: seq<Schema> := [[U64, Text, U64], [U64, Text], [U64, Text, Blob], [U64, Text]]

  const SERVER: seq<Schema> :=
    [[U64, Text, U64, U64], [U64, Text], PUBLICATION, [U64, U32, Text], [U64, Text, U64]]

  datatype DecodeError = Malformed | MissingKind

  function ClientTag(f: ClientFrame): (tag: nat)
    ensures 1 <= tag <= |CLIENT|
  {
    match f
    case Subscribe(_, _, _) => 1
    case Unsubscribe(_, _) => 2
    case Publish(_, _, _) => 3
    case Connect(_, _) => 4
  }

  function ClientRecord(f: ClientFrame): (rec: seq<Value>)
    ensures Shaped(CLIENT[ClientTag(f) - 1], rec)
  {
    match f
    case Subscribe(id, channel, since) => [Int(id), Raw(channel), Int(since)]
    case Unsubscribe(id, channel) => [Int(id), Raw(channel)]
    case Publish(id, channel, data) => [Int(id), Raw(channel), Raw(data)]
    case Connect(id, token) => [Int(id), Raw(token)]
  }

  function ClientOf(o: Oneof): (r: Result<ClientFrame, DecodeError>)
    requires OneofShaped(CLIENT, o)
  {
    if o.Unset? then Err(MissingKind)
    else
      var rec := o.rec;
      if o.tag == 1 then Ok(Subscribe(rec[0].n, rec[1].bytes, rec[2].n))
      else if o.tag == 2 then Ok(Unsubscribe(rec[0].n, rec[1].bytes))
      else if o.tag == 3 then Ok(Publish(rec[0].n, rec[1].bytes, rec[2].bytes))
      else Ok(Connect(rec[0].n, rec[1].bytes))
  }

  function ServerTag(f: ServerFrame): (tag: nat)
    ensures 1 <= tag <= |SERVER|
  {
    match f
    case SubscribeOk(_, _, _, _) => 1
    case UnsubscribeOk(_, _) => 2
    case Published(_) => 3
    case Error(_, _, _) => 4
    case ConnectOk(_, _, _) => 5
  }

  function PublicationRecord(p: Publication): seq<Value> { [Raw(p.channel), Int(p.offset), Raw(p.data)] }

  function PublicationOf(rec: seq<Value>): Publication
    requires Shaped(PUBLICATION, rec)
  {
    Publication(rec[0].bytes, rec[1].n, rec[2].bytes)
  }

  function ServerRecord(f: ServerFrame): (rec: seq<Value>)
    ensures Shaped(SERVER[ServerTag(f) - 1], rec)
  {
    match f
    case SubscribeOk(id, channel, epoch, offset) => [Int(id), Raw(channel), Int(epoch), Int(offset)]
    case UnsubscribeOk(id, channel) => [Int(id), Raw(channel)]
    case Published(p) => PublicationRecord(p)
    case Error(id, code, message) => [Int(id), Int(code), Raw(message)]
    case ConnectOk(id, subject, expires) => [Int(id), Raw(subject), Int(expires)]
  }

  function ServerOf(o: Oneof): (r: Result<ServerFrame, DecodeError>)
    requires OneofShaped(SERVER, o)
  {
    if o.Unset? then Err(MissingKind)
    else
      var rec := o.rec;
      if o.tag == 1 then Ok(SubscribeOk(rec[0].n, rec[1].bytes, rec[2].n, rec[3].n))
      else if o.tag == 2 then Ok(UnsubscribeOk(rec[0].n, rec[1].bytes))
      else if o.tag == 3 then Ok(Published(PublicationOf(rec)))
      else if o.tag == 4 then Ok(Error(rec[0].n, rec[1].n, rec[2].bytes))
      else Ok(ConnectOk(rec[0].n, rec[1].bytes, rec[2].n))
  }

  function EncodeClient(f: ClientFrame): Bytes {
    Envelope(ClientTag(f), EncodeFields(CLIENT[ClientTag(f) - 1], ClientRecord(f)))
  }

  function EncodeServer(f: ServerFrame): Bytes {
    Envelope(ServerTag(f), EncodeFields(SERVER[ServerTag(f) - 1], ServerRecord(f)))
  }

  function EncodePublication(p: Publication): Bytes { EncodeFields(PUBLICATION, PublicationRecord(p)) }

  function DecodeClient(b: Bytes): Result<ClientFrame, DecodeError> {
    match DecodeOneof(CLIENT, Unset, b)
    case None => Err(Malformed)
    case Some(o) => ClientOf(o)
  }

  function DecodeServer(b: Bytes): Result<ServerFrame, DecodeError> {
    match DecodeOneof(SERVER, Unset, b)
    case None => Err(Malformed)
    case Some(o) => ServerOf(o)
  }

  function DecodePublication(b: Bytes): Result<Publication, DecodeError> {
    match DecodeFields(PUBLICATION, Defaults(PUBLICATION), b, RECURSION_LIMIT)
    case None => Err(Malformed)
    case Some(rec) => Ok(PublicationOf(rec))
  }

  // --------------------------------------------------------------------
  // Main results
  // --------------------------------------------------------------------

  /** What the server's types already guarantee: 64- and 32-bit integers, UTF-8 strings, an addressable body. */
  predicate ClientValid(f: ClientFrame) {
    && AllValid(CLIENT[ClientTag(f) - 1], ClientRecord(f))
    && |EncodeFields(CLIENT[ClientTag(f) - 1], ClientRecord(f))| <= U64_MAX
  }

  predicate ServerValid(f: ServerFrame) {
    && AllValid(SERVER[ServerTag(f) - 1], ServerRecord(f))
    && |EncodeFields(SERVER[ServerTag(f) - 1], ServerRecord(f))| <= U64_MAX
  }

  lemma ClientRoundTrip(f: ClientFrame)
    requires ClientValid(f)
    ensures DecodeClient(EncodeClient(f)) == Ok(f)
  {
    hide EncodeFields, DecodeFields, DecodeOneof, Envelope;
    var schema, rec := CLIENT[ClientTag(f) - 1], ClientRecord(f);
    MessageRoundTrip(schema, rec, RECURSION_LIMIT - 1);
    SealedOpens(CLIENT, ClientTag(f), EncodeFields(schema, rec));
  }

  lemma ServerRoundTrip(f: ServerFrame)
    requires ServerValid(f)
    ensures DecodeServer(EncodeServer(f)) == Ok(f)
  {
    hide EncodeFields, DecodeFields, DecodeOneof, Envelope;
    var schema, rec := SERVER[ServerTag(f) - 1], ServerRecord(f);
    MessageRoundTrip(schema, rec, RECURSION_LIMIT - 1);
    SealedOpens(SERVER, ServerTag(f), EncodeFields(schema, rec));
  }

  lemma PublicationRoundTrip(p: Publication)
    requires AllValid(PUBLICATION, PublicationRecord(p))
    ensures DecodePublication(EncodePublication(p)) == Ok(p)
  {
    hide EncodeFields, DecodeFields;
    MessageRoundTrip(PUBLICATION, PublicationRecord(p), RECURSION_LIMIT);
  }

  /** A frame carries no known kind exactly when it is made of complete unknown fields only. */
  lemma MissingKindIffAllUnknown(b: Bytes)
    ensures DecodeClient(b) == Err(MissingKind) <==> AllUnknown(|CLIENT|, b, RECURSION_LIMIT)
    ensures DecodeServer(b) == Err(MissingKind) <==> AllUnknown(|SERVER|, b, RECURSION_LIMIT)
  {
    hide DecodeOneof, AllUnknown;
    if AllUnknown(|CLIENT|, b, RECURSION_LIMIT) { UnknownKeepsOneof(CLIENT, Unset, b); }
    if AllUnknown(|SERVER|, b, RECURSION_LIMIT) { UnknownKeepsOneof(SERVER, Unset, b); }
    if DecodeOneof(CLIENT, Unset, b).Some? { StaysSet(CLIENT, Unset, b); }
    if DecodeOneof(SERVER, Unset, b).Some? { StaysSet(SERVER, Unset, b); }
  }

  lemma DeepIsMalformed(b: Bytes, tag: nat, body: Bytes)
    requires |CLIENT| < tag <= MAX_TAG && b == Varint(tag * 8 + 3) + body
    requires Skip(StartGroup, tag, body, RECURSION_LIMIT) == Bad
    ensures DecodeClient(b) == Err(Malformed)
  {
    hide ReadKey, Varint, Skip, DecodeVariant;
    KeyRoundTrip(tag, StartGroup, body);
  }

  /** Unknown groups are passed over up to a hundred deep, and refused beyond. */
  lemma NestingLimit(n: nat)
    requires n >= 1
    ensures DecodeClient(Put(Nest(5, n))) == Err(if n <= 100 then MissingKind else Malformed)
  {
    hide DecodeClient, AllUnknown, Varint, Skip, PutAll, Proper;
    var b := Put(Nest(5, n));
    if n <= 100 {
      NestIsProper(5, n, 100);
      PutSingle(Nest(5, n));
      ExtrasAreUnknown(4, [Nest(5, n)], 100);
      MissingKindIffAllUnknown(b);
    } else {
      var body := NestBody(5, n, []);
      PutOne(5, n);
      assert Varint(44) + [] == Varint(44);
      TooDeep(5, n, [], 100);
      DeepIsMalformed(b, 5, body);
    }
  }

  /** An error code of more than 32 bits is cut down to its low 32. */
  lemma CodeIsNarrow(n: nat)
    requires 0 < n <= U64_MAX
    ensures DecodeServer(Sealed(0x22, [0x10] + Varint(n))) == Ok(Error(0, n % 0x1_0000_0000, []))
  {
    hide Varint, DecodeOneof, Envelope, Sealed, DecodeFields;
    var body := [0x10] + Varint(n);
    CodeField(n);
    VarintLength(n, 0);
    EnvelopeLayout(4, body);
    SealedOpens(SERVER, 4, body);
  }

  lemma CodeField(n: nat)
    requires n <= U64_MAX
    ensures DecodeFields(SERVER[3], Defaults(SERVER[3]), [0x10] + Varint(n), RECURSION_LIMIT - 1)
         == Some([Int(0), Int(n % 0x1_0000_0000), Raw([])])
  {
    hide Varint, ReadVarint;
    var body := [0x10] + Varint(n);
    assert Key(2, VarintWire) == [0x10] by { OneByteKey(2, VarintWire); }
    assert body == Key(2, VarintWire) + (Varint(n) + []);
    KeyRoundTrip(2, VarintWire, Varint(n) + []);
    VarintRoundTrip(n, []);
    assert Varint(n) + [] == Varint(n);
    hide ReadKey, Key;
    var schema, rec := SERVER[3], Defaults(SERVER[3]);
    assert rec == [Int(0), Int(0), Raw([])];
    assert ReadValue(schema[1], VarintWire, Varint(n)) == Good(Int(n % 0x1_0000_0000), []);
    var done := rec[1 := Int(n % 0x1_0000_0000)];
    assert DecodeFields(schema, done, [], RECURSION_LIMIT - 1) == Some(done);
    assert done == [Int(0), Int(n % 0x1_0000_0000), Raw([])];
    assert body != [] && ReadKey(body) == Good((2, VarintWire), Varint(n));
  }

  lemma PutSingle(e: Extra)
    ensures PutAll([e]) == Put(e)
  {
    hide Put;
    assert [e][1..] == [] && Put(e) + [] == Put(e);
  }

  /** A peer that adds fields around the known ones is understood as if it had not. */
  lemma UnknownFieldsIgnored(a: Bytes, u: Bytes, b: Bytes)
    ensures DecodeOneof(CLIENT, Unset, a).Some? && AllUnknown(|CLIENT|, u, RECURSION_LIMIT)
            ==> DecodeClient(a + u + b) == DecodeClient(a + b)
    ensures DecodeOneof(SERVER, Unset, a).Some? && AllUnknown(|SERVER|, u, RECURSION_LIMIT)
            ==> DecodeServer(a + u + b) == DecodeServer(a + b)
  {
    hide DecodeOneof, AllUnknown;
    if DecodeOneof(CLIENT, Unset, a).Some? && AllUnknown(|CLIENT|, u, RECURSION_LIMIT) {
      UnknownIgnoredInOneof(CLIENT, a, u, b);
    }
    if DecodeOneof(SERVER, Unset, a).Some? && AllUnknown(|SERVER|, u, RECURSION_LIMIT) {
      UnknownIgnoredInOneof(SERVER, a, u, b);
    }
  }

  /** Unknown fields between any two fields of a message inside the envelope, whatever is around it, change nothing. */
  lemma UnknownIgnoredInVariant(variants: seq<Schema>, pre: Bytes, tag: nat, a: Bytes, u: Bytes, b: Bytes, post: Bytes)
    requires DecodeOneof(variants, Unset, pre).Some?
    requires 1 <= tag <= |variants| <= MAX_TAG && |a + u + b| <= U64_MAX
    requires DecodeFields(variants[tag - 1], Target(variants, DecodeOneof(variants, Unset, pre).value, tag), a,
                          RECURSION_LIMIT - 1).Some?
    requires AllUnknown(|variants[tag - 1]|, u, RECURSION_LIMIT - 1)
    ensures DecodeOneof(variants, Unset, pre + Envelope(tag, a + u + b) + post)
         == DecodeOneof(variants, Unset, pre + Envelope(tag, a + b) + post)
  {
    hide DecodeFields, AllUnknown, DecodeOneof, Envelope, Target, Shaped;
    var o := DecodeOneof(variants, Unset, pre).value;
    UnknownIgnored(variants[tag - 1], Target(variants, o, tag), a, u, b, RECURSION_LIMIT - 1);
    OneofConcat(variants, Unset, pre, Envelope(tag, a + u + b) + post);
    OneofConcat(variants, Unset, pre, Envelope(tag, a + b) + post);
    EnvelopeOpens(variants, o, tag, a + u + b, post);
    EnvelopeOpens(variants, o, tag, a + b, post);
    assert pre + (Envelope(tag, a + u + b) + post) == pre + Envelope(tag, a + u + b) + post;
    assert pre + (Envelope(tag, a + b) + post) == pre + Envelope(tag, a + b) + post;
  }

  /** `a` is made of complete fields of the variant `tag`, read after `pre`. */
  predicate Boundary(variants: seq<Schema>, pre: Bytes, tag: nat, a: Bytes) {
    && DecodeOneof(variants, Unset, pre).Some?
    && 1 <= tag <= |variants|
    && DecodeFields(variants[tag - 1], Target(variants, DecodeOneof(variants, Unset, pre).value, tag), a,
                    RECURSION_LIMIT - 1).Some?
  }

  /** The same for client and server frames. */
  lemma UnknownFieldsIgnoredInside(pre: Bytes, tag: nat, a: Bytes, u: Bytes, b: Bytes, post: Bytes)
    requires |a + u + b| <= U64_MAX
    ensures Boundary(CLIENT, pre, tag, a) && AllUnknown(|CLIENT[tag - 1]|, u, RECURSION_LIMIT - 1)
            ==> DecodeClient(pre + Envelope(tag, a + u + b) + post) == DecodeClient(pre + Envelope(tag, a + b) + post)
    ensures Boundary(SERVER, pre, tag, a) && AllUnknown(|SERVER[tag - 1]|, u, RECURSION_LIMIT - 1)
            ==> DecodeServer(pre + Envelope(tag, a + u + b) + post) == DecodeServer(pre + Envelope(tag, a + b) + post)
  {
    hide DecodeFields, AllUnknown, DecodeOneof, Envelope, Target;
    if Boundary(CLIENT, pre, tag, a) && AllUnknown(|CLIENT[tag - 1]|, u, RECURSION_LIMIT - 1) {
      UnknownIgnoredInVariant(CLIENT, pre, tag, a, u, b, post);
    }
    if Boundary(SERVER, pre, tag, a) && AllUnknown(|SERVER[tag - 1]|, u, RECURSION_LIMIT - 1) {
      UnknownIgnoredInVariant(SERVER, pre, tag, a, u, b, post);
    }
  }

  /** A client built for a later schema, with fields added at the end, is read as the frame without them. */
  lemma NewerClientUnderstood(f: ClientFrame, extra: Schema, more: seq<Value>)
    requires AllValid(CLIENT[ClientTag(f) - 1] + extra, ClientRecord(f) + more)
    requires |CLIENT[ClientTag(f) - 1] + extra| <= MAX_TAG
    requires |EncodeFields(CLIENT[ClientTag(f) - 1] + extra, ClientRecord(f) + more)| <= U64_MAX
    ensures DecodeClient(Envelope(ClientTag(f), EncodeFields(CLIENT[ClientTag(f) - 1] + extra, ClientRecord(f) + more)))
         == Ok(f)
  {
    hide EncodeFields, DecodeFields, DecodeOneof, Envelope;
    var schema, rec := CLIENT[ClientTag(f) - 1], ClientRecord(f);
    NewerMessage(schema, extra, rec + more, RECURSION_LIMIT - 1);
    assert (rec + more)[..|schema|] == rec;
    SealedOpens(CLIENT, ClientTag(f), EncodeFields(schema + extra, rec + more));
  }

  // --------------------------------------------------------------------
  // The bytes, field by field, by the numbers of the protocol definition
  // --------------------------------------------------------------------

  /** An integer field under a one-byte key, left out when it is 0. */
  function Number(key: byte, n: nat): Bytes {
    if n == 0 then [] else [key] + Varint(n)
  }

  /** A string or bytes field under a one-byte key, left out when it is empty. */
  function Chunk(key: byte, b: Bytes): Bytes {
    if b == [] then [] else [key] + Varint(|b|) + b
  }

  function Sealed(key: byte, body: Bytes): Bytes {
    [key] + Varint(|body|) + body
  }

  function ClientLayout(f: ClientFrame): Bytes {
    match f
    case Subscribe(id, channel, since) => Sealed(0x0A, Number(0x08, id) + Chunk(0x12, channel) + Number(0x18, since))
    case Unsubscribe(id, channel) => Sealed(0x12, Number(0x08, id) + Chunk(0x12, channel))
    case Publish(id, channel, data) => Sealed(0x1A, Number(0x08, id) + Chunk(0x12, channel) + Chunk(0x1A, data))
    case Connect(id, token) => Sealed(0x22, Number(0x08, id) + Chunk(0x12, token))
  }

  function ServerLayout(f: ServerFrame): Bytes {
    match f
    case SubscribeOk(id, channel, epoch, offset) =>
      Sealed(0x0A, Number(0x08, id) + Chunk(0x12, channel) + Number(0x18, epoch) + Number(0x20, offset))
    case UnsubscribeOk(id, channel) => Sealed(0x12, Number(0x08, id) + Chunk(0x12, channel))
    case Published(p) => Sealed(0x1A, Chunk(0x0A, p.channel) + Number(0x10, p.offset) + Chunk(0x1A, p.data))
    case Error(id, code, message) => Sealed(0x22, Number(0x08, id) + Number(0x10, code) + Chunk(0x1A, message))
    case ConnectOk(id, subject, expires) => Sealed(0x2A, Number(0x08, id) + Chunk(0x12, subject) + Number(0x18, expires))
  }

  lemma OneByteKey(tag: nat, w: WireType)
    requires tag < 16
    ensures Key(tag, w) == [tag * 8 + WireCode(w)]
  {
  }

  /** A field by its number and value. */
  function Field(tag: nat, v: Value): Bytes
    requires 1 <= tag < 16
  {
    if v.Int? then Number(tag * 8, v.n) else Chunk(tag * 8 + 2, v.bytes)
  }

  lemma FieldLayout(tag: nat, k: Kind, v: Value)
    requires 1 <= tag < 16 && v.Int? == IsInt(k)
    ensures EncodeField(tag, k, v) == Field(tag, v)
  {
    hide Key, Varint;
    OneByteKey(tag, VarintWire);
    OneByteKey(tag, Len);
    if v.Raw? && v.bytes != [] {
      assert [tag * 8 + 2] + (Varint(|v.bytes|) + v.bytes) == [tag * 8 + 2] + Varint(|v.bytes|) + v.bytes;
    }
  }

  /** The fields from number `i + 1` on. */
  function Fields(rec: seq<Value>, i: nat := 0): Bytes
    requires i <= |rec| < 15
    decreases |rec| - i
  {
    if i == |rec| then [] else Field(i + 1, rec[i]) + Fields(rec, i + 1)
  }

  lemma {:induction false} FieldsLayout(schema: Schema, rec: seq<Value>, i: nat)
    requires i <= |rec| < 15 && Shaped(schema, rec)
    ensures EncodeFields(schema, rec, i) == Fields(rec, i)
    decreases |rec| - i
  {
    hide EncodeField, Field;
    if i < |rec| {
      FieldLayout(i + 1, schema[i], rec[i]);
      FieldsLayout(schema, rec, i + 1);
    }
  }

  lemma EnvelopeLayout(tag: nat, body: Bytes)
    requires 1 <= tag < 16
    ensures Envelope(tag, body) == Sealed(tag * 8 + 2, body)
  {
    hide Key, Varint;
    OneByteKey(tag, Len);
    assert [tag * 8 + 2] + (Varint(|body|) + body) == [tag * 8 + 2] + Varint(|body|) + body;
  }

  lemma TwoFields(a: Value, b: Value)
    ensures Fields([a, b]) == Field(1, a) + Field(2, b)
  {
    hide Field;
    var rec := [a, b];
    assert Fields(rec, 2) == [];
    assert Fields(rec, 1) == Field(2, b);
  }

  lemma ThreeFields(a: Value, b: Value, c: Value)
    ensures Fields([a, b, c]) == Field(1, a) + Field(2, b) + Field(3, c)
  {
    hide Field;
    var rec := [a, b, c];
    assert Fields(rec, 3) == [];
    assert Fields(rec, 2) == Field(3, c);
    assert Fields(rec, 1) == Field(2, b) + Field(3, c);
  }

  lemma FourFields(a: Value, b: Value, c: Value, d: Value)
    ensures Fields([a, b, c, d]) == Field(1, a) + Field(2, b) + Field(3, c) + Field(4, d)
  {
    hide Field;
    var rec := [a, b, c, d];
    assert Fields(rec, 4) == [];
    assert Fields(rec, 3) == Field(4, d);
    assert Fields(rec, 2) == Field(3, c) + Field(4, d);
    assert Fields(rec, 1) == Field(2, b) + (Field(3, c) + Field(4, d));
  }

  /** A client frame's bytes are those the protocol definition numbers. */
  lemma ClientBytes(f: ClientFrame)
    ensures EncodeClient(f) == ClientLayout(f)
  {
    hide EncodeFields, Number, Chunk, Sealed, Envelope, Fields;
    var rec := ClientRecord(f);
    FieldsLayout(CLIENT[ClientTag(f) - 1], rec, 0);
    EnvelopeLayout(ClientTag(f), Fields(rec));
    match f
    case Subscribe(id, channel, since) => ThreeFields(rec[0], rec[1], rec[2]);
    case Unsubscribe(id, channel) => TwoFields(rec[0], rec[1]);
    case Publish(id, channel, data) => ThreeFields(rec[0], rec[1], rec[2]);
    case Connect(id, token) => TwoFields(rec[0], rec[1]);
  }

  /** And so are a server frame's. */
  lemma ServerBytes(f: ServerFrame)
    ensures EncodeServer(f) == ServerLayout(f)
  {
    hide EncodeFields, Number, Chunk, Sealed, Envelope, Fields;
    var rec := ServerRecord(f);
    FieldsLayout(SERVER[ServerTag(f) - 1], rec, 0);
    EnvelopeLayout(ServerTag(f), Fields(rec));
    match f
    case SubscribeOk(_, _, _, _) => FourFields(rec[0], rec[1], rec[2], rec[3]);
    case UnsubscribeOk(_, _) => TwoFields(rec[0], rec[1]);
    case Published(_) => ThreeFields(rec[0], rec[1], rec[2]);
    case Error(_, _, _) => ThreeFields(rec[0], rec[1], rec[2]);
    case ConnectOk(_, _, _) => ThreeFields(rec[0], rec[1], rec[2]);
  }
}
