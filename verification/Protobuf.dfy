/**
 * Protocol Buffers messages of scalar fields, as the generated code encodes and
 * decodes them: Base 128 varints, length-delimited fields, last one wins, unknown
 * fields skipped. Field `i` of a schema has tag number `i + 1`.
 */
module Protobuf {
  import opened Types
  import opened Utf8

  const U32_MAX: nat := 0xFFFF_FFFF

  // --------------------------------------------------------------------
  // Varints
  // --------------------------------------------------------------------

  function Varint(n: nat): (b: Bytes)
    ensures |b| >= 1
  {
    if n < 128 then [n] else [n % 128 + 128] + Varint(n / 128)
  }

  datatype Read<T> = Bad | Good(value: T, rest: Bytes)

  /** Reads at most ten bytes; the tenth may only carry the top bit of a 64-bit value. */
  function ReadVarint(b: Bytes, k: nat := 0): (r: Read<nat>)
    ensures r.Good? ==> |r.rest| < |b|
    decreases |b|
  {
    if b == [] || k >= 10 then Bad
    else if b[0] < 128 then if k == 9 && b[0] >= 2 then Bad else Good(b[0], b[1..])
    else
      match ReadVarint(b[1..], k + 1)
      case Bad => Bad
      case Good(v, rest) => Good(b[0] - 128 + 128 * v, rest)
  }

  /** What still fits when `k` bytes have been read: 2^64 at the start, 2 at the tenth byte. */
  function Cap(k: nat): nat
    decreases 9 - k
  {
    if k >= 9 then 2 else 128 * Cap(k + 1)
  }

  lemma CapIs64Bit()
    ensures Cap(0) == U64_MAX + 1
  {
    assert Cap(9) == 2 && Cap(8) == 0x100 && Cap(7) == 0x8000 && Cap(6) == 0x40_0000 && Cap(5) == 0x2000_0000;
    assert Cap(4) == 0x10_0000_0000 && Cap(3) == 0x800_0000_0000 && Cap(2) == 0x4_0000_0000_0000;
    assert Cap(1) == 0x200_0000_0000_0000;
  }

  lemma ReadsOn(low: byte, more: Bytes, k: nat)
    requires low < 128 && k < 9 && ReadVarint(more, k + 1).Good?
    ensures ReadVarint([low + 128] + more, k)
         == Good(low + 128 * ReadVarint(more, k + 1).value, ReadVarint(more, k + 1).rest)
  {
    assert ([low + 128] + more)[1..] == more;
  }

  lemma {:induction false} VarintReadsBack(n: nat, rest: Bytes, k: nat)
    requires k <= 9 && n < Cap(k)
    ensures ReadVarint(Varint(n) + rest, k) == Good(n, rest)
    decreases n
  {
    if n < 128 {
      assert (Varint(n) + rest)[1..] == rest;
    } else {
      var low, high := n % 128, n / 128;
      assert n == low + 128 * high && high < Cap(k + 1);
      hide ReadVarint;
      assert Varint(n) + rest == [low + 128] + (Varint(high) + rest);
      VarintReadsBack(high, rest, k + 1);
      ReadsOn(low, Varint(high) + rest, k);
    }
  }

  lemma {:induction false} VarintLength(n: nat, k: nat)
    requires k <= 9 && n < Cap(k)
    ensures |Varint(n)| <= 10 - k
    decreases n
  {
    if n >= 128 { VarintLength(n / 128, k + 1); }
  }

  lemma VarintRoundTrip(n: nat, rest: Bytes)
    requires n <= U64_MAX
    ensures ReadVarint(Varint(n) + rest) == Good(n, rest)
  {
    CapIs64Bit();
    VarintReadsBack(n, rest, 0);
  }

  // --------------------------------------------------------------------
  // Fields
  // --------------------------------------------------------------------

  datatype WireType = VarintWire | Fixed64 | Len | StartGroup | EndGroup | Fixed32

  function WireCode(w: WireType): nat {
    match w
    case VarintWire => 0
    case Fixed64 => 1
    case Len => 2
    case StartGroup => 3
    case EndGroup => 4
    case Fixed32 => 5
  }

  function Key(tag: nat, w: WireType): Bytes { Varint(tag * 8 + WireCode(w)) }

  /** A key is a 32-bit value with a known wire type and a tag number of at least 1. */
  function ReadKey(b: Bytes): (r: Read<(nat, WireType)>)
    ensures r.Good? ==> |r.rest| < |b| && r.value.0 >= 1
  {
    match ReadVarint(b)
    case Bad => Bad
    case Good(v, rest) =>
      if v > U32_MAX || v < 8 then Bad
      else
        match v % 8
        case 0 => Good((v / 8, VarintWire), rest)
        case 1 => Good((v / 8, Fixed64), rest)
        case 2 => Good((v / 8, Len), rest)
        case 3 => Good((v / 8, StartGroup), rest)
        case 4 => Good((v / 8, EndGroup), rest)
        case 5 => Good((v / 8, Fixed32), rest)
        case _ => Bad
  }

  const MAX_TAG: nat := 0x1FFF_FFFF

  lemma KeyRoundTrip(tag: nat, w: WireType, rest: Bytes)
    requires 1 <= tag <= MAX_TAG
    ensures ReadKey(Key(tag, w) + rest) == Good((tag, w), rest)
  {
    VarintRoundTrip(tag * 8 + WireCode(w), rest);
  }

  /** A length-delimited payload. */
  function ReadDelimited(b: Bytes): (r: Read<Bytes>)
    ensures r.Good? ==> |r.rest| < |b|
  {
    match ReadVarint(b)
    case Bad => Bad
    case Good(n, rest) => if n > |rest| then Bad else Good(rest[..n], rest[n..])
  }

  function Delimited(payload: Bytes): Bytes { Varint(|payload|) + payload }

  lemma DelimitedRoundTrip(payload: Bytes, rest: Bytes)
    requires |payload| <= U64_MAX
    ensures ReadDelimited(Delimited(payload) + rest) == Good(payload, rest)
  {
    assert Delimited(payload) + rest == Varint(|payload|) + (payload + rest);
    VarintRoundTrip(|payload|, payload + rest);
  }

  /** Skips one unknown field's payload; groups nest at most `depth` deep. */
  function Skip(w: WireType, tag: nat, b: Bytes, depth: nat): (r: Read<()>)
    ensures r.Good? ==> |r.rest| <= |b|
    decreases |b|, 1
  {
    if depth == 0 then Bad
    else
      match w
      case VarintWire => (match ReadVarint(b) case Bad => Bad case Good(_, rest) => Good((), rest))
      case Fixed64 => if |b| < 8 then Bad else Good((), b[8..])
      case Fixed32 => if |b| < 4 then Bad else Good((), b[4..])
      case Len => (match ReadDelimited(b) case Bad => Bad case Good(_, rest) => Good((), rest))
      case StartGroup => SkipGroup(tag, b, depth)
      case EndGroup => Bad
  }

  function SkipGroup(tag: nat, b: Bytes, depth: nat): (r: Read<()>)
    requires depth > 0
    ensures r.Good? ==> |r.rest| <= |b|
    decreases |b|, 0
  {
    match ReadKey(b)
    case Bad => Bad
    case Good((inner, w), rest) =>
      if w == EndGroup then if inner == tag then Good((), rest) else Bad
      else
        match Skip(w, inner, rest, depth - 1)
        case Bad => Bad
        case Good(_, after) => SkipGroup(tag, after, depth)
  }

  // --------------------------------------------------------------------
  // Messages of scalar fields
  // --------------------------------------------------------------------

  datatype Kind = U64 | U32 | Text | Blob

  datatype Value = Int(n: nat) | Raw(bytes: Bytes)

  type Schema = seq<Kind>

  predicate IsInt(k: Kind) { k.U64? || k.U32? }

  function Default(k: Kind): Value { if IsInt(k) then Int(0) else Raw([]) }

  function Defaults(schema: Schema): (rec: seq<Value>)
    ensures Shaped(schema, rec)
  {
    seq(|schema|, i requires 0 <= i < |schema| => Default(schema[i]))
  }

  predicate Shaped(schema: Schema, rec: seq<Value>) {
    |rec| == |schema| && forall i :: 0 <= i < |rec| ==> rec[i].Int? == IsInt(schema[i])
  }

  /** A value the field can carry: 64- or 32-bit, well-formed text, a length that fits 64 bits. */
  predicate Valid(k: Kind, v: Value) {
    match k
    case U64 => v.Int? && v.n <= U64_MAX
    case U32 => v.Int? && v.n <= U32_MAX
    case Text => v.Raw? && |v.bytes| <= U64_MAX && ValidUtf8(v.bytes)
    case Blob => v.Raw? && |v.bytes| <= U64_MAX
  }

  predicate AllValid(schema: Schema, rec: seq<Value>) {
    |rec| == |schema| && forall i :: 0 <= i < |rec| ==> Valid(schema[i], rec[i])
  }

  function WriteField(tag: nat, v: Value): Bytes {
    if v.Int? then Key(tag, VarintWire) + Varint(v.n) else Key(tag, Len) + Delimited(v.bytes)
  }

  /** A tag and a length, or a tag and an integer, take at most ten bytes each. */
  lemma FieldLength(tag: nat, v: Value)
    requires tag <= MAX_TAG
    requires if v.Int? then v.n <= U64_MAX else |v.bytes| <= U64_MAX
    ensures |WriteField(tag, v)| <= 20 + if v.Int? then 0 else |v.bytes|
  {
    CapIs64Bit();
    VarintLength(tag * 8 + WireCode(if v.Int? then VarintWire else Len), 0);
    VarintLength(if v.Int? then v.n else |v.bytes|, 0);
  }

  /** A field equal to its default is left out. */
  function EncodeField(tag: nat, k: Kind, v: Value): Bytes {
    if v == Default(k) then [] else WriteField(tag, v)
  }

  function EncodeFields(schema: Schema, rec: seq<Value>, i: nat := 0): Bytes
    requires |rec| == |schema| && i <= |rec|
    decreases |rec| - i
  {
    if i == |rec| then [] else EncodeField(i + 1, schema[i], rec[i]) + EncodeFields(schema, rec, i + 1)
  }

  /** Reads one known field's payload. */
  function ReadValue(k: Kind, w: WireType, b: Bytes): (r: Read<Value>)
    ensures r.Good? ==> |r.rest| < |b| && r.value.Int? == IsInt(k)
  {
    if IsInt(k) then
      if w != VarintWire then Bad
      else
        match ReadVarint(b)
        case Bad => Bad
        case Good(n, rest) => Good(Int(if k.U32? then n % (U32_MAX + 1) else n), rest)
    else if w != Len then Bad
    else
      match ReadDelimited(b)
      case Bad => Bad
      case Good(payload, rest) => if k.Text? && !ValidUtf8(payload) then Bad else Good(Raw(payload), rest)
  }

  /** Merges the fields of `b` into `rec`: the last occurrence of a field wins, unknown fields are skipped. */
  function DecodeFields(schema: Schema, rec: seq<Value>, b: Bytes, depth: nat): (r: Option<seq<Value>>)
    requires Shaped(schema, rec)
    ensures r.Some? ==> Shaped(schema, r.value)
    decreases |b|
  {
    if b == [] then Some(rec)
    else
      match ReadKey(b)
      case Bad => None
      case Good((tag, w), rest) =>
        if 1 <= tag <= |schema| then
          match ReadValue(schema[tag - 1], w, rest)
          case Bad => None
          case Good(v, after) => DecodeFields(schema, rec[tag - 1 := v], after, depth)
        else
          match Skip(w, tag, rest, depth)
          case Bad => None
          case Good(_, after) => DecodeFields(schema, rec, after, depth)
  }

  lemma ValueRoundTrip(k: Kind, v: Value, rest: Bytes)
    requires Valid(k, v)
    ensures v.Int? ==> ReadValue(k, VarintWire, Varint(v.n) + rest) == Good(v, rest)
    ensures v.Raw? ==> ReadValue(k, Len, Delimited(v.bytes) + rest) == Good(v, rest)
  {
    if v.Int? { VarintRoundTrip(v.n, rest); } else { DelimitedRoundTrip(v.bytes, rest); }
  }

  /** One known field at the front of the bytes is merged and consumed. */
  lemma TakesField(schema: Schema, rec: seq<Value>, i: nat, w: WireType, v: Value, b: Bytes, body: Bytes, rest: Bytes, depth: nat)
    requires Shaped(schema, rec) && i < |schema| && b != []
    requires ReadKey(b) == Good((i + 1, w), body) && ReadValue(schema[i], w, body) == Good(v, rest)
    ensures Shaped(schema, rec[i := v])
    ensures DecodeFields(schema, rec, b, depth) == DecodeFields(schema, rec[i := v], rest, depth)
  {
    hide ReadKey, ReadValue, Skip, SkipGroup;
  }

  lemma WrittenReadsBack(schema: Schema, rec: seq<Value>, i: nat, v: Value, rest: Bytes, depth: nat)
    requires Shaped(schema, rec) && i < |schema| <= MAX_TAG && Valid(schema[i], v)
    ensures DecodeFields(schema, rec, WriteField(i + 1, v) + rest, depth)
         == DecodeFields(schema, rec[i := v], rest, depth)
  {
    hide DecodeFields, ReadKey, ReadValue, Skip, SkipGroup, Varint, Delimited;
    var b := WriteField(i + 1, v) + rest;
    var w := if v.Int? then VarintWire else Len;
    var body := if v.Int? then Varint(v.n) + rest else Delimited(v.bytes) + rest;
    assert b == Key(i + 1, w) + body;
    KeyRoundTrip(i + 1, w, body);
    ValueRoundTrip(schema[i], v, rest);
    TakesField(schema, rec, i, w, v, b, body, rest, depth);
  }

  lemma FieldReadsBack(schema: Schema, rec: seq<Value>, i: nat, v: Value, rest: Bytes, depth: nat)
    requires Shaped(schema, rec) && i < |schema| <= MAX_TAG && Valid(schema[i], v) && rec[i] == Default(schema[i])
    ensures DecodeFields(schema, rec, EncodeField(i + 1, schema[i], v) + rest, depth)
         == DecodeFields(schema, rec[i := v], rest, depth)
  {
    hide DecodeFields, WriteField;
    if v == Default(schema[i]) {
      assert EncodeField(i + 1, schema[i], v) + rest == rest && rec[i := v] == rec;
    } else {
      WrittenReadsBack(schema, rec, i, v, rest, depth);
    }
  }

  // --------------------------------------------------------------------
  // Concatenation is merging
  // --------------------------------------------------------------------

  lemma {:induction false} VarintExtends(b: Bytes, more: Bytes, k: nat)
    requires ReadVarint(b, k).Good?
    ensures ReadVarint(b + more, k) == Good(ReadVarint(b, k).value, ReadVarint(b, k).rest + more)
    decreases |b|
  {
    assert (b + more)[1..] == b[1..] + more;
    if b[0] >= 128 { VarintExtends(b[1..], more, k + 1); }
  }

  lemma KeyExtends(b: Bytes, more: Bytes)
    requires ReadKey(b).Good?
    ensures ReadKey(b + more) == Good(ReadKey(b).value, ReadKey(b).rest + more)
  {
    VarintExtends(b, more, 0);
  }

  lemma DelimitedExtends(b: Bytes, more: Bytes)
    requires ReadDelimited(b).Good?
    ensures ReadDelimited(b + more) == Good(ReadDelimited(b).value, ReadDelimited(b).rest + more)
  {
    VarintExtends(b, more, 0);
    var n, rest := ReadVarint(b).value, ReadVarint(b).rest;
    assert (rest + more)[..n] == rest[..n] && (rest + more)[n..] == rest[n..] + more;
  }

  lemma ValueExtends(k: Kind, w: WireType, b: Bytes, more: Bytes)
    requires ReadValue(k, w, b).Good?
    ensures ReadValue(k, w, b + more) == Good(ReadValue(k, w, b).value, ReadValue(k, w, b).rest + more)
  {
    if IsInt(k) { VarintExtends(b, more, 0); } else { DelimitedExtends(b, more); }
  }

  lemma {:induction false} SkipExtends(w: WireType, tag: nat, b: Bytes, more: Bytes, depth: nat)
    requires Skip(w, tag, b, depth).Good?
    ensures Skip(w, tag, b + more, depth) == Good((), Skip(w, tag, b, depth).rest + more)
    decreases |b|, 1
  {
    hide ReadVarint, ReadDelimited;
    match w
    case VarintWire => VarintExtends(b, more, 0);
    case Len => DelimitedExtends(b, more);
    case Fixed64 => assert (b + more)[8..] == b[8..] + more;
    case Fixed32 => assert (b + more)[4..] == b[4..] + more;
    case StartGroup => SkipGroupExtends(tag, b, more, depth);
  }

  lemma {:induction false} SkipGroupExtends(tag: nat, b: Bytes, more: Bytes, depth: nat)
    requires depth > 0 && SkipGroup(tag, b, depth).Good?
    ensures SkipGroup(tag, b + more, depth) == Good((), SkipGroup(tag, b, depth).rest + more)
    decreases |b|, 0
  {
    hide ReadKey;
    KeyExtends(b, more);
    var Good((inner, w), rest) := ReadKey(b);
    if w != EndGroup {
      SkipExtends(w, inner, rest, more, depth - 1);
      SkipGroupExtends(tag, Skip(w, inner, rest, depth - 1).rest, more, depth);
    }
  }

  /** Decoding `a + b` merges `b` into what `a` decodes to. */
  lemma {:induction false} DecodeConcat(schema: Schema, rec: seq<Value>, a: Bytes, b: Bytes, depth: nat)
    requires Shaped(schema, rec) && DecodeFields(schema, rec, a, depth).Some?
    ensures DecodeFields(schema, rec, a + b, depth)
         == DecodeFields(schema, DecodeFields(schema, rec, a, depth).value, b, depth)
    decreases |a|
  {
    hide ReadKey, ReadValue, Skip, SkipGroup;
    if a == [] {
      assert a + b == b;
    } else {
      KeyExtends(a, b);
      var Good((tag, w), rest) := ReadKey(a);
      if 1 <= tag <= |schema| {
        ValueExtends(schema[tag - 1], w, rest, b);
        var Good(v, after) := ReadValue(schema[tag - 1], w, rest);
        DecodeConcat(schema, rec[tag - 1 := v], after, b, depth);
      } else {
        SkipExtends(w, tag, rest, b, depth);
        DecodeConcat(schema, rec, Skip(w, tag, rest, depth).rest, b, depth);
      }
    }
  }

  /** Complete, well-formed fields none of which a schema of `known` fields has. */
  predicate AllUnknown(known: nat, u: Bytes, depth: nat)
    decreases |u|
  {
    u == [] ||
    match ReadKey(u)
    case Bad => false
    case Good((tag, w), rest) =>
      tag > known &&
      match Skip(w, tag, rest, depth)
      case Bad => false
      case Good(_, after) => AllUnknown(known, after, depth)
  }

  lemma {:induction false} UnknownChangesNothing(schema: Schema, rec: seq<Value>, u: Bytes, depth: nat)
    requires Shaped(schema, rec) && AllUnknown(|schema|, u, depth)
    ensures DecodeFields(schema, rec, u, depth) == Some(rec)
    decreases |u|
  {
    hide ReadKey, ReadValue, Skip, SkipGroup;
    if u != [] {
      var Good((tag, w), rest) := ReadKey(u);
      UnknownChangesNothing(schema, rec, Skip(w, tag, rest, depth).rest, depth);
    }
  }

  /** Unknown fields may be inserted after any complete fields, before any bytes. */
  lemma UnknownIgnored(schema: Schema, rec: seq<Value>, a: Bytes, u: Bytes, b: Bytes, depth: nat)
    requires Shaped(schema, rec) && DecodeFields(schema, rec, a, depth).Some? && AllUnknown(|schema|, u, depth)
    ensures DecodeFields(schema, rec, a + u + b, depth) == DecodeFields(schema, rec, a + b, depth)
  {
    hide DecodeFields, AllUnknown;
    var seen := DecodeFields(schema, rec, a, depth).value;
    DecodeConcat(schema, rec, a, u + b, depth);
    assert a + (u + b) == a + u + b;
    UnknownChangesNothing(schema, seen, u, depth);
    DecodeConcat(schema, seen, u, b, depth);
    DecodeConcat(schema, rec, a, b, depth);
  }

  // --------------------------------------------------------------------
  // Round trip, also between two versions of a schema
  // --------------------------------------------------------------------

  lemma SkipsField(known: nat, i: nat, k: Kind, v: Value, rest: Bytes, depth: nat)
    requires known <= i < MAX_TAG && Valid(k, v) && depth > 0
    ensures AllUnknown(known, EncodeField(i + 1, k, v) + rest, depth) == AllUnknown(known, rest, depth)
  {
    hide ReadKey, ReadVarint, ReadDelimited, Varint, Delimited;
    var b := EncodeField(i + 1, k, v) + rest;
    if v == Default(k) {
      assert b == rest;
    } else {
      var w := if v.Int? then VarintWire else Len;
      var body := if v.Int? then Varint(v.n) + rest else Delimited(v.bytes) + rest;
      assert b == Key(i + 1, w) + body;
      KeyRoundTrip(i + 1, w, body);
      if v.Int? { VarintRoundTrip(v.n, rest); } else { DelimitedRoundTrip(v.bytes, rest); }
    }
  }

  lemma {:induction false} LaterFieldsUnknown(schema: Schema, rec: seq<Value>, known: nat, i: nat, depth: nat)
    requires AllValid(schema, rec) && known <= i <= |schema| <= MAX_TAG && depth > 0
    ensures AllUnknown(known, EncodeFields(schema, rec, i), depth)
    decreases |schema| - i
  {
    hide EncodeField, ReadKey, Skip, SkipGroup;
    if i < |schema| {
      LaterFieldsUnknown(schema, rec, known, i + 1, depth);
      SkipsField(known, i, schema[i], rec[i], EncodeFields(schema, rec, i + 1), depth);
    }
  }

  /** Decoding from field `i` on, when the encoder knows `extra` fields the decoder does not. */
  lemma {:induction false} FieldsReadBack(schema: Schema, extra: Schema, rec: seq<Value>, i: nat, depth: nat)
    requires AllValid(schema + extra, rec) && i <= |schema| && |schema + extra| <= MAX_TAG && depth > 0
    ensures DecodeFields(schema, rec[..i] + Defaults(schema)[i..], EncodeFields(schema + extra, rec, i), depth)
         == Some(rec[..|schema|])
    decreases |schema| - i
  {
    hide ReadKey, ReadValue, Skip, SkipGroup, EncodeField, AllUnknown, ValidUtf8;
    var partial := rec[..i] + Defaults(schema)[i..];
    forall j | 0 <= j < |schema| ensures partial[j].Int? == IsInt(schema[j]) {
      assert Valid((schema + extra)[j], rec[j]);
    }
    if i == |schema| {
      assert partial == rec[..i];
      LaterFieldsUnknown(schema + extra, rec, i, i, depth);
      UnknownChangesNothing(schema, partial, EncodeFields(schema + extra, rec, i), depth);
    } else {
      assert (schema + extra)[i] == schema[i];
      FieldReadsBack(schema, partial, i, rec[i], EncodeFields(schema + extra, rec, i + 1), depth);
      assert partial[i := rec[i]] == rec[..i + 1] + Defaults(schema)[i + 1..];
      FieldsReadBack(schema, extra, rec, i + 1, depth);
    }
  }

  /** A message with fields added at the end reads, in the old schema, as its old fields. */
  lemma NewerMessage(schema: Schema, extra: Schema, rec: seq<Value>, depth: nat)
    requires AllValid(schema + extra, rec) && |schema + extra| <= MAX_TAG && depth > 0
    ensures DecodeFields(schema, Defaults(schema), EncodeFields(schema + extra, rec), depth) == Some(rec[..|schema|])
  {
    assert rec[..0] + Defaults(schema)[0..] == Defaults(schema);
    FieldsReadBack(schema, extra, rec, 0, depth);
  }

  lemma MessageRoundTrip(schema: Schema, rec: seq<Value>, depth: nat)
    requires AllValid(schema, rec) && |schema| <= MAX_TAG && depth > 0
    ensures DecodeFields(schema, Defaults(schema), EncodeFields(schema, rec), depth) == Some(rec)
  {
    assert schema + [] == schema && rec[..|schema|] == rec;
    NewerMessage(schema, [], rec, depth);
  }

  // --------------------------------------------------------------------
  // Unknown fields, as a writer puts them
  // --------------------------------------------------------------------

  /** Any field of the wire format, groups with the fields inside them. */
  datatype Extra =
    | Whole(tag: nat, n: nat)
    | Eight(tag: nat, bytes: Bytes)
    | Payload(tag: nat, bytes: Bytes)
    | Group(tag: nat, inside: seq<Extra>)
    | Four(tag: nat, bytes: Bytes)

  /** The wire type is in the low three bits of the key. */
  function Put(e: Extra): Bytes
    decreases e, 0
  {
    match e
    case Whole(tag, n) => Varint(tag * 8) + Varint(n)
    case Eight(tag, b) => Varint(tag * 8 + 1) + b
    case Payload(tag, b) => Varint(tag * 8 + 2) + (Varint(|b|) + b)
    case Group(tag, inside) => Varint(tag * 8 + 3) + (PutAll(inside) + Varint(tag * 8 + 4))
    case Four(tag, b) => Varint(tag * 8 + 5) + b
  }

  function PutAll(es: seq<Extra>): Bytes
    decreases es, 1
  {
    if es == [] then [] else Put(es[0]) + PutAll(es[1..])
  }

  /** Well-formed, with groups nested at most `depth` deep. */
  predicate Proper(e: Extra, depth: nat)
    decreases e
  {
    && 1 <= e.tag <= MAX_TAG && depth > 0
    && match e
       case Whole(_, n) => n <= U64_MAX
       case Eight(_, b) => |b| == 8
       case Payload(_, b) => |b| <= U64_MAX
       case Group(_, inside) => forall i :: 0 <= i < |inside| ==> Proper(inside[i], depth - 1)
       case Four(_, b) => |b| == 4
  }

  /** The field is skipped whole. */
  ghost predicate Skips(e: Extra, rest: Bytes, depth: nat) {
    exists w, after :: ReadKey(Put(e) + rest) == Good((e.tag, w), after) && w != EndGroup && Skip(w, e.tag, after, depth) == Good((), rest)
  }

  lemma KeyCode(tag: nat, w: WireType, body: Bytes, rest: Bytes)
    requires 1 <= tag <= MAX_TAG
    ensures ReadKey(Varint(tag * 8 + WireCode(w)) + body + rest) == Good((tag, w), body + rest)
  {
    hide ReadKey, Varint;
    KeyRoundTrip(tag, w, body + rest);
    assert Varint(tag * 8 + WireCode(w)) + body + rest == Varint(tag * 8 + WireCode(w)) + (body + rest);
  }

  lemma {:induction false} SkipsExtra(e: Extra, rest: Bytes, depth: nat)
    requires Proper(e, depth)
    ensures Skips(e, rest, depth)
    decreases e, 0
  {
    hide ReadKey, Varint;
    match e
    case Whole(tag, n) =>
      KeyCode(tag, VarintWire, Varint(n), rest);
      VarintRoundTrip(n, rest);
    case Eight(tag, b) =>
      KeyCode(tag, Fixed64, b, rest);
      assert (b + rest)[8..] == rest;
    case Payload(tag, b) =>
      KeyCode(tag, Len, Delimited(b), rest);
      DelimitedRoundTrip(b, rest);
    case Group(tag, inside) =>
      var body := PutAll(inside) + Varint(tag * 8 + 4);
      KeyCode(tag, StartGroup, body, rest);
      SkipsInside(tag, inside, rest, depth);
      assert body + rest == PutAll(inside) + (Varint(tag * 8 + 4) + rest);
    case Four(tag, b) =>
      KeyCode(tag, Fixed32, b, rest);
      assert (b + rest)[4..] == rest;
  }

  lemma {:induction false} SkipsInside(tag: nat, es: seq<Extra>, rest: Bytes, depth: nat)
    requires 1 <= tag <= MAX_TAG && depth > 0 && forall i :: 0 <= i < |es| ==> Proper(es[i], depth - 1)
    ensures SkipGroup(tag, PutAll(es) + (Varint(tag * 8 + 4) + rest), depth) == Good((), rest)
    decreases es, 1
  {
    hide ReadKey, Varint, Put, Skip;
    var end := Varint(tag * 8 + 4) + rest;
    if es == [] {
      assert PutAll(es) + end == end;
      KeyRoundTrip(tag, EndGroup, rest);
    } else {
      var more := PutAll(es[1..]) + end;
      assert PutAll(es) + end == Put(es[0]) + more;
      SkipsExtra(es[0], more, depth - 1);
      SkipsInside(tag, es[1..], rest, depth);
    }
  }

  /** Whatever well-formed fields a newer peer adds are unknown fields to an older one. */
  lemma {:induction false} ExtrasAreUnknown(known: nat, es: seq<Extra>, depth: nat)
    requires forall i :: 0 <= i < |es| ==> es[i].tag > known && Proper(es[i], depth)
    ensures AllUnknown(known, PutAll(es), depth)
  {
    hide ReadKey, Varint, Put, Skip, Proper;
    if es != [] {
      SkipsExtra(es[0], PutAll(es[1..]), depth);
      ExtrasAreUnknown(known, es[1..], depth);
    }
  }

  // --------------------------------------------------------------------
  // What is refused
  // --------------------------------------------------------------------

  /** A key of more than 32 bits, or with field number 0, is refused. */
  lemma KeyIsNarrow(n: nat, rest: Bytes)
    requires n <= U64_MAX && (n >= 0x1_0000_0000 || n < 8)
    ensures ReadKey(Varint(n) + rest) == Bad
  {
    hide Varint, ReadVarint;
    VarintRoundTrip(n, rest);
  }

  /** A group must be ended under its own number. */
  lemma {:induction false} GroupEndsUnderItsNumber(tag: nat, other: nat, es: seq<Extra>, rest: Bytes, depth: nat)
    requires 1 <= other <= MAX_TAG && other != tag && depth > 0
    requires forall i :: 0 <= i < |es| ==> Proper(es[i], depth - 1)
    ensures SkipGroup(tag, PutAll(es) + (Varint(other * 8 + 4) + rest), depth) == Bad
  {
    hide ReadKey, Varint, Put, Skip;
    var end := Varint(other * 8 + 4) + rest;
    if es == [] {
      assert PutAll(es) + end == end;
      KeyRoundTrip(other, EndGroup, rest);
    } else {
      var more := PutAll(es[1..]) + end;
      assert PutAll(es) + end == Put(es[0]) + more;
      SkipsExtra(es[0], more, depth - 1);
      GroupEndsUnderItsNumber(tag, other, es[1..], rest, depth);
    }
  }

  /** `n` groups, one inside the other. */
  function Nest(tag: nat, n: nat): Extra {
    Group(tag, if n <= 1 then [] else [Nest(tag, n - 1)])
  }

  lemma {:induction false} NestIsProper(tag: nat, n: nat, depth: nat)
    requires 1 <= tag <= MAX_TAG && 1 <= n <= depth
    ensures Proper(Nest(tag, n), depth)
    decreases n
  {
    if n > 1 { NestIsProper(tag, n - 1, depth - 1); }
  }

  /** What follows the opening key of `n` nested groups. */
  function NestBody(tag: nat, n: nat, rest: Bytes): Bytes {
    (if n <= 1 then [] else Put(Nest(tag, n - 1))) + (Varint(tag * 8 + 4) + rest)
  }

  lemma NestBodyOpens(tag: nat, n: nat, rest: Bytes)
    requires 1 <= tag <= MAX_TAG && n > 1
    ensures ReadKey(NestBody(tag, n, rest)) == Good((tag, StartGroup), NestBody(tag, n - 1, Varint(tag * 8 + 4) + rest))
  {
    hide ReadKey, Varint, PutAll;
    var end := Varint(tag * 8 + 4) + rest;
    PutOne(tag, n - 1);
    var inner := PutAll(Nest(tag, n - 1).inside);
    assert Put(Nest(tag, n - 1)) + end == Varint(tag * 8 + 3) + (inner + (Varint(tag * 8 + 4) + end));
    KeyRoundTrip(tag, StartGroup, inner + (Varint(tag * 8 + 4) + end));
  }

  /** Groups nested deeper than allowed are refused. */
  lemma {:induction false} TooDeep(tag: nat, n: nat, rest: Bytes, depth: nat)
    requires 1 <= tag <= MAX_TAG && n > depth
    ensures Skip(StartGroup, tag, NestBody(tag, n, rest), depth) == Bad
    decreases depth
  {
    hide ReadKey, Varint, NestBody;
    if depth > 0 {
      NestBodyOpens(tag, n, rest);
      TooDeep(tag, n - 1, Varint(tag * 8 + 4) + rest, depth - 1);
    }
  }

  lemma PutOne(tag: nat, n: nat)
    ensures PutAll(Nest(tag, n).inside) == if n <= 1 then [] else Put(Nest(tag, n - 1))
  {
    hide Put;
    if n > 1 {
      assert Nest(tag, n).inside == [Nest(tag, n - 1)] && [Nest(tag, n - 1)][1..] == [];
      assert PutAll([Nest(tag, n - 1)]) == Put(Nest(tag, n - 1)) + [];
    }
  }
}
