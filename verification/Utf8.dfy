/** Well-formed UTF-8, the byte strings a Rust `String` can hold (Unicode 15, table 3-7). */
module Utf8 {
  import opened Types

  predicate Tail(b: byte) { 0x80 <= b < 0xC0 }

  /** Length of the well-formed sequence that starts `b`, or 0 if none does. */
  function SequenceLength(b: Bytes): nat
    ensures SequenceLength(b) <= |b|
  {
    if b == [] then 0
    else if b[0] < 0x80 then 1
    else if |b| >= 2 && 0xC2 <= b[0] < 0xE0 && Tail(b[1]) then 2
    else if |b| >= 3 && 0xE0 <= b[0] < 0xF0 && Tail(b[1]) && Tail(b[2])
            && (b[0] == 0xE0 ==> b[1] >= 0xA0) && (b[0] == 0xED ==> b[1] < 0xA0) then 3
    else if |b| >= 4 && 0xF0 <= b[0] < 0xF5 && Tail(b[1]) && Tail(b[2]) && Tail(b[3])
            && (b[0] == 0xF0 ==> b[1] >= 0x90) && (b[0] == 0xF4 ==> b[1] < 0x90) then 4
    else 0
  }

  predicate ValidUtf8(b: Bytes)
    decreases |b|
  {
    b == [] || (SequenceLength(b) > 0 && ValidUtf8(b[SequenceLength(b)..]))
  }

  // --------------------------------------------------------------------
  // The same, from the encoding of Unicode scalar values
  // --------------------------------------------------------------------

  /** A code point that is not a surrogate. */
  predicate Scalar(c: nat) { c < 0xD800 || 0xE000 <= c < 0x11_0000 }

  /** Its UTF-8 encoding, six bits to a trailing byte (table 3-6). */
  function Encode(c: nat): (b: Bytes)
    requires Scalar(c)
    ensures 1 <= |b| <= 4
  {
    if c < 0x80 then [c]
    else if c < 0x800 then [0xC0 + c / 64, 0x80 + c % 64]
    else if c < 0x1_0000 then [0xE0 + c / 4096, 0x80 + c / 64 % 64, 0x80 + c % 64]
    else [0xF0 + c / 262144, 0x80 + c / 4096 % 64, 0x80 + c / 64 % 64, 0x80 + c % 64]
  }

  function EncodeAll(cs: seq<nat>): Bytes
    requires forall i :: 0 <= i < |cs| ==> Scalar(cs[i])
  {
    if cs == [] then [] else Encode(cs[0]) + EncodeAll(cs[1..])
  }

  /** The encoding of a scalar value is one sequence. */
  lemma EncodeIsSequence(c: nat, rest: Bytes)
    requires Scalar(c)
    ensures SequenceLength(Encode(c) + rest) == |Encode(c)|
  {
  }

  /** Every sequence is the encoding of a scalar value. */
  lemma SequenceIsEncoding(b: Bytes) returns (c: nat)
    requires SequenceLength(b) > 0
    ensures Scalar(c) && b[..SequenceLength(b)] == Encode(c)
  {
    var n, lead: int := SequenceLength(b), b[0];
    if n == 1 {
      c := lead;
    } else {
      var x: int := b[1] - 0x80;
      if n == 2 {
        c := (lead - 0xC0) * 64 + x;
      } else {
        var y: int := b[2] - 0x80;
        if n == 3 {
          c := Three(lead - 0xE0, x, y);
        } else {
          c := Four(lead - 0xF0, x, y, b[3] - 0x80);
        }
      }
    }
  }

  lemma SixBits(high: nat, low: nat)
    requires low < 64
    ensures (high * 64 + low) / 64 == high && (high * 64 + low) % 64 == low
  {
  }

  lemma Three(lead: nat, x: nat, y: nat) returns (c: nat)
    requires lead < 16 && x < 64 && y < 64 && (lead == 0 ==> x >= 0x20) && (lead == 13 ==> x < 0x20)
    ensures Scalar(c) && Encode(c) == [0xE0 + lead, 0x80 + x, 0x80 + y]
  {
    c := (lead * 64 + x) * 64 + y;
    SixBits(lead * 64 + x, y);
    SixBits(lead, x);
    assert c / 4096 == c / 64 / 64;
  }

  lemma Four(lead: nat, x: nat, y: nat, z: nat) returns (c: nat)
    requires lead < 5 && x < 64 && y < 64 && z < 64 && (lead == 0 ==> x >= 0x10) && (lead == 4 ==> x < 0x10)
    ensures Scalar(c) && Encode(c) == [0xF0 + lead, 0x80 + x, 0x80 + y, 0x80 + z]
  {
    c := ((lead * 64 + x) * 64 + y) * 64 + z;
    SixBits((lead * 64 + x) * 64 + y, z);
    SixBits(lead * 64 + x, y);
    SixBits(lead, x);
    assert c / 4096 == c / 64 / 64 && c / 262144 == c / 4096 / 64;
  }

  /** `b` is the encodings of the scalar values `cs`, in order. */
  ghost predicate Spell(cs: seq<nat>, b: Bytes) {
    (forall i :: 0 <= i < |cs| ==> Scalar(cs[i])) && EncodeAll(cs) == b
  }

  /** Well-formed are exactly the concatenations of encodings of scalar values. */
  lemma ValidIffEncodings(b: Bytes)
    ensures ValidUtf8(b) <==> exists cs :: Spell(cs, b)
  {
    if ValidUtf8(b) {
      var cs := Scalars(b);
    }
    if cs :| Spell(cs, b) {
      EncodingsAreValid(cs);
    }
  }

  lemma SpellCons(c: nat, cs: seq<nat>, b: Bytes, n: nat)
    requires n <= |b| && Scalar(c) && b[..n] == Encode(c) && Spell(cs, b[n..])
    ensures Spell([c] + cs, b)
  {
    hide Encode;
    assert ([c] + cs)[1..] == cs && b == b[..n] + b[n..];
  }

  lemma {:induction false} Scalars(b: Bytes) returns (cs: seq<nat>)
    requires ValidUtf8(b)
    ensures Spell(cs, b)
    decreases |b|
  {
    if b == [] {
      cs := [];
    } else {
      var n := SequenceLength(b);
      var c := SequenceIsEncoding(b);
      hide SequenceLength, Encode, Spell, Scalar;
      var more := Scalars(b[n..]);
      cs := [c] + more;
      SpellCons(c, more, b, n);
    }
  }

  lemma {:induction false} EncodingsAreValid(cs: seq<nat>)
    requires forall i :: 0 <= i < |cs| ==> Scalar(cs[i])
    ensures ValidUtf8(EncodeAll(cs))
  {
    if cs != [] {
      var first, rest := Encode(cs[0]), EncodeAll(cs[1..]);
      EncodeIsSequence(cs[0], rest);
      hide SequenceLength, Encode;
      EncodingsAreValid(cs[1..]);
      assert (first + rest)[|first|..] == rest;
    }
  }
}
