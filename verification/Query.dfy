/** Channel names in the query string of a server-sent events subscription. */
module Query {
  import opened Types
  import opened Utf8

  const AMP: byte := '&' as int
  const EQUALS: byte := '=' as int
  const PERCENT: byte := '%' as int
  const PLUS: byte := '+' as int
  const SPACE: byte := ' ' as int

  const CHANNEL_KEY: Bytes :=
    ['c' as int, 'h' as int, 'a' as int, 'n' as int, 'n' as int, 'e' as int, 'l' as int]

  // --------------------------------------------------------------------
  // Percent-decoding
  // --------------------------------------------------------------------

  function HexDigit(c: byte): (r: Option<byte>)
    ensures r.Some? ==> r.value < 16
  {
    if 0x30 <= c <= 0x39 then Some(c - 0x30)
    else if 0x41 <= c <= 0x46 then Some(c - 0x41 + 10)
    else if 0x61 <= c <= 0x66 then Some(c - 0x61 + 10)
    else None
  }

  /** Two characters as a base 16 number; a plus sign is taken for the sign of a one-digit number. */
  function HexPair(a: byte, b: byte): Option<byte> {
    if HexDigit(b).None? then None
    else if a == PLUS then HexDigit(b)
    else if HexDigit(a).None? then None
    else Some(HexDigit(a).value * 16 + HexDigit(b).value)
  }

  function Cons(c: byte, rest: Option<Bytes>): Option<Bytes> {
    if rest.None? then None else Some([c] + rest.value)
  }

  /** Undoes the escapes; `None` when the two bytes after a percent sign are not text. */
  function Unescape(s: Bytes): (r: Option<Bytes>)
    ensures r.Some? ==> |r.value| <= |s|
    decreases |s|
  {
    if s == [] then Some([])
    else if s[0] == PLUS then Cons(SPACE, Unescape(s[1..]))
    else if s[0] == PERCENT && |s| > 2 then
      if !ValidUtf8(s[1..3]) then None
      else
        match HexPair(s[1], s[2])
        case Some(c) => Cons(c, Unescape(s[3..]))
        case None => Cons(PERCENT, Unescape(s[1..]))
    else Cons(s[0], Unescape(s[1..]))
  }

  /** A name is what its escapes decode to, if that is text. */
  function Decode(s: Bytes): (r: Option<Bytes>)
    ensures r.Some? ==> |r.value| <= |s| && ValidUtf8(r.value)
  {
    var r := Unescape(s);
    if r.Some? && ValidUtf8(r.value) then r else None
  }

  function Prepend(done: Bytes, rest: Option<Bytes>): Option<Bytes> {
    if rest.None? then None else Some(done + rest.value)
  }

  lemma PrependCons(done: Bytes, c: byte, rest: Option<Bytes>)
    ensures Prepend(done, Cons(c, rest)) == Prepend(done + [c], rest)
  {
    if rest.Some? { assert done + ([c] + rest.value) == done + [c] + rest.value; }
  }

  method UrlDecode(s: Bytes) returns (r: Option<Bytes>)
    ensures r == Decode(s)
    ensures forall text :: r == Some(text) <==> ValidUtf8(text) && Reads(s, text)
  {
    forall text ensures Unescape(s) == Some(text) <==> Reads(s, text) { UnescapeIff(s, text); }
    hide Reads;
    hide Cons, Prepend, ValidUtf8, HexPair;
    var out: Bytes, i := [], 0;
    assert s[0..] == s;
    PrependNothing(Unescape(s));
    while i < |s|
      invariant 0 <= i <= |s|
      invariant Unescape(s) == Prepend(out, Unescape(s[i..]))
    {
      ghost var rest := s[i..];
      var c, n := s[i], 1;
      if s[i] == PLUS {
        c := SPACE;
      } else if s[i] == PERCENT && i + 2 < |s| {
        assert s[i + 1..i + 3] == rest[1..3];
        if !ValidUtf8(s[i + 1..i + 3]) {
          PrependNone(out);
          return None;
        }
        var pair := HexPair(s[i + 1], s[i + 2]);
        if pair.Some? { c, n := pair.value, 3; }
      }
      assert rest[n..] == s[i + n..];
      assert Unescape(rest) == Cons(c, Unescape(s[i + n..]));
      PrependCons(out, c, Unescape(s[i + n..]));
      out, i := out + [c], i + n;
    }
    assert s[i..] == [];
    PrependToEnd(out);
    r := if ValidUtf8(out) then Some(out) else None;
  }

  lemma PrependNothing(r: Option<Bytes>)
    ensures Prepend([], r) == r
  {
    if r.Some? { assert [] + r.value == r.value; }
  }

  lemma PrependNone(out: Bytes)
    ensures Prepend(out, None) == None
  {
  }

  lemma PrependToEnd(out: Bytes)
    ensures Prepend(out, Unescape([])) == Some(out)
  {
    assert out + [] == out;
  }

  // --------------------------------------------------------------------
  // Pairs
  // --------------------------------------------------------------------

  function IndexOf(s: Bytes, c: byte): (i: nat)
    ensures i <= |s|
    ensures i < |s| ==> s[i] == c
    ensures c !in s[..i]
  {
    if s == [] || s[0] == c then 0 else 1 + IndexOf(s[1..], c)
  }

  /** The name a `channel=` pair carries, if it carries one; nothing for any other pair. */
  function NameIn(pair: Bytes): (r: seq<Channel>)
    ensures |r| <= 1
  {
    var i := IndexOf(pair, EQUALS);
    if i == |pair| || pair[..i] != CHANNEL_KEY then []
    else
      match Decode(pair[i + 1..])
      case None => []
      case Some(name) => if name == [] then [] else [name]
  }

  function Split(q: Bytes): (pairs: seq<Bytes>)
    ensures |pairs| >= 1
    decreases |q|
  {
    var i := IndexOf(q, AMP);
    if i == |q| then [q] else [q[..i]] + Split(q[i + 1..])
  }

  function Names(pairs: seq<Bytes>): seq<Channel> {
    if pairs == [] then [] else NameIn(pairs[0]) + Names(pairs[1..])
  }

  lemma {:induction false} NamesSnoc(pairs: seq<Bytes>, pair: Bytes)
    ensures Names(pairs + [pair]) == Names(pairs) + NameIn(pair)
  {
    hide NameIn;
    if pairs == [] {
      assert (pairs + [pair])[1..] == [];
    } else {
      assert (pairs + [pair])[1..] == pairs[1..] + [pair];
      NamesSnoc(pairs[1..], pair);
    }
  }

  method ChannelsFromRawQuery(query: Option<Bytes>) returns (out: seq<Channel>)
    ensures query.None? ==> out == []
    ensures query.Some? ==> out == Names(Split(query.value))
  {
    hide Decode;
    out := [];
    if query.None? { return; }
    var pairs := Split(query.value);
    for i := 0 to |pairs|
      invariant out == Names(pairs[..i])
    {
      var pair := pairs[i];
      NamesSnoc(pairs[..i], pair);
      assert pairs[..i + 1] == pairs[..i] + [pair];
      var at := IndexOf(pair, EQUALS);
      if at == |pair| { continue; }
      if pair[..at] != CHANNEL_KEY { continue; }
      var decoded := UrlDecode(pair[at + 1..]);
      if decoded.Some? && decoded.value != [] {
        out := out + [decoded.value];
      }
    }
    assert pairs[..|pairs|] == pairs;
  }

  // --------------------------------------------------------------------
  // Round trip
  // --------------------------------------------------------------------

  const UPPER := "0123456789ABCDEF"
  const LOWER := "0123456789abcdef"

  /** Character `c` is the hex digit for `d`. */
  predicate Digit(c: byte, d: nat) {
    d < 16 && (c == UPPER[d] as int || c == LOWER[d] as int)
  }

  /** The characters read as hex digits are those of the two tables, with their positions. */
  lemma HexDigitIff(c: byte, d: nat)
    ensures HexDigit(c) == Some(d) <==> Digit(c, d)
  {
    if d < 16 {
      assert UPPER[d] == if d < 10 then '0' + d as char else 'A' + (d - 10) as char by { UpperAt(d); }
      assert LOWER[d] == if d < 10 then '0' + d as char else 'a' + (d - 10) as char by { LowerAt(d); }
    }
  }

  lemma UpperAt(d: nat)
    requires d < 16
    ensures UPPER[d] == if d < 10 then '0' + d as char else 'A' + (d - 10) as char
  {
    if d < 8 { assert d == 0 || d == 1 || d == 2 || d == 3 || d == 4 || d == 5 || d == 6 || d == 7; }
    else { assert d == 8 || d == 9 || d == 10 || d == 11 || d == 12 || d == 13 || d == 14 || d == 15; }
  }

  lemma LowerAt(d: nat)
    requires d < 16
    ensures LOWER[d] == if d < 10 then '0' + d as char else 'a' + (d - 10) as char
  {
    if d < 8 { assert d == 0 || d == 1 || d == 2 || d == 3 || d == 4 || d == 5 || d == 6 || d == 7; }
    else { assert d == 8 || d == 9 || d == 10 || d == 11 || d == 12 || d == 13 || d == 14 || d == 15; }
  }

  /** `%` and two hex digits, or `%+` and one. */
  predicate Escape(e: Bytes, c: byte) {
    |e| == 3 && e[0] == PERCENT && (if e[1] == PLUS then c < 16 else Digit(e[1], c / 16)) && Digit(e[2], c % 16)
  }

  lemma EscapeIff(a: byte, b: byte, c: byte)
    ensures HexPair(a, b) == Some(c) <==> Escape([PERCENT, a, b], c)
  {
    hide HexDigit, Digit;
    HexDigitIff(a, c / 16);
    HexDigitIff(b, c % 16);
    assert HexDigit(PLUS) == None by { HexDigitOfPlus(); }
    if HexDigit(a).Some? { HexDigitIff(a, HexDigit(a).value); }
    if HexDigit(b).Some? { HexDigitIff(b, HexDigit(b).value); }
  }

  lemma HexDigitOfPlus()
    ensures HexDigit(PLUS) == None
  {
  }

  /** The percent sign before `rest` starts no escape: too little follows, or two characters that are no number. */
  ghost predicate Lone(rest: Bytes) {
    |rest| < 2 || (ValidUtf8(rest[..2]) && forall c: byte :: !Escape([PERCENT] + rest[..2], c))
  }

  /** Before `rest`, the bytes `e` are read as the byte `c`. */
  ghost predicate Token(e: Bytes, c: byte, rest: Bytes) {
    || (e == [PLUS] && c == SPACE)
    || (Escape(e, c) && ValidUtf8(e[1..]))
    || (e == [c] && c != PLUS && (c == PERCENT ==> Lone(rest)))
  }

  /** `parts` in a row are read as `text`, byte by byte. */
  ghost predicate Tokens(parts: seq<Bytes>, text: Bytes) {
    |parts| == |text| && forall i :: 0 <= i < |text| ==> Token(parts[i], text[i], Flatten(parts[i + 1..]))
  }

  lemma TokenReads(e: Bytes, c: byte, rest: Bytes)
    requires Token(e, c, rest)
    ensures Unescape(e + rest) == Cons(c, Unescape(rest))
  {
    hide Cons, ValidUtf8, HexPair, Escape;
    var s := e + rest;
    if e == [PLUS] && c == SPACE {
      assert s[1..] == rest;
    } else if Escape(e, c) {
      assert |e| == 3 && e[0] == PERCENT by { EscapeIs(e, c); }
      assert s[3..] == rest && s[1..3] == e[1..];
      assert e == [PERCENT, e[1], e[2]];
      EscapeIff(e[1], e[2], c);
    } else {
      assert s[1..] == rest;
      if c == PERCENT && |rest| >= 2 {
        assert s[1..3] == rest[..2] && [PERCENT] + rest[..2] == [PERCENT, rest[0], rest[1]];
        if HexPair(rest[0], rest[1]).Some? { EscapeIff(rest[0], rest[1], HexPair(rest[0], rest[1]).value); }
      }
    }
  }

  lemma EscapeIs(e: Bytes, c: byte)
    requires Escape(e, c)
    ensures |e| == 3 && e[0] == PERCENT
  {
  }

  /** How `Unescape` reads the first byte or escape of a non-empty string. */
  lemma FirstToken(s: Bytes) returns (e: Bytes, c: byte, rest: Bytes)
    requires s != [] && Unescape(s).Some?
    ensures s == e + rest && e != [] && Token(e, c, rest)
  {
    hide Cons, ValidUtf8, HexPair, Escape;
    if s[0] == PLUS {
      e, c, rest := [PLUS], SPACE, s[1..];
    } else if s[0] == PERCENT && |s| > 2 && HexPair(s[1], s[2]).Some? {
      e, c, rest := s[..3], HexPair(s[1], s[2]).value, s[3..];
      assert ValidUtf8(e[1..]) by { assert e[1..] == s[1..3]; ReadIsText(s); }
      assert e == [PERCENT, s[1], s[2]];
      EscapeIff(s[1], s[2], c);
    } else {
      e, c, rest := [s[0]], s[0], s[1..];
      if s[0] == PERCENT && |s| > 2 {
        assert rest[..2] == s[1..3] && [PERCENT] + rest[..2] == [PERCENT, s[1], s[2]];
        ReadIsText(s);
        forall x: byte ensures !Escape([PERCENT] + rest[..2], x) { EscapeIff(s[1], s[2], x); }
      }
    }
  }

  lemma ReadIsText(s: Bytes)
    requires |s| > 2 && s[0] == PERCENT && Unescape(s).Some?
    ensures ValidUtf8(s[1..3])
  {
    hide ValidUtf8, HexPair;
  }

  /** The string falls into tokens that are read as `text`. */
  ghost predicate Reads(s: Bytes, text: Bytes) {
    exists parts :: Flatten(parts) == s && Tokens(parts, text)
  }

  /** A string is read as `text` if and only if it falls into tokens that are. */
  lemma UnescapeIff(s: Bytes, text: Bytes)
    ensures Unescape(s) == Some(text) <==> Reads(s, text)
  {
    hide Unescape, Tokens;
    if Unescape(s) == Some(text) {
      var parts := TokensOf(s);
    }
    if parts :| Flatten(parts) == s && Tokens(parts, text) {
      TokensRead(parts, text);
    }
  }

  lemma TokensTail(parts: seq<Bytes>, text: Bytes)
    requires Tokens(parts, text) && text != []
    ensures Token(parts[0], text[0], Flatten(parts[1..])) && Tokens(parts[1..], text[1..])
  {
    hide Token;
    forall i | 0 <= i < |text[1..]| ensures Token(parts[1..][i], text[1..][i], Flatten(parts[1..][i + 1..])) {
      assert parts[1..][i + 1..] == parts[i + 2..];
    }
  }

  lemma {:induction false} TokensRead(parts: seq<Bytes>, text: Bytes)
    requires Tokens(parts, text)
    ensures Unescape(Flatten(parts)) == Some(text)
  {
    if text != [] {
      TokensTail(parts, text);
      hide Unescape, Tokens, Token;
      TokenReads(parts[0], text[0], Flatten(parts[1..]));
      TokensRead(parts[1..], text[1..]);
      assert [text[0]] + text[1..] == text;
    }
  }

  lemma {:induction false} TokensOf(s: Bytes) returns (parts: seq<Bytes>)
    requires Unescape(s).Some?
    ensures Flatten(parts) == s && Tokens(parts, Unescape(s).value)
    decreases |s|
  {
    if s == [] {
      parts := [];
    } else {
      var e, c, rest := FirstToken(s);
      TokenReads(e, c, rest);
      hide Unescape, Token;
      var more := TokensOf(rest);
      parts := [e] + more;
      assert parts[1..] == more;
      var text := Unescape(rest).value;
      forall i | 0 <= i < |parts| ensures Token(parts[i], ([c] + text)[i], Flatten(parts[i + 1..])) {
        if i > 0 { assert parts[i + 1..] == more[i..]; }
      }
    }
  }

  /** `e` is a way to write the byte `c` in a query value: as it is, as a plus sign, or as two hex digits. */
  predicate Writes(e: Bytes, c: byte) {
    || (e == [c] && c != PERCENT && c != PLUS && c != AMP)
    || (e == [PLUS] && c == SPACE)
    || (|e| == 3 && e[0] == PERCENT && Digit(e[1], c / 16) && Digit(e[2], c % 16))
  }

  /** Any choice of escapes, byte by byte, that spells `text`. */
  predicate Spells(parts: seq<Bytes>, text: Bytes) {
    |parts| == |text| && forall i :: 0 <= i < |text| ==> Writes(parts[i], text[i])
  }

  lemma TwoHexDigitsAreText(a: byte, b: byte)
    requires HexDigit(a).Some? && HexDigit(b).Some?
    ensures ValidUtf8([a, b])
  {
    assert [a, b][1..] == [b] && [b][1..] == [];
  }

  lemma WrittenIsToken(e: Bytes, c: byte, rest: Bytes)
    requires Writes(e, c)
    ensures Token(e, c, rest)
  {
    hide HexDigit, ValidUtf8, Digit;
    if |e| == 3 {
      HexDigitIff(e[1], c / 16);
      HexDigitIff(e[2], c % 16);
      HexDigitOfPlus();
      TwoHexDigitsAreText(e[1], e[2]);
      assert e[1..] == [e[1], e[2]];
    }
  }

  /** Every spelling of a text is read as the text. */
  lemma UnescapeUndoesSpelling(parts: seq<Bytes>, text: Bytes)
    requires Spells(parts, text)
    ensures Unescape(Flatten(parts)) == Some(text)
  {
    hide Unescape, Token;
    forall i | 0 <= i < |text| ensures Token(parts[i], text[i], Flatten(parts[i + 1..])) {
      WrittenIsToken(parts[i], text[i], Flatten(parts[i + 1..]));
    }
    TokensRead(parts, text);
  }

  lemma WrittenHasNoAmp(e: Bytes, c: byte)
    requires Writes(e, c)
    ensures AMP !in e
  {
    if |e| == 3 {
      HexDigitIff(e[1], c / 16);
      HexDigitIff(e[2], c % 16);
    }
  }

  lemma {:induction false} SpellingHasNoAmp(parts: seq<Bytes>, text: Bytes)
    requires Spells(parts, text)
    ensures AMP !in Flatten(parts)
  {
    if text != [] {
      WrittenHasNoAmp(parts[0], text[0]);
      hide Writes;
      SpellingHasNoAmp(parts[1..], text[1..]);
    }
  }

  function ChannelPair(parts: seq<Bytes>): Bytes { CHANNEL_KEY + [EQUALS] + Flatten(parts) }

  /** A channel pair gives its name back, whatever the spelling. */
  lemma PairGivesName(parts: seq<Bytes>, name: Channel)
    requires Spells(parts, name) && ValidUtf8(name) && name != []
    ensures NameIn(ChannelPair(parts)) == [name]
  {
    hide Unescape, ValidUtf8;
    var pair := ChannelPair(parts);
    KeyEndsAtEquals(Flatten(parts));
    UnescapeUndoesSpelling(parts, name);
    assert pair[..7] == CHANNEL_KEY && pair[8..] == Flatten(parts);
  }

  lemma {:induction false} FirstIndex(s: Bytes, c: byte, i: nat)
    requires i <= |s| && c !in s[..i] && (i < |s| ==> s[i] == c)
    ensures IndexOf(s, c) == i
  {
    if i > 0 {
      assert s[0] == s[..i][0] && s[1..][..i - 1] == s[..i][1..];
      FirstIndex(s[1..], c, i - 1);
    }
  }

  lemma KeyEndsAtEquals(value: Bytes)
    ensures IndexOf(CHANNEL_KEY + [EQUALS] + value, EQUALS) == 7
  {
    var s := CHANNEL_KEY + [EQUALS] + value;
    assert s[..7] == CHANNEL_KEY;
    FirstIndex(s, EQUALS, 7);
  }

  function Join(pairs: seq<Bytes>): Bytes
    requires pairs != []
  {
    if |pairs| == 1 then pairs[0] else pairs[0] + [AMP] + Join(pairs[1..])
  }

  lemma {:induction false} SplitUndoesJoin(pairs: seq<Bytes>)
    requires pairs != [] && forall i :: 0 <= i < |pairs| ==> AMP !in pairs[i]
    ensures Split(Join(pairs)) == pairs
  {
    var q, n := Join(pairs), |pairs[0]|;
    assert AMP !in pairs[0];
    if |pairs| == 1 {
      assert q[..n] == q;
      FirstIndex(q, AMP, n);
    } else {
      assert q[..n] == pairs[0] && q[n] == AMP && q[n + 1..] == Join(pairs[1..]);
      FirstIndex(q, AMP, n);
      SplitUndoesJoin(pairs[1..]);
    }
  }

  /** The bytes are not read as any non-empty text. */
  ghost predicate Worthless(raw: Bytes) {
    forall parts, text :: Flatten(parts) == raw && Tokens(parts, text) ==> text == [] || !ValidUtf8(text)
  }

  lemma WorthlessGivesNothing(raw: Bytes)
    requires Worthless(raw)
    ensures NameIn(CHANNEL_KEY + [EQUALS] + raw) == []
  {
    hide Unescape, ValidUtf8, Tokens;
    var pair := CHANNEL_KEY + [EQUALS] + raw;
    KeyEndsAtEquals(raw);
    assert pair[..7] == CHANNEL_KEY && pair[8..] == raw;
    if Unescape(raw).Some? { UnescapeIff(raw, Unescape(raw).value); }
  }

  /**
   * One pair of a query: a name some way spelled, a channel pair without a name in it, or a
   * pair that says nothing about channels.
   */
  datatype Item = Wanted(name: Channel, parts: seq<Bytes>) | Nameless(raw: Bytes) | Unrelated(pair: Bytes)

  ghost predicate ValidItem(item: Item) {
    match item
    case Nameless(raw) => AMP !in raw && Worthless(raw)
    case Wanted(name, parts) => Spells(parts, name) && ValidUtf8(name) && name != []
    case Unrelated(pair) =>
      AMP !in pair && (EQUALS in pair ==> pair[..IndexOf(pair, EQUALS)] != CHANNEL_KEY)
  }

  function Written(items: seq<Item>): (pairs: seq<Bytes>)
    ensures |pairs| == |items|
  {
    seq(|items|, i requires 0 <= i < |items| =>
      match items[i]
      case Wanted(_, parts) => ChannelPair(parts)
      case Nameless(raw) => CHANNEL_KEY + [EQUALS] + raw
      case Unrelated(pair) => pair)
  }

  function WantedNames(items: seq<Item>): seq<Channel> {
    if items == [] then []
    else (if items[0].Wanted? then [items[0].name] else []) + WantedNames(items[1..])
  }

  lemma {:induction false} NamesOfWritten(items: seq<Item>)
    requires forall i :: 0 <= i < |items| ==> ValidItem(items[i])
    ensures Names(Written(items)) == WantedNames(items)
    ensures forall i :: 0 <= i < |items| ==> AMP !in Written(items)[i]
  {
    hide NameIn, Spells, ValidUtf8, Worthless;
    if items != [] {
      assert ValidItem(items[0]);
      assert Written(items)[1..] == Written(items[1..]);
      forall i | 0 < i < |items| ensures Written(items)[i] == Written(items[1..])[i - 1] {}
      NamesOfWritten(items[1..]);
      match items[0]
      case Wanted(name, parts) =>
        PairGivesName(parts, name);
        SpellingHasNoAmp(parts, name);
      case Nameless(raw) => WorthlessGivesNothing(raw);
      case Unrelated(pair) => UnrelatedGivesNothing(pair);
    }
  }

  lemma UnrelatedGivesNothing(pair: Bytes)
    requires EQUALS in pair ==> pair[..IndexOf(pair, EQUALS)] != CHANNEL_KEY
    ensures NameIn(pair) == []
  {
    if EQUALS !in pair { assert IndexOf(pair, EQUALS) == |pair|; }
  }

  /** A query that repeats `channel=`, mixed with nameless and other pairs, parses to the names in order. */
  lemma QueryRoundTrip(items: seq<Item>)
    requires items != [] && forall i :: 0 <= i < |items| ==> ValidItem(items[i])
    ensures Names(Split(Join(Written(items)))) == WantedNames(items)
  {
    hide Written, ValidItem, Split, Join, Names, WantedNames;
    NamesOfWritten(items);
    SplitUndoesJoin(Written(items));
  }
}
