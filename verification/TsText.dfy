/** The text written for a TypeScript type, and a reader of such texts. */
module TsText {
  import opened Types
  import opened TsGen

  // --------------------------------------------------------------------
  // Writing a type
  // --------------------------------------------------------------------

  function Render(t: TsType): string
    decreases t, 1
  {
    match t
    case TsString => "string"
    case TsNumber => "number"
    case TsBoolean => "boolean"
    case TsUnknown => "unknown"
    case TsArray(item) => Render(item) + "[]"
    case TsRecord => "Record<string, unknown>"
    case TsObject(fields) => "{ " + RenderFields(fields) + " }"
  }

  function RenderField(f: Field): string
    decreases f, 2
  {
    f.key + (if f.optional then "?" else "") + ": " + Render(f.ty)
  }

  /** The fields in order, separated by semicolons. */
  function RenderFields(fields: seq<Field>): string
    decreases fields, 3
  {
    if fields == [] then ""
    else if |fields| == 1 then RenderField(fields[0])
    else RenderFields(fields[..|fields| - 1]) + "; " + RenderField(fields[|fields| - 1])
  }

  // --------------------------------------------------------------------
  // Reading it
  // --------------------------------------------------------------------

  predicate Starts(text: string, word: string) {
    |word| <= |text| && text[..|word|] == word
  }

  predicate Letter(c: char) { 'a' <= c <= 'z' || 'A' <= c <= 'Z' || c == '_' || c == '$' }

  predicate NameChar(c: char) { Letter(c) || '0' <= c <= '9' }

  predicate Identifier(name: string) {
    name != "" && Letter(name[0]) && forall i :: 0 <= i < |name| ==> NameChar(name[i])
  }

  /** How many characters at the front can belong to a name. */
  function NameLength(text: string): (n: nat)
    ensures n <= |text| && (forall i :: 0 <= i < n ==> NameChar(text[i])) && (n < |text| ==> !NameChar(text[n]))
  {
    if text == "" || !NameChar(text[0]) then 0 else 1 + NameLength(text[1..])
  }

  /** `[]` after a type makes an array of it, as often as it stands there. */
  function Suffixed(t: TsType, text: string): (r: (TsType, string))
    ensures |r.1| <= |text|
    decreases |text|
  {
    if Starts(text, "[]") then Suffixed(TsArray(t), text[2..]) else (t, text)
  }

  /** A type at the front of a text, and what follows it. */
  function ReadType(text: string): (r: Option<(TsType, string)>)
    ensures r.Some? ==> |r.value.1| < |text|
    decreases |text|, 1
  {
    match ReadBare(text)
    case None => None
    case Some((t, rest)) => Some(Suffixed(t, rest))
  }

  function ReadBare(text: string): (r: Option<(TsType, string)>)
    ensures r.Some? ==> |r.value.1| < |text|
    decreases |text|, 0
  {
    if Starts(text, "string") then Some((TsString, text[6..]))
    else if Starts(text, "number") then Some((TsNumber, text[6..]))
    else if Starts(text, "boolean") then Some((TsBoolean, text[7..]))
    else if Starts(text, "unknown") then Some((TsUnknown, text[7..]))
    else if Starts(text, "Record<string, unknown>") then Some((TsRecord, text[23..]))
    else if Starts(text, "{  }") then Some((TsObject([]), text[4..]))
    else if Starts(text, "{ ") then
      match ReadFields(text[2..])
      case None => None
      case Some((fields, rest)) => Some((TsObject(fields), rest))
    else None
  }

  /** One field at the front of a text: a name, perhaps a question mark, a colon, a type. */
  function ReadField(text: string): (r: Option<(Field, string)>)
    ensures r.Some? ==> |r.value.1| < |text|
    decreases |text|, 2
  {
    var n := NameLength(text);
    if !Identifier(text[..n]) then None
    else
      var optional := Starts(text[n..], "?");
      var rest := if optional then text[n + 1..] else text[n..];
      if !Starts(rest, ": ") then None
      else
        match ReadType(rest[2..])
        case None => None
        case Some((ty, after)) => Some((Field(text[..n], optional, ty), after))
  }

  /** Fields with semicolons between them, up to the closing brace. */
  function ReadFields(text: string): (r: Option<(seq<Field>, string)>)
    ensures r.Some? ==> |r.value.1| < |text|
    decreases |text|, 3
  {
    match ReadField(text)
    case None => None
    case Some((f, rest)) =>
      if Starts(rest, " }") then Some(([f], rest[2..]))
      else if !Starts(rest, "; ") then None
      else
        match ReadFields(rest[2..])
        case None => None
        case Some((more, after)) => Some(([f] + more, after))
  }

  /** The type a whole text stands for. */
  function Read(text: string): Option<TsType> {
    match ReadType(text)
    case None => None
    case Some((t, rest)) => if rest == "" then Some(t) else None
  }

  /** Every property name in the type is an identifier. */
  predicate Named(t: TsType)
    decreases t
  {
    match t
    case TsArray(item) => Named(item)
    case TsObject(fields) => forall i :: 0 <= i < |fields| ==> Identifier(fields[i].key) && Named(fields[i].ty)
    case _ => true
  }

  // --------------------------------------------------------------------
  // What was written is read
  // --------------------------------------------------------------------

  lemma StartsWith(word: string, rest: string)
    ensures Starts(word + rest, word) && (word + rest)[|word|..] == rest
  {
  }

  lemma Differs(text: string, word: string)
    requires text != "" && word != "" && text[0] != word[0]
    ensures !Starts(text, word)
  {
    assert |word| <= |text| ==> text[..|word|][0] == text[0];
  }

  /** The words are told apart by their first letters. */
  lemma Word(rest: string)
    ensures ReadBare("string" + rest) == Some((TsString, rest))
    ensures ReadBare("number" + rest) == Some((TsNumber, rest))
    ensures ReadBare("boolean" + rest) == Some((TsBoolean, rest))
    ensures ReadBare("unknown" + rest) == Some((TsUnknown, rest))
  {
    hide ReadFields;
    StartsWith("string", rest);
    StartsWith("number", rest);
    StartsWith("boolean", rest);
    StartsWith("unknown", rest);
    assert ("number" + rest)[0] == 'n' && ("boolean" + rest)[0] == 'b' && ("unknown" + rest)[0] == 'u';
    FirstLetters("number" + rest);
    FirstLetters("boolean" + rest);
    FirstLetters("unknown" + rest);
  }

  lemma FirstLetters(text: string)
    requires text != ""
    ensures Starts(text, "string") ==> text[0] == 's'
    ensures Starts(text, "number") ==> text[0] == 'n'
    ensures Starts(text, "boolean") ==> text[0] == 'b'
    ensures Starts(text, "unknown") ==> text[0] == 'u'
    ensures Starts(text, "Record<string, unknown>") ==> text[0] == 'R'
    ensures Starts(text, "{  }") ==> |text| > 2 && text[0] == '{' && text[2] == ' '
    ensures Starts(text, "{ ") ==> text[0] == '{'
  {
    if Starts(text, "string") { assert text[0] == "string"[0]; }
    if Starts(text, "number") { assert text[0] == "number"[0]; }
    if Starts(text, "boolean") { assert text[0] == "boolean"[0]; }
    if Starts(text, "unknown") { assert text[0] == "unknown"[0]; }
    if Starts(text, "Record<string, unknown>") { assert text[0] == "Record<string, unknown>"[0]; }
    if Starts(text, "{  }") { assert text[0] == "{  }"[0] && text[2] == "{  }"[2]; }
    if Starts(text, "{ ") { assert text[0] == "{ "[0]; }
  }

  lemma RecordWord(rest: string)
    ensures ReadBare("Record<string, unknown>" + rest) == Some((TsRecord, rest))
  {
    hide ReadFields, Starts;
    var text := "Record<string, unknown>" + rest;
    assert text[0] == 'R';
    FirstLetters(text);
    StartsWith("Record<string, unknown>", rest);
  }

  lemma EmptyWord(rest: string)
    ensures ReadBare("{  }" + rest) == Some((TsObject([]), rest))
  {
    hide ReadFields, Starts;
    var text := "{  }" + rest;
    assert text[0] == '{';
    FirstLetters(text);
    StartsWith("{  }", rest);
  }

  lemma Braces(body: string)
    requires body != "" && body[0] != ' '
    ensures ReadBare("{ " + body)
         == match ReadFields(body) case None => None case Some((fields, rest)) => Some((TsObject(fields), rest))
  {
    hide ReadFields, Starts;
    var text := "{ " + body;
    assert text[0] == '{' && text[2] == body[0];
    FirstLetters(text);
    StartsWith("{ ", body);
  }

  lemma {:induction false} NameEnds(name: string, rest: string)
    requires (forall i :: 0 <= i < |name| ==> NameChar(name[i])) && (rest == "" || !NameChar(rest[0]))
    ensures NameLength(name + rest) == |name|
  {
    hide NameChar;
    if name == "" {
      assert name + rest == rest;
    } else {
      assert (name + rest)[1..] == name[1..] + rest && (name + rest)[0] == name[0];
      NameEnds(name[1..], rest);
    }
  }

  /** A field is read up to a text that does not go on as an array. */
  lemma FieldReadsBack(f: Field, tail: string)
    requires Identifier(f.key) && ReadType(Render(f.ty) + tail) == Some((f.ty, tail))
    ensures ReadField(RenderField(f) + tail) == Some((f, tail))
  {
    hide Render, ReadType;
    var q := if f.optional then "?" else "";
    var typed := Render(f.ty) + tail;
    var rest := q + (": " + typed);
    var text := RenderField(f) + tail;
    assert text == f.key + rest;
    assert rest[0] == if f.optional then '?' else ':';
    NameEnds(f.key, rest);
    assert text[..|f.key|] == f.key && text[|f.key|..] == rest;
    Marked(f.optional, ": " + typed);
    StartsWith(": ", typed);
  }

  lemma Marked(optional: bool, rest: string)
    requires rest != "" && rest[0] == ':'
    ensures Starts((if optional then "?" else "") + rest, "?") <==> optional
    ensures optional ==> ("?" + rest)[1..] == rest
    ensures !optional ==> "" + rest == rest
  {
    if optional { StartsWith("?", rest); }
    Differs(rest, "?");
  }

  lemma {:induction false} FieldsFirst(fields: seq<Field>)
    requires |fields| > 1
    ensures RenderFields(fields) == RenderField(fields[0]) + "; " + RenderFields(fields[1..])
    decreases |fields|
  {
    hide RenderField;
    var n := |fields| - 1;
    var last := RenderField(fields[n]);
    if n == 1 {
      assert fields[..1] == [fields[0]] && fields[1..] == [fields[1]];
    } else {
      FieldsFirst(fields[..n]);
      var first, middle := RenderField(fields[0]), RenderFields(fields[..n][1..]);
      assert fields[1..][..n - 1] == fields[..n][1..];
      assert RenderFields(fields[1..]) == middle + "; " + last;
      assert (first + "; " + middle) + "; " + last == first + "; " + (middle + "; " + last);
    }
  }

  lemma NotArray(t: TsType, tail: string)
    requires tail != "" && tail[0] != '['
    ensures Suffixed(t, tail) == (t, tail)
  {
    Differs(tail, "[]");
  }

  /** One field is read, whatever closes or continues the list. */
  lemma OneReadsBack(f: Field, tail: string)
    requires Identifier(f.key) && Named(f.ty) && tail != "" && tail[0] != '['
    ensures ReadField(RenderField(f) + tail) == Some((f, tail))
    decreases f, 0
  {
    hide RenderField, ReadField, ReadType, Render;
    ReadsBack(f.ty, tail);
    NotArray(f.ty, tail);
    FieldReadsBack(f, tail);
  }

  lemma {:induction false} FieldsReadBack(fields: seq<Field>, rest: string)
    requires fields != [] && forall i :: 0 <= i < |fields| ==> Identifier(fields[i].key) && Named(fields[i].ty)
    ensures ReadFields(RenderFields(fields) + (" }" + rest)) == Some((fields, rest))
    decreases fields, 1
  {
    hide RenderField, ReadField, Identifier, Named;
    var end := " }" + rest;
    if |fields| == 1 {
      OneReadsBack(fields[0], end);
      LastOfFields(fields[0], rest);
      assert fields == [fields[0]];
    } else {
      var more := RenderFields(fields[1..]) + end;
      FieldsFirst(fields);
      assert RenderFields(fields) + end == RenderField(fields[0]) + ("; " + more);
      hide RenderFields;
      OneReadsBack(fields[0], "; " + more);
      FieldsReadBack(fields[1..], rest);
      MoreFields(fields[0], more, fields[1..], rest);
      assert fields == [fields[0]] + fields[1..];
    }
  }

  lemma LastOfFields(f: Field, rest: string)
    requires ReadField(RenderField(f) + (" }" + rest)) == Some((f, " }" + rest))
    ensures ReadFields(RenderField(f) + (" }" + rest)) == Some(([f], rest))
  {
    hide RenderField, ReadField;
    StartsWith(" }", rest);
  }

  lemma MoreFields(f: Field, more: string, fs: seq<Field>, rest: string)
    requires ReadField(RenderField(f) + ("; " + more)) == Some((f, "; " + more))
    requires ReadFields(more) == Some((fs, rest))
    ensures ReadFields(RenderField(f) + ("; " + more)) == Some(([f] + fs, rest))
  {
    hide RenderField, ReadField;
    StartsWith("; ", more);
    Differs("; " + more, " }");
  }

  lemma FieldsStart(fields: seq<Field>)
    requires fields != [] && Identifier(fields[0].key)
    ensures RenderFields(fields) != "" && NameChar(RenderFields(fields)[0])
  {
    assert RenderField(fields[0])[0] == fields[0].key[0];
    hide RenderField;
    if |fields| > 1 { FieldsFirst(fields); }
  }

  /** A written type is read back, together with the brackets that follow it. */
  lemma {:induction false} ReadsBack(t: TsType, rest: string)
    requires Named(t)
    ensures ReadType(Render(t) + rest) == Some(Suffixed(t, rest))
    decreases t, 2
  {
    match t
    case TsString => hide ReadBare; Word(rest);
    case TsNumber => hide ReadBare; Word(rest);
    case TsBoolean => hide ReadBare; Word(rest);
    case TsUnknown => hide ReadBare; Word(rest);
    case TsRecord => hide ReadBare; RecordWord(rest);
    case TsArray(item) =>
      hide ReadType, Render, Suffixed;
      ReadsBack(item, "[]" + rest);
      ArrayText(item, rest);
    case TsObject(fields) =>
      hide ReadType, Render, Suffixed;
      ObjectReadsBack(fields, rest);
  }

  lemma ArrayText(item: TsType, rest: string)
    ensures Render(TsArray(item)) + rest == Render(item) + ("[]" + rest)
    ensures Suffixed(item, "[]" + rest) == Suffixed(TsArray(item), rest)
  {
    StartsWith("[]", rest);
  }

  lemma ObjectReadsBack(fields: seq<Field>, rest: string)
    requires Named(TsObject(fields))
    ensures ReadType(Render(TsObject(fields)) + rest) == Some(Suffixed(TsObject(fields), rest))
    decreases fields, 2
  {
    hide ReadBare;
    var text := Render(TsObject(fields)) + rest;
    if fields == [] {
      assert text == "{  }" + rest;
      EmptyWord(rest);
    } else {
      var body := RenderFields(fields) + (" }" + rest);
      assert text == "{ " + body;
      hide Render, RenderFields;
      FieldsReadBack(fields, rest);
      assert Identifier(fields[0].key);
      FieldsStart(fields);
      Braces(body);
    }
  }

  // --------------------------------------------------------------------
  // And only what has proper names
  // --------------------------------------------------------------------

  lemma {:induction false} SuffixedIsNamed(t: TsType, text: string)
    requires Named(t)
    ensures Named(Suffixed(t, text).0)
    decreases |text|
  {
    if Starts(text, "[]") { SuffixedIsNamed(TsArray(t), text[2..]); }
  }

  lemma {:induction false} ReadIsNamed(text: string)
    requires ReadType(text).Some?
    ensures Named(ReadType(text).value.0)
    decreases |text|, 1
  {
    var (t, rest) := ReadBare(text).value;
    BareIsNamed(text);
    SuffixedIsNamed(t, rest);
  }

  lemma BareIsNamed(text: string)
    requires ReadBare(text).Some?
    ensures Named(ReadBare(text).value.0)
    decreases |text|, 0
  {
    if ReadBare(text).value.0.TsObject? && ReadBare(text).value.0.fields != [] { FieldsAreNamed(text[2..]); }
  }

  lemma FieldIsNamed(text: string)
    requires ReadField(text).Some?
    ensures Identifier(ReadField(text).value.0.key) && Named(ReadField(text).value.0.ty)
    decreases |text|, 2
  {
    hide ReadType, Named, Identifier, NameLength;
    var n := NameLength(text);
    var rest := if Starts(text[n..], "?") then text[n + 1..] else text[n..];
    ReadIsNamed(rest[2..]);
  }

  lemma {:induction false} FieldsAreNamed(text: string)
    requires ReadFields(text).Some?
    ensures Named(TsObject(ReadFields(text).value.0))
    decreases |text|, 3
  {
    hide ReadField;
    FieldIsNamed(text);
    var (f, rest) := ReadField(text).value;
    if !Starts(rest, " }") { FieldsAreNamed(rest[2..]); }
  }

  /** The text of a type stands for that type if and only if all its property names are identifiers. */
  lemma ReadsBackIff(t: TsType)
    ensures Read(Render(t)) == Some(t) <==> Named(t)
  {
    hide ReadType, Render, Named;
    if Named(t) {
      assert Render(t) + "" == Render(t);
      ReadsBack(t, "");
    }
    if Read(Render(t)) == Some(t) { ReadIsNamed(Render(t)); }
  }

  // --------------------------------------------------------------------
  // The generator
  // --------------------------------------------------------------------

  lemma NextField(props: seq<Member>, required: set<string>, i: nat, ty: string)
    requires i < |props| && ty == Render(Compile(props[i].value))
    ensures RenderFields(CompileFields(props, required)[..i + 1])
         == (if i == 0 then "" else RenderFields(CompileFields(props, required)[..i]) + "; ")
            + (props[i].key + (if props[i].key in required then "" else "?") + ": " + ty)
  {
    hide Compile, CompileFields;
    var fields := CompileFields(props, required);
    CompileFieldsAt(props, required, i);
    assert fields[..i + 1][..i] == fields[..i];
    assert RenderField(fields[i]) == props[i].key + (if props[i].key in required then "" else "?") + ": " + ty;
    if i == 0 { assert "" + RenderField(fields[0]) == RenderField(fields[0]); }
  }

  /** The generator writes the text of the compiled type, which reads as that type if all property names are identifiers. */
  method TsTypeText(s: Json) returns (text: string)
    ensures text == Render(Compile(s))
    ensures Named(Compile(s)) <==> Read(text) == Some(Compile(s))
    decreases s, 1
  {
    ReadsBackIff(Compile(s));
    hide Read, Named;
    var name := TypeName(s);
    if name == "string" { return "string"; }
    if name == "integer" || name == "number" { return "number"; }
    if name == "boolean" { return "boolean"; }
    if name == "array" {
      var item := "unknown";
      if Has(s, "items") { item := TsTypeText(TsGen.Get(s, "items")); }
      return item + "[]";
    }
    if name == "object" {
      text := RenderObject(s);
      return;
    }
    text := "unknown";
  }

  method RenderObject(s: Json) returns (text: string)
    requires TypeName(s) == "object"
    ensures text == Render(Compile(s))
    decreases s, 0, 1
  {
    var required := Required(s);
    if !HasProperties(s) { return "Record<string, unknown>"; }
    var props := TsGen.Get(s, "properties").members;
    ghost var fields := CompileFields(props, required);
    assert Render(Compile(s)) == "{ " + RenderFields(fields) + " }";
    text := RenderMembers(s, props, required);
  }

  method RenderMembers(ghost s: Json, props: seq<Member>, required: set<string>) returns (text: string)
    requires HasProperties(s) && props == TsGen.Get(s, "properties").members
    ensures text == "{ " + RenderFields(CompileFields(props, required)) + " }"
    decreases s, 0, 0
  {
    hide Render, Compile, CompileFields, RenderFields, Read, Named;
    ghost var fields := CompileFields(props, required);
    text := "{ ";
    var first := true;
    assert RenderFields(fields[..0]) == "" by { NoFields(); }
    for i := 0 to |props|
      invariant first == (i == 0)
      invariant text == "{ " + RenderFields(fields[..i])
    {
      if !first { text := text + "; "; }
      first := false;
      var q := if props[i].key in required then "" else "?";
      var ty := TsTypeText(props[i].value);
      text := text + (props[i].key + q + ": " + ty);
      NextField(props, required, i, ty);
      ghost var piece := props[i].key + q + ": " + ty;
      assert i == 0 ==> text == "{ " + piece;
      assert i > 0 ==> text == "{ " + (RenderFields(fields[..i]) + "; " + piece);
    }
    assert fields[..|props|] == fields;
    text := text + " }";
  }

  lemma NoFields()
    ensures RenderFields([]) == ""
  {
  }

  /** The text stands for a type that the value has. */
  predicate Describes(text: string, v: Json) {
    Read(text).Some? && Inhabits(Read(text).value, v)
  }

  /**
   * Every payload a schema accepts is described by the text written for the schema, if the
   * schema guarantees its generated type and its property names are identifiers.
   */
  lemma TextIsSound(others: (Json, Json) -> bool, s: Json, v: Json)
    requires Accepts(others, s, v) && Fits(s, Compile(s)) && Named(Compile(s))
    ensures Describes(Render(Compile(s)), v)
  {
    hide Read, Render, Named, Accepts, Fits, Inhabits;
    Sound(others, s, Compile(s), v);
    ReadsBackIff(Compile(s));
  }

  /** With those names, the text describes all accepted payloads if and only if the schema guarantees the type. */
  lemma TextIsSoundIff(s: Json)
    requires DistinctKeys(s) && Named(Compile(s))
    ensures (forall v :: Accepts(Anything, s, v) ==> Describes(Render(Compile(s)), v)) <==> Fits(s, Compile(s))
  {
    hide Read, Render, Named, Accepts, Fits, Inhabits, DistinctKeys;
    SoundIff(s);
    ReadsBackIff(Compile(s));
  }

  /** On the schemas TypeScript can say exactly, it describes nothing else. */
  lemma TextIsExact(s: Json, v: Json)
    requires Precise(s) && Named(Compile(s))
    ensures Accepts(Anything, s, v) <==> Describes(Render(Compile(s)), v)
  {
    hide Read, Render, Named, Accepts, Precise, Inhabits;
    Exact(s, v);
    ReadsBackIff(Compile(s));
  }
}
