/** JSON Schema to TypeScript: the type generated for a namespace, and what it says of the accepted payloads. */
module TsGen {
  import opened Types

  // --------------------------------------------------------------------
  // JSON, and JSON Schema 2020-12 as far as the generator looks at it
  // --------------------------------------------------------------------

  datatype Json =
    | Null
    | Bool(value: bool)
    | Number(number: real)
    | Text(text: string)
    | Array(items: seq<Json>)
    | Object(members: seq<Member>)

  datatype Member = Member(key: string, value: Json)

  /** Position of a key in an object; `|ms|` if it is absent. */
  function Find(ms: seq<Member>, key: string): (i: nat)
    ensures i <= |ms|
    ensures i < |ms| ==> ms[i].key == key
    ensures i == |ms| ==> forall j :: 0 <= j < |ms| ==> ms[j].key != key
  {
    if ms == [] || ms[0].key == key then 0 else 1 + Find(ms[1..], key)
  }

  predicate Has(s: Json, key: string) {
    s.Object? && Find(s.members, key) < |s.members|
  }

  function Get(s: Json, key: string): Json
    requires Has(s, key)
  {
    s.members[Find(s.members, key)].value
  }

  /** The single type name of a schema; the empty string if `type` is absent or not a string. */
  function TypeName(s: Json): string {
    if Has(s, "type") && Get(s, "type").Text? then Get(s, "type").text else ""
  }

  function Strings(items: seq<Json>): set<string> {
    set i | 0 <= i < |items| && items[i].Text? :: items[i].text
  }

  function Required(s: Json): set<string> {
    if Has(s, "required") && Get(s, "required").Array? then Strings(Get(s, "required").items) else {}
  }

  predicate HasProperties(s: Json) { Has(s, "properties") && Get(s, "properties").Object? }

  predicate IsProperty(s: Json, key: string) { HasProperties(s) && Has(Get(s, "properties"), key) }

  function Property(s: Json, key: string): Json
    requires IsProperty(s, key)
  {
    Get(Get(s, "properties"), key)
  }

  /** Schemas for the first items of an array. */
  function PrefixItems(s: Json): seq<Json> {
    if Has(s, "prefixItems") && Get(s, "prefixItems").Array? then Get(s, "prefixItems").items else []
  }

  /** Section 6.1.1 of JSON Schema Validation: an integer is any number without a fractional part. */
  predicate OfType(name: string, v: Json) {
    (name == "null" ==> v.Null?)
    && (name == "boolean" ==> v.Bool?)
    && (name == "object" ==> v.Object?)
    && (name == "array" ==> v.Array?)
    && (name == "number" ==> v.Number?)
    && (name == "string" ==> v.Text?)
    && (name == "integer" ==> v.Number? && v.number == v.number.Floor as real)
  }

  /**
   * Whether a schema accepts a value; the schema `false` accepts none. `others` stands for
   * every keyword the generator ignores; such a keyword can only reject more.
   */
  predicate Accepts(others: (Json, Json) -> bool, s: Json, v: Json)
    decreases s
  {
    others(s, v)
    && s != Bool(false)
    && OfType(TypeName(s), v)
    && (v.Object? ==> forall name <- Required(s) :: Has(v, name))
    && (v.Object? && HasProperties(s) ==>
          var props := Get(s, "properties").members;
          forall i :: 0 <= i < |props| && Has(v, props[i].key) ==> Accepts(others, props[i].value, Get(v, props[i].key)))
    && (v.Array? ==> forall i :: 0 <= i < |v.items| && i < |PrefixItems(s)| ==> Accepts(others, PrefixItems(s)[i], v.items[i]))
    && (v.Array? && Has(s, "items") ==>
          var item := Get(s, "items");
          forall i :: |PrefixItems(s)| <= i < |v.items| ==> Accepts(others, item, v.items[i]))
  }

  // --------------------------------------------------------------------
  // TypeScript
  // --------------------------------------------------------------------

  datatype TsType =
    | TsString
    | TsNumber
    | TsBoolean
    | TsUnknown
    | TsArray(item: TsType)
    | TsRecord
    | TsObject(fields: seq<Field>)

  datatype Field = Field(key: string, optional: bool, ty: TsType)

  /**
   * The JSON values that have a type, an object type being read as the JSON objects of that
   * shape. TypeScript is structural, so a value of another kind can have an object type
   * too: a string has `{ length: number }`, and anything but null has the empty one.
   */
  predicate Inhabits(t: TsType, v: Json) {
    match t
    case TsString => v.Text?
    case TsNumber => v.Number?
    case TsBoolean => v.Bool?
    case TsUnknown => true
    case TsArray(item) => v.Array? && forall i :: 0 <= i < |v.items| ==> Inhabits(item, v.items[i])
    case TsRecord => v.Object?
    case TsObject(fields) =>
      v.Object? && forall i :: 0 <= i < |fields| ==>
        if Has(v, fields[i].key) then Inhabits(fields[i].ty, Get(v, fields[i].key)) else fields[i].optional
  }

  function Compile(s: Json): TsType
    decreases s, 1
  {
    var name := TypeName(s);
    if name == "string" then TsString
    else if name == "integer" || name == "number" then TsNumber
    else if name == "boolean" then TsBoolean
    else if name == "array" then TsArray(if Has(s, "items") then Compile(Get(s, "items")) else TsUnknown)
    else if name == "object" then
      if HasProperties(s) then TsObject(CompileFields(Get(s, "properties").members, Required(s))) else TsRecord
    else TsUnknown
  }

  function CompileFields(props: seq<Member>, required: set<string>): (fields: seq<Field>)
    ensures |fields| == |props|
    ensures forall i :: 0 <= i < |props| ==>
              fields[i].key == props[i].key && fields[i].optional == (props[i].key !in required)
    decreases props, 0
  {
    if props == [] then []
    else [Field(props[0].key, props[0].key !in required, Compile(props[0].value))] + CompileFields(props[1..], required)
  }

  lemma {:induction false} CompileFieldsAt(props: seq<Member>, required: set<string>, i: nat)
    requires i < |props|
    ensures CompileFields(props, required)[i].ty == Compile(props[i].value)
    decreases |props|
  {
    hide Compile;
    if i > 0 { CompileFieldsAt(props[1..], required, i - 1); }
  }

  // --------------------------------------------------------------------
  // Soundness
  // --------------------------------------------------------------------

  /** Whether the schema accepts anything, the ignored keywords aside. */
  predicate Satisfiable(s: Json)
    decreases s
  {
    && s != Bool(false)
    && (TypeName(s) == "object" && HasProperties(s) ==>
          var props := Get(s, "properties").members;
          forall i :: 0 <= i < |props| && props[i].key in Required(s) ==> Satisfiable(props[i].value))
  }

  /** An accepted array can have an item at position `n`, unless it is the schema there that forbids it. */
  predicate Reaches(s: Json, n: nat) {
    forall i :: 0 <= i < |PrefixItems(s)| && i < n ==> Satisfiable(PrefixItems(s)[i])
  }

  /** Which types a schema guarantees. */
  predicate Fits(s: Json, t: TsType)
    decreases s
  {
    Satisfiable(s) ==>
      match t
      case TsUnknown => true
      case TsString => TypeName(s) == "string"
      case TsNumber => TypeName(s) == "number" || TypeName(s) == "integer"
      case TsBoolean => TypeName(s) == "boolean"
      case TsArray(item) =>
        && TypeName(s) == "array"
        && (forall i :: 0 <= i < |PrefixItems(s)| && Reaches(s, i) ==> Fits(PrefixItems(s)[i], item))
        && (Reaches(s, |PrefixItems(s)|) ==>
              if Has(s, "items") then Fits(Get(s, "items"), item) else item == TsUnknown)
      case TsRecord => TypeName(s) == "object"
      case TsObject(fields) =>
        && TypeName(s) == "object"
        && (forall i :: 0 <= i < |fields| ==> fields[i].optional || fields[i].key in Required(s))
        && (forall i :: 0 <= i < |fields| ==>
              if IsProperty(s, fields[i].key) then Fits(Property(s, fields[i].key), fields[i].ty)
              else fields[i].ty == TsUnknown)
  }

  lemma {:induction false} AcceptedIsSatisfiable(others: (Json, Json) -> bool, s: Json, v: Json)
    requires Accepts(others, s, v)
    ensures Satisfiable(s)
    decreases s
  {
    hide Find, Strings, PrefixItems;
    if TypeName(s) == "object" && HasProperties(s) {
      var props := Get(s, "properties").members;
      forall i | 0 <= i < |props| && props[i].key in Required(s) ensures Satisfiable(props[i].value) {
        AcceptedIsSatisfiable(others, props[i].value, Get(v, props[i].key));
      }
    }
  }

  /** Every payload a schema accepts has every type the schema guarantees. */
  lemma {:induction false} Sound(others: (Json, Json) -> bool, s: Json, t: TsType, v: Json)
    requires Accepts(others, s, v) && Fits(s, t)
    ensures Inhabits(t, v)
    decreases s, 1
  {
    AcceptedIsSatisfiable(others, s, v);
    if t.TsArray? {
      SoundArray(others, s, t, v);
    } else if t.TsObject? {
      SoundObject(others, s, t, v);
    }
  }

  lemma SoundArray(others: (Json, Json) -> bool, s: Json, t: TsType, v: Json)
    requires Accepts(others, s, v) && Satisfiable(s) && Fits(s, t) && t.TsArray?
    ensures Inhabits(t, v)
    decreases s, 0
  {
    hide Find, Strings, Satisfiable;
    forall i | 0 <= i < |v.items| ensures Inhabits(t.item, v.items[i]) {
      forall j | 0 <= j < |PrefixItems(s)| && j < i ensures Satisfiable(PrefixItems(s)[j]) {
        AcceptedIsSatisfiable(others, PrefixItems(s)[j], v.items[j]);
      }
      if i < |PrefixItems(s)| {
        Sound(others, PrefixItems(s)[i], t.item, v.items[i]);
      } else if Has(s, "items") {
        Sound(others, Get(s, "items"), t.item, v.items[i]);
      }
    }
  }

  lemma SoundObject(others: (Json, Json) -> bool, s: Json, t: TsType, v: Json)
    requires Accepts(others, s, v) && Satisfiable(s) && Fits(s, t) && t.TsObject?
    ensures Inhabits(t, v)
    decreases s, 0
  {
    hide Find, Strings;
    forall i | 0 <= i < |t.fields|
      ensures if Has(v, t.fields[i].key) then Inhabits(t.fields[i].ty, Get(v, t.fields[i].key)) else t.fields[i].optional
    {
      var key := t.fields[i].key;
      if Has(v, key) && IsProperty(s, key) {
        var props := Get(s, "properties").members;
        assert props[Find(props, key)].key == key;
        Sound(others, Property(s, key), t.fields[i].ty, Get(v, key));
      }
    }
  }

  // --------------------------------------------------------------------
  // The condition is exact
  // --------------------------------------------------------------------

  predicate Anything(s: Json, v: Json) { true }

  ghost predicate Distinct(ms: seq<Member>) {
    forall i, j :: 0 <= i < j < |ms| ==> ms[i].key != ms[j].key
  }

  /** No property is declared twice, as in any parsed JSON object. */
  ghost predicate DistinctKeys(s: Json)
    decreases s
  {
    (TypeName(s) == "array" ==>
       && (forall i :: 0 <= i < |PrefixItems(s)| ==> DistinctKeys(PrefixItems(s)[i]))
       && (Has(s, "items") ==> DistinctKeys(Get(s, "items"))))
    && (TypeName(s) == "object" && HasProperties(s) ==>
          var props := Get(s, "properties").members;
          Distinct(props) && forall i :: 0 <= i < |props| ==> DistinctKeys(props[i].value))
  }

  function Lookup(ms: seq<Member>, key: string): (r: Option<Json>)
    ensures r == if Find(ms, key) < |ms| then Some(ms[Find(ms, key)].value) else None
  {
    if ms == [] then None else if ms[0].key == key then Some(ms[0].value) else Lookup(ms[1..], key)
  }

  lemma {:induction false} LookupAppend(ms: seq<Member>, more: seq<Member>, key: string)
    ensures Lookup(ms + more, key) == if Lookup(ms, key).Some? then Lookup(ms, key) else Lookup(more, key)
  {
    if ms == [] {
      assert ms + more == more;
    } else {
      assert (ms + more)[1..] == ms[1..] + more;
      LookupAppend(ms[1..], more, key);
    }
  }

  lemma {:induction false} LookupDistinct(ms: seq<Member>, i: nat)
    requires Distinct(ms) && i < |ms|
    ensures Lookup(ms, ms[i].key) == Some(ms[i].value)
  {
    if i > 0 {
      assert ms[0].key != ms[i].key;
      LookupDistinct(ms[1..], i - 1);
    }
  }

  /** A member for each name in a `required` array. */
  function Extras(names: seq<Json>): seq<Member> {
    if names == [] then []
    else (if names[0].Text? then [Member(names[0].text, Null)] else []) + Extras(names[1..])
  }

  function RequiredMembers(s: Json): seq<Member> {
    if Has(s, "required") && Get(s, "required").Array? then Extras(Get(s, "required").items) else []
  }

  lemma {:induction false} LookupExtras(names: seq<Json>, key: string)
    ensures Lookup(Extras(names), key) == if key in Strings(names) then Some(Null) else None
  {
    if names != [] {
      assert names == [names[0]] + names[1..];
      StringsCons(names, key);
      LookupExtras(names[1..], key);
      if names[0].Text? {
        assert Extras(names)[1..] == Extras(names[1..]);
      } else {
        assert Extras(names) == Extras(names[1..]);
      }
    }
  }

  lemma StringsCons(names: seq<Json>, key: string)
    requires names != []
    ensures key in Strings(names) <==> (names[0].Text? && names[0].text == key) || key in Strings(names[1..])
  {
    if key in Strings(names) {
      var i :| 0 <= i < |names| && names[i].Text? && names[i].text == key;
      assert i > 0 ==> names[1..][i - 1] == names[i];
    }
    if key in Strings(names[1..]) {
      var i :| 0 <= i < |names[1..]| && names[1..][i].Text? && names[1..][i].text == key;
      assert names[i + 1] == names[1..][i];
    }
  }

  lemma LookupRequired(s: Json, key: string)
    ensures Lookup(RequiredMembers(s), key) == if key in Required(s) then Some(Null) else None
  {
    hide Find, Strings, Lookup;
    if Has(s, "required") && Get(s, "required").Array? {
      LookupExtras(Get(s, "required").items, key);
    } else {
      LookupExtras([], key);
    }
  }

  /** Which object of a schema: samples for all satisfiable properties, all but one, or with a given value for one key. */
  datatype Choice = Plain | Without(key: string) | With(key: string, value: Json)

  /** Some value a satisfiable schema accepts. */
  function Sample(s: Json): Json
    decreases s, 1
  {
    var name := TypeName(s);
    if name == "boolean" then Bool(true)
    else if name == "string" then Text("")
    else if name == "number" || name == "integer" then Number(0.0)
    else if name == "array" then Array([])
    else if name == "object" then
      Object((if HasProperties(s) then Filled(Get(s, "properties").members, Plain) else []) + RequiredMembers(s))
    else Null
  }

  function FilledOne(p: Member, c: Choice): seq<Member>
    decreases p, 2
  {
    if c.Without? && c.key == p.key then []
    else if c.With? && c.key == p.key then [Member(p.key, c.value)]
    else if Satisfiable(p.value) then [Member(p.key, Sample(p.value))]
    else []
  }

  function Filled(props: seq<Member>, c: Choice): seq<Member>
    decreases props, 0
  {
    if props == [] then [] else FilledOne(props[0], c) + Filled(props[1..], c)
  }

  function ObjectOf(s: Json, c: Choice): (v: Json)
    ensures v.Object?
  {
    Object((if HasProperties(s) then Filled(Get(s, "properties").members, c) else [])
           + (RequiredMembers(s) + if c.With? then [Member(c.key, c.value)] else []))
  }

  /** What such an object has for a name among the properties. */
  function Chosen(props: seq<Member>, c: Choice, name: string): Option<Json> {
    if Lookup(props, name).None? || (c.Without? && c.key == name) then None
    else if c.With? && c.key == name then Some(c.value)
    else if Satisfiable(Lookup(props, name).value) then Some(Sample(Lookup(props, name).value))
    else None
  }

  lemma {:induction false} LookupFilled(props: seq<Member>, c: Choice, name: string)
    requires Distinct(props)
    ensures Lookup(Filled(props, c), name) == Chosen(props, c, name)
  {
    if props == [] {
      FilledNothing(c);
    } else {
      hide Sample, Find, Satisfiable, FilledOne, Chosen;
      assert Distinct(props[1..]);
      LookupFilled(props[1..], c, name);
      LookupAppend(FilledOne(props[0], c), Filled(props[1..], c), name);
      LookupOne(props[0], c, name);
      ChosenCons(props, c, name);
    }
  }

  lemma LookupOne(p: Member, c: Choice, name: string)
    ensures Lookup(FilledOne(p, c), name) == Chosen([p], c, name)
  {
    hide Sample, Find, Satisfiable;
  }

  lemma ChosenCons(props: seq<Member>, c: Choice, name: string)
    requires props != [] && Distinct(props)
    ensures Chosen(props, c, name)
         == if Chosen([props[0]], c, name).Some? then Chosen([props[0]], c, name) else Chosen(props[1..], c, name)
  {
    hide Sample, Find, Satisfiable;
    if Lookup(props[1..], name).Some? { NotFirst(props, name); }
  }

  lemma NotFirst(props: seq<Member>, name: string)
    requires props != [] && Distinct(props) && Lookup(props[1..], name).Some?
    ensures props[0].key != name
  {
    assert props[1..][Find(props[1..], name)].key == name;
  }

  /** The whole object: the properties first, then a null for each required name, then the given value. */
  lemma LookupObject(s: Json, c: Choice, name: string)
    requires HasProperties(s) ==> Distinct(Get(s, "properties").members)
    ensures
      var props := if HasProperties(s) then Get(s, "properties").members else [];
      Lookup(ObjectOf(s, c).members, name)
      == if Chosen(props, c, name).Some? then Chosen(props, c, name)
         else if name in Required(s) then Some(Null)
         else if c.With? && c.key == name then Some(c.value) else None
  {
    hide Sample, Find, Filled, Chosen, RequiredMembers, Required;
    var props := if HasProperties(s) then Get(s, "properties").members else [];
    var tail := if c.With? then [Member(c.key, c.value)] else [];
    LookupFilled(props, c, name);
    LookupRequired(s, name);
    LookupAppend(RequiredMembers(s), tail, name);
    assert Filled([], c) == [] by { FilledNothing(c); }
    LookupAppend(Filled(props, c), RequiredMembers(s) + tail, name);
  }

  lemma FilledNothing(c: Choice)
    ensures Filled([], c) == []
  {
  }

  lemma HasLooked(ms: seq<Member>, key: string)
    ensures Has(Object(ms), key) <==> Lookup(ms, key).Some?
    ensures Has(Object(ms), key) ==> Get(Object(ms), key) == Lookup(ms, key).value
  {
  }

  /** The object is accepted unless it lacks a required name or has a wrong value for a property. */
  lemma ObjectAccepted(s: Json, c: Choice)
    requires TypeName(s) == "object" && DistinctKeys(s) && Satisfiable(s)
    requires HasProperties(s) ==>
      var props := Get(s, "properties").members;
      forall i :: 0 <= i < |props| && Satisfiable(props[i].value) ==> Accepts(Anything, props[i].value, Sample(props[i].value))
    requires c.Without? ==> c.key !in Required(s)
    requires c.With? && IsProperty(s, c.key) ==> Accepts(Anything, Property(s, c.key), c.value)
    ensures Accepts(Anything, s, ObjectOf(s, c))
  {
    var v := ObjectOf(s, c);
    hide Find, Sample, ObjectOf, Lookup, Required;
    forall name <- Required(s) ensures Has(v, name) {
      LookupObject(s, c, name);
      HasLooked(v.members, name);
    }
    if HasProperties(s) {
      var props := Get(s, "properties").members;
      forall i | 0 <= i < |props| && Has(v, props[i].key) ensures Accepts(Anything, props[i].value, Get(v, props[i].key)) {
        LookupDistinct(props, i);
        LookupObject(s, c, props[i].key);
        HasLooked(v.members, props[i].key);
        HasLooked(props, props[i].key);
      }
    }
  }

  lemma {:induction false} SampleAccepted(s: Json)
    requires DistinctKeys(s) && Satisfiable(s)
    ensures Accepts(Anything, s, Sample(s))
    decreases s
  {
    if TypeName(s) == "object" {
      SamplesAccepted(s);
      ObjectAccepted(s, Plain);
      assert RequiredMembers(s) + [] == RequiredMembers(s);
      assert Sample(s) == ObjectOf(s, Plain);
    }
  }

  lemma SamplesAccepted(s: Json)
    requires DistinctKeys(s) && TypeName(s) == "object"
    ensures HasProperties(s) ==>
      var props := Get(s, "properties").members;
      forall i :: 0 <= i < |props| && Satisfiable(props[i].value) ==> Accepts(Anything, props[i].value, Sample(props[i].value))
    decreases s, 0
  {
    hide Accepts, Sample, Satisfiable;
    if HasProperties(s) {
      var props := Get(s, "properties").members;
      forall i | 0 <= i < |props| && Satisfiable(props[i].value)
        ensures Accepts(Anything, props[i].value, Sample(props[i].value))
      {
        SampleAccepted(props[i].value);
      }
    }
  }

  /** Samples for the first `n` items, then `w`. */
  function ItemsBefore(s: Json, n: nat, w: Json): Json
    requires n <= |PrefixItems(s)|
  {
    Array(seq(n, i requires 0 <= i < n => Sample(PrefixItems(s)[i])) + [w])
  }

  lemma ItemsAccepted(s: Json, n: nat, w: Json)
    requires TypeName(s) == "array" && DistinctKeys(s) && n <= |PrefixItems(s)| && Reaches(s, n)
    requires n < |PrefixItems(s)| ==> Accepts(Anything, PrefixItems(s)[n], w)
    requires n == |PrefixItems(s)| && Has(s, "items") ==> Accepts(Anything, Get(s, "items"), w)
    ensures Accepts(Anything, s, ItemsBefore(s, n, w))
  {
    hide Find, Sample, Required, PrefixItems;
    var v := ItemsBefore(s, n, w);
    forall i | 0 <= i < n ensures Accepts(Anything, PrefixItems(s)[i], v.items[i]) {
      SampleAccepted(PrefixItems(s)[i]);
    }
  }

  /** A value the schema accepts and the type does not have. */
  lemma {:induction false} Misfit(s: Json, t: TsType) returns (v: Json)
    requires DistinctKeys(s) && !Fits(s, t)
    ensures Accepts(Anything, s, v) && !Inhabits(t, v)
    decreases s, 1
  {
    if t.TsArray? && TypeName(s) == "array" {
      v := MisfitArray(s, t);
    } else if t.TsObject? && TypeName(s) == "object" {
      v := MisfitObject(s, t);
    } else {
      v := Sample(s);
      SampleAccepted(s);
      hide Accepts;
    }
  }

  lemma LastItem(s: Json, t: TsType, n: nat, w: Json)
    requires n <= |PrefixItems(s)| && t.TsArray? && !Inhabits(t.item, w)
    ensures !Inhabits(t, ItemsBefore(s, n, w))
  {
    hide Sample, PrefixItems;
    assert ItemsBefore(s, n, w).items[n] == w;
  }

  lemma MisfitArray(s: Json, t: TsType) returns (v: Json)
    requires DistinctKeys(s) && !Fits(s, t) && t.TsArray? && TypeName(s) == "array"
    ensures Accepts(Anything, s, v) && !Inhabits(t, v)
    decreases s, 0
  {
    hide Accepts, Inhabits, Find, Sample, Satisfiable, Reaches;
    var n, w := |PrefixItems(s)|, Null;
    if j :| 0 <= j < |PrefixItems(s)| && Reaches(s, j) && !Fits(PrefixItems(s)[j], t.item) {
      n := j;
      w := Misfit(PrefixItems(s)[j], t.item);
    } else if Has(s, "items") {
      w := Misfit(Get(s, "items"), t.item);
    } else {
      NullHasUnknownOnly(t.item);
    }
    v := ItemsBefore(s, n, w);
    ItemsAccepted(s, n, w);
    LastItem(s, t, n, w);
  }

  lemma NullHasUnknownOnly(t: TsType)
    ensures Inhabits(t, Null) <==> t == TsUnknown
  {
  }

  /** A field the schema does not guarantee. */
  predicate Amiss(s: Json, f: Field) {
    || (!f.optional && f.key !in Required(s))
    || (if IsProperty(s, f.key) then !Fits(Property(s, f.key), f.ty) else f.ty != TsUnknown)
  }

  lemma MisfitObject(s: Json, t: TsType) returns (v: Json)
    requires DistinctKeys(s) && !Fits(s, t) && t.TsObject? && TypeName(s) == "object"
    ensures Accepts(Anything, s, v) && !Inhabits(t, v)
    decreases s, 0
  {
    hide Accepts, Inhabits, Find, Sample, Required;
    var i :| 0 <= i < |t.fields| && Amiss(s, t.fields[i]);
    var f := t.fields[i];
    assert Amiss(s, f);
    SamplesAccepted(s);
    if !f.optional && f.key !in Required(s) {
      v := ObjectOf(s, Without(f.key));
      ObjectAccepted(s, Without(f.key));
      Lacks(s, t, i);
    } else {
      var w := Null;
      if IsProperty(s, f.key) {
        assert DistinctKeys(Property(s, f.key)) by { PropertyDistinct(s, f.key); }
        w := Misfit(Property(s, f.key), f.ty);
      } else {
        NullHasUnknownOnly(f.ty);
      }
      v := ObjectOf(s, With(f.key, w));
      ObjectAccepted(s, With(f.key, w));
      HasWrong(s, t, i, w);
    }
  }

  lemma PropertyDistinct(s: Json, key: string)
    requires DistinctKeys(s) && TypeName(s) == "object" && IsProperty(s, key)
    ensures DistinctKeys(Property(s, key))
  {
    hide Find;
    var props := Get(s, "properties").members;
    assert props[Find(props, key)].value == Property(s, key);
  }

  lemma Lacks(s: Json, t: TsType, i: nat)
    requires t.TsObject? && i < |t.fields| && !t.fields[i].optional && t.fields[i].key !in Required(s)
    requires HasProperties(s) ==> Distinct(Get(s, "properties").members)
    ensures !Inhabits(t, ObjectOf(s, Without(t.fields[i].key)))
  {
    hide Find, Sample, ObjectOf, Lookup, Required;
    var c := Without(t.fields[i].key);
    LookupObject(s, c, c.key);
    HasLooked(ObjectOf(s, c).members, c.key);
  }

  lemma HasWrong(s: Json, t: TsType, i: nat, w: Json)
    requires t.TsObject? && i < |t.fields| && !Inhabits(t.fields[i].ty, w)
    requires !IsProperty(s, t.fields[i].key) ==> w == Null
    requires HasProperties(s) ==> Distinct(Get(s, "properties").members)
    ensures !Inhabits(t, ObjectOf(s, With(t.fields[i].key, w)))
  {
    hide Find, Sample, ObjectOf, Lookup, Required;
    var c := With(t.fields[i].key, w);
    LookupObject(s, c, c.key);
    HasLooked(ObjectOf(s, c).members, c.key);
    if HasProperties(s) { HasLooked(Get(s, "properties").members, c.key); }
  }

  /** A schema accepts only values of a type, the keywords the generator ignores aside, if and only if it guarantees the type. */
  lemma FitsIff(s: Json, t: TsType)
    requires DistinctKeys(s)
    ensures (forall v :: Accepts(Anything, s, v) ==> Inhabits(t, v)) <==> Fits(s, t)
  {
    hide Accepts, Inhabits, Fits, DistinctKeys;
    if Fits(s, t) {
      forall v | Accepts(Anything, s, v) ensures Inhabits(t, v) { Sound(Anything, s, t, v); }
    } else {
      var v := Misfit(s, t);
    }
  }

  /** The generated type has every value a schema accepts if and only if the schema guarantees the generated type. */
  lemma SoundIff(s: Json)
    requires DistinctKeys(s)
    ensures (forall v :: Accepts(Anything, s, v) ==> Inhabits(Compile(s), v)) <==> Fits(s, Compile(s))
  {
    FitsIff(s, Compile(s));
  }

  /** No array schema the generator looks into gives its first items schemas of their own, unless its items are unknown. */
  predicate Uniform(s: Json)
    decreases s
  {
    (TypeName(s) == "array" && Has(s, "items") ==>
       (PrefixItems(s) == [] || Compile(Get(s, "items")) == TsUnknown) && Uniform(Get(s, "items")))
    && (TypeName(s) == "object" && HasProperties(s) ==>
          var props := Get(s, "properties").members;
          forall i :: 0 <= i < |props| ==> Uniform(props[i].value))
  }

  /** Such a schema guarantees its generated type. */
  lemma {:induction false} UniformFits(s: Json)
    requires DistinctKeys(s) && Uniform(s)
    ensures Fits(s, Compile(s))
    decreases s, 1
  {
    if TypeName(s) == "array" && Has(s, "items") {
      UniformFits(Get(s, "items"));
    } else if TypeName(s) == "object" && HasProperties(s) {
      UniformObject(s);
    }
  }

  lemma UniformObject(s: Json)
    requires DistinctKeys(s) && Uniform(s) && TypeName(s) == "object" && HasProperties(s)
    ensures Fits(s, Compile(s))
    decreases s, 0
  {
    hide Find, Strings;
    var props := Get(s, "properties").members;
    var fields := CompileFields(props, Required(s));
    forall i | 0 <= i < |fields|
      ensures IsProperty(s, fields[i].key) && Fits(Property(s, fields[i].key), fields[i].ty)
    {
      CompileFieldsAt(props, Required(s), i);
      LookupDistinct(props, i);
      HasLooked(props, props[i].key);
      UniformFits(props[i].value);
    }
  }

  /** No first-item schemas, no `false`, no property declared twice, and every required name among the properties. */
  ghost predicate Regular(s: Json)
    decreases s
  {
    && s != Bool(false)
    && (TypeName(s) == "array" ==> PrefixItems(s) == [] && (Has(s, "items") ==> Regular(Get(s, "items"))))
    && (TypeName(s) == "object" ==>
          if HasProperties(s) then
            var props := Get(s, "properties").members;
            && Distinct(props)
            && (forall i :: 0 <= i < |props| ==> Regular(props[i].value))
            && (forall name <- Required(s) :: Find(props, name) < |props|)
          else Required(s) == {})
  }

  lemma {:induction false} RegularIsSatisfiable(s: Json)
    requires Regular(s)
    ensures Satisfiable(s)
    decreases s
  {
    hide Find, Strings;
    if TypeName(s) == "object" && HasProperties(s) {
      var props := Get(s, "properties").members;
      forall i | 0 <= i < |props| ensures Satisfiable(props[i].value) { RegularIsSatisfiable(props[i].value); }
    }
  }

  /** On such schemas the generated type says the most it can: it is within every type the schema guarantees. */
  lemma {:induction false} Tightest(s: Json, t: TsType, v: Json)
    requires Regular(s) && Fits(s, t) && Inhabits(Compile(s), v)
    ensures Inhabits(t, v)
    decreases s, 2
  {
    hide Find, Strings, CompileFields;
    RegularIsSatisfiable(s);
    if t.TsArray? {
      TightestArray(s, t, v);
    } else if t.TsObject? {
      hide Inhabits, Fits, Compile;
      TightestObject(s, t, v);
    }
  }

  lemma TightestArray(s: Json, t: TsType, v: Json)
    requires Regular(s) && Satisfiable(s) && Fits(s, t) && t.TsArray? && Inhabits(Compile(s), v)
    ensures Inhabits(t, v)
    decreases s, 0
  {
    hide Find, Strings, CompileFields, Satisfiable;
    if Has(s, "items") {
      forall i | 0 <= i < |v.items| ensures Inhabits(t.item, v.items[i]) {
        Tightest(Get(s, "items"), t.item, v.items[i]);
      }
    }
  }

  lemma TightestObject(s: Json, t: TsType, v: Json)
    requires Regular(s) && Satisfiable(s) && Fits(s, t) && t.TsObject? && Inhabits(Compile(s), v)
    ensures Inhabits(t, v)
    decreases s, 1
  {
    FitsFields(s, t);
    hide Fits, Find, Required, Satisfiable, Compile, Regular;
    assert v.Object? by { ObjectTyped(s, v); }
    forall i | 0 <= i < |t.fields|
      ensures if Has(v, t.fields[i].key) then Inhabits(t.fields[i].ty, Get(v, t.fields[i].key)) else t.fields[i].optional
    {
      TightestField(s, t.fields[i], v);
    }
  }

  lemma FitsFields(s: Json, t: TsType)
    requires Satisfiable(s) && Fits(s, t) && t.TsObject?
    ensures TypeName(s) == "object"
    ensures forall i :: 0 <= i < |t.fields| ==> FieldFits(s, t.fields[i])
  {
    hide Find, Strings;
  }

  predicate FieldFits(s: Json, f: Field) {
    && (f.optional || f.key in Required(s))
    && if IsProperty(s, f.key) then Fits(Property(s, f.key), f.ty) else f.ty == TsUnknown
  }

  lemma ObjectTyped(s: Json, v: Json)
    requires TypeName(s) == "object" && Inhabits(Compile(s), v)
    ensures v.Object?
  {
    hide Find, Strings, CompileFields;
  }

  lemma TightestField(s: Json, f: Field, v: Json)
    requires Regular(s) && TypeName(s) == "object" && v.Object? && Inhabits(Compile(s), v)
    requires FieldFits(s, f)
    ensures if Has(v, f.key) then Inhabits(f.ty, Get(v, f.key)) else f.optional
    decreases s, 0
  {
    hide Find, Strings, Fits, CompileFields;
    if IsProperty(s, f.key) {
      var props := Get(s, "properties").members;
      var j := Find(props, f.key);
      CompileFieldsAt(props, Required(s), j);
      var field := CompileFields(props, Required(s))[j];
      assert field.key == f.key;
      if Has(v, f.key) { Tightest(props[j].value, f.ty, Get(v, f.key)); }
    }
  }

  /** With schemas for the first items, an accepted array need not have the generated type. */
  lemma PrefixItemsAreUnsound()
    ensures var s := Object([Member("type", Text("array")), Member("prefixItems", Array([Bool(true)])),
                             Member("items", Object([Member("type", Text("string"))]))]);
            Accepts(Anything, s, Array([Null])) && !Inhabits(Compile(s), Array([Null]))
  {
    var item := Object([Member("type", Text("string"))]);
    var s := Object([Member("type", Text("array")), Member("prefixItems", Array([Bool(true)])), Member("items", item)]);
    assert s.members[1..][0].key == "prefixItems" && s.members[1..][1..][0].key == "items";
    assert Find(s.members, "type") == 0 && Find(s.members, "prefixItems") == 1 && Find(s.members, "items") == 2;
    assert Find(item.members, "type") == 0;
    assert Array([Null]).items[0] == Null;
    assert Accepts(Anything, Bool(true), Null);
    assert PrefixItems(s) == [Bool(true)] && !Has(s, "required") by { assert Find(s.members, "required") == 3; }
  }

  /**
   * Schemas that TypeScript can say exactly: no "integer", no type list, every required
   * name among the properties, no schemas for first items, no keyword on a schema without
   * a type, and not `false`.
   */
  predicate Precise(s: Json)
    decreases s
  {
    var name := TypeName(s);
    if name == "array" then PrefixItems(s) == [] && (Has(s, "items") ==> Precise(Get(s, "items")))
    else if name == "object" then
      if HasProperties(s) then
        var props := Get(s, "properties").members;
        && (forall i :: 0 <= i < |props| ==> Precise(props[i].value))
        && (forall name <- Required(s) :: Find(props, name) < |props|)
      else Required(s) == {}
    else if name == "" then s != Bool(false) && Required(s) == {} && !HasProperties(s) && PrefixItems(s) == [] && !Has(s, "items")
    else name in ["string", "number", "boolean"]
  }

  /**
   * On such schemas the generated type, with object types read as JSON objects, has exactly
   * the values the schema accepts.
   */
  lemma {:induction false} Exact(s: Json, v: Json)
    requires Precise(s)
    ensures Accepts(Anything, s, v) <==> Inhabits(Compile(s), v)
    decreases s
  {
    hide Find, Strings, Accepts, Inhabits, Compile, Precise;
    if TypeName(s) == "array" && Has(s, "items") {
      ExactArray(s, v);
    } else if TypeName(s) == "object" && HasProperties(s) {
      ExactObject(s, v);
    } else {
      ExactLeaf(s, v);
    }
  }

  lemma ExactLeaf(s: Json, v: Json)
    requires Precise(s)
    requires !(TypeName(s) == "array" && Has(s, "items")) && !(TypeName(s) == "object" && HasProperties(s))
    ensures Accepts(Anything, s, v) <==> Inhabits(Compile(s), v)
  {
    hide Find, Strings, CompileFields, PrefixItems;
  }

  lemma ExactArray(s: Json, v: Json)
    requires Precise(s) && TypeName(s) == "array" && Has(s, "items")
    ensures Accepts(Anything, s, v) <==> Inhabits(Compile(s), v)
    decreases s, 0
  {
    hide Find, Strings, CompileFields, PrefixItems;
    if v.Array? {
      forall i | 0 <= i < |v.items|
        ensures Accepts(Anything, Get(s, "items"), v.items[i]) <==> Inhabits(Compile(Get(s, "items")), v.items[i])
      {
        Exact(Get(s, "items"), v.items[i]);
      }
    }
  }

  lemma ExactObject(s: Json, v: Json)
    requires Precise(s) && TypeName(s) == "object" && HasProperties(s)
    ensures Accepts(Anything, s, v) <==> Inhabits(Compile(s), v)
    decreases s, 0
  {
    hide Find, Strings, CompileFields, PrefixItems;
    if v.Object? {
      var props := Get(s, "properties").members;
      var fields := CompileFields(props, Required(s));
      forall i | 0 <= i < |props|
        ensures Has(v, props[i].key) ==> (Accepts(Anything, props[i].value, Get(v, props[i].key))
                                          <==> Inhabits(fields[i].ty, Get(v, fields[i].key)))
      {
        CompileFieldsAt(props, Required(s), i);
        if Has(v, props[i].key) { Exact(props[i].value, Get(v, props[i].key)); }
      }
      assert Inhabits(Compile(s), v) ==> forall name <- Required(s) :: Has(v, name) by {
        forall name <- Required(s) | Inhabits(Compile(s), v) ensures Has(v, name) {
          assert fields[Find(props, name)].key == name && !fields[Find(props, name)].optional;
        }
      }
    }
  }
}
