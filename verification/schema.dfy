/** The response schemas handed to the generative API: their typed form, the
    JSON object the request carries, and what it would mean for a value to
    conform to one. */
module Schema {
  import opened Wrappers
  import opened Json

  datatype Schema =
    | SString
    | SNumber
    | SArray(items: Schema)
    | SObject(properties: seq<Property>, required: seq<string>)

  datatype Property = Property(name: string, schema: Schema)

  /** The JSON form `{type: "...", ...}`: exactly the keys the service
      writes, in its order, and no others. Decoding it gives the schema back. */
  function Encode(s: Schema): (v: Json)
    ensures v.JObj? && |v.fields| == (if s.SArray? then 2 else if s.SObject? then 3 else 1)
    ensures v.fields[0].key == "type"
    ensures s.SArray? ==> v.fields[1].key == "items"
    ensures s.SObject? ==> v.fields[1].key == "properties" && v.fields[2].key == "required"
    ensures s.SArray? ==> v.fields[1].value == Encode(s.items)
    ensures s.SObject? ==> v.fields[1].value == JObj(EncodeProperties(s.properties))
    ensures Decode(v) == Some(s)
    decreases s
  {
    match s
    case SString => JObj([Field("type", JStr("STRING"))])
    case SNumber => JObj([Field("type", JStr("NUMBER"))])
    case SArray(i) =>
      var item := Encode(i);
      DecodeArrayOf(i, item);
      JObj([Field("type", JStr("ARRAY")), Field("items", item)])
    case SObject(ps, req) =>
      var pfs := EncodeProperties(ps);
      DecodeNamesEncode(req);
      DecodeObjectOf(ps, req, pfs, EncodeNames(req));
      JObj([Field("type", JStr("OBJECT")), Field("properties", JObj(pfs)), Field("required", JArr(EncodeNames(req)))])
  }

  /** The `properties` object: one field per property, in order. */
  function EncodeProperties(ps: seq<Property>): (fs: seq<Field>)
    ensures |fs| == |ps|
    ensures forall k :: 0 <= k < |ps| ==> fs[k] == Field(ps[k].name, Encode(ps[k].schema))
    ensures DecodeProperties(fs) == Some(ps)
    decreases ps
  {
    if |ps| == 0 then []
    else
      var head := Field(ps[0].name, Encode(ps[0].schema));
      var rest := EncodeProperties(ps[1..]);
      assert ([head] + rest)[0] == head && ([head] + rest)[1..] == rest;
      assert [Property(ps[0].name, ps[0].schema)] + ps[1..] == ps;
      [head] + rest
  }

  function EncodeNames(names: seq<string>): (vs: seq<Json>)
    ensures |vs| == |names|
    ensures forall i :: 0 <= i < |names| ==> vs[i] == JStr(names[i])
  {
    seq(|names|, i requires 0 <= i < |names| => JStr(names[i]))
  }

  /** Reads a schema back from its JSON form; `None` for anything that is not one. */
  function Decode(v: Json): Option<Schema>
    decreases v, 2
  {
    if !v.JObj? then None
    else
      match Find(v.fields, "type")
      case None => None
      case Some(t) => DecodeTagged(v, v.fields[t].value)
  }

  /** Decodes the object `v` whose `type` key holds `tag`. */
  function DecodeTagged(v: Json, tag: Json): Option<Schema>
    requires v.JObj?
    decreases v, 1
  {
    if tag == JStr("STRING") then Some(SString)
    else if tag == JStr("NUMBER") then Some(SNumber)
    else if tag == JStr("ARRAY") then DecodeArray(v)
    else if tag == JStr("OBJECT") then DecodeObjectFields(v)
    else None
  }

  /** The `items` of an array schema. */
  function DecodeArray(v: Json): Option<Schema>
    requires v.JObj?
    decreases v, 0
  {
    match Find(v.fields, "items")
    case None => None
    case Some(i) => (
      match Decode(v.fields[i].value)
      case None => None
      case Some(item) => Some(SArray(item)))
  }

  /** The `properties` and `required` of an object schema. */
  function DecodeObjectFields(v: Json): Option<Schema>
    requires v.JObj?
    decreases v, 0
  {
    match (Find(v.fields, "properties"), Find(v.fields, "required"))
    case (Some(p), Some(q)) => DecodeObjectParts(v.fields[p].value, v.fields[q].value)
    case _ => None
  }

  function DecodeObjectParts(properties: Json, required: Json): Option<Schema>
    decreases properties, 0
  {
    match (properties, required)
    case (JObj(pfs), JArr(names)) => (
      match (DecodeProperties(pfs), DecodeNames(names))
      case (Some(ps), Some(req)) => Some(SObject(ps, req))
      case _ => None)
    case _ => None
  }

  function DecodeProperties(fs: seq<Field>): Option<seq<Property>>
    decreases fs
  {
    if |fs| == 0 then Some([])
    else
      match (Decode(fs[0].value), DecodeProperties(fs[1..]))
      case (Some(s), Some(rest)) => Some([Property(fs[0].key, s)] + rest)
      case _ => None
  }

  function DecodeNames(vs: seq<Json>): Option<seq<string>>
    decreases |vs|
  {
    if |vs| == 0 then Some([])
    else
      match (vs[0], DecodeNames(vs[1..]))
      case (JStr(n), Some(rest)) => Some([n] + rest)
      case _ => None
  }

  /** Reads of a three-field object. */
  lemma Find3(a: Field, b: Field, c: Field, key: string)
    ensures Find([a, b, c], key)
         == if c.key == key then Some(2) else if b.key == key then Some(1)
            else if a.key == key then Some(0) else None
  {
    assert [a, b, c] == [a, b] + [c];
    assert [a, b] == [a] + [b];
    assert [a] == [] + [a];
    FindSnoc([a, b], c, key);
    FindSnoc([a], b, key);
    FindSnoc([], a, key);
  }

  /** The array case of the round trip, given the round trip of the items. */
  lemma DecodeArrayOf(i: Schema, item: Json)
    requires Decode(item) == Some(i)
    ensures Decode(JObj([Field("type", JStr("ARRAY")), Field("items", item)])) == Some(SArray(i))
  {
    var f0 := Field("type", JStr("ARRAY"));
    var f1 := Field("items", item);
    var v := JObj([f0, f1]);
    assert [f0, f1] == [f0] + [f1];
    assert [f0] == [] + [f0];
    FindSnoc([f0], f1, "type");
    FindSnoc([], f0, "type");
    FindSnoc([f0], f1, "items");
    assert Find(v.fields, "type") == Some(0);
    assert Find(v.fields, "items") == Some(1);
    assert Decode(v) == DecodeTagged(v, JStr("ARRAY"));
    assert JStr("ARRAY") != JStr("STRING") && JStr("ARRAY") != JStr("NUMBER");
    assert DecodeTagged(v, JStr("ARRAY")) == DecodeArray(v);
    assert v.fields[1].value == item;
  }

  /** The object case of the round trip, given the round trips of its parts. */
  lemma DecodeObjectOf(ps: seq<Property>, req: seq<string>, pfs: seq<Field>, names: seq<Json>)
    requires DecodeProperties(pfs) == Some(ps)
    requires DecodeNames(names) == Some(req)
    ensures Decode(JObj([Field("type", JStr("OBJECT")), Field("properties", JObj(pfs)), Field("required", JArr(names))]))
         == Some(SObject(ps, req))
  {
    var f0 := Field("type", JStr("OBJECT"));
    var f1 := Field("properties", JObj(pfs));
    var f2 := Field("required", JArr(names));
    var v := JObj([f0, f1, f2]);
    Find3(f0, f1, f2, "type");
    Find3(f0, f1, f2, "properties");
    Find3(f0, f1, f2, "required");
    assert Decode(v) == DecodeTagged(v, JStr("OBJECT"));
    assert JStr("OBJECT") != JStr("STRING") && JStr("OBJECT") != JStr("NUMBER") && JStr("OBJECT") != JStr("ARRAY");
    assert DecodeTagged(v, JStr("OBJECT")) == DecodeObjectFields(v);
    assert DecodeObjectFields(v) == DecodeObjectParts(JObj(pfs), JArr(names));
  }

  lemma {:induction false} DecodeNamesEncode(names: seq<string>)
    ensures DecodeNames(EncodeNames(names)) == Some(names)
    decreases |names|
  {
    if |names| > 0 {
      assert EncodeNames(names)[1..] == EncodeNames(names[1..]);
      DecodeNamesEncode(names[1..]);
      assert [names[0]] + names[1..] == names;
    }
  }

  /** The encoding is injective: the request identifies its schema. */
  lemma EncodeInjective(s: Schema, t: Schema)
    ensures Encode(s) == Encode(t) ==> s == t
  {
  }

  /** What a server honouring the schema would return. The client never
      checks this: it only describes the contract the API is asked to keep. */
  predicate Conforms(v: Json, s: Schema)
    decreases s
  {
    match s
    case SString => v.JStr?
    case SNumber => v.JNum?
    case SArray(item) =>
      v.JArr? && forall k :: 0 <= k < |v.items| ==> Conforms(v.items[k], item)
    case SObject(ps, req) =>
      && v.JObj?
      && (forall n :: n in req ==> Lookup(v.fields, n).Some?)
      && forall k :: 0 <= k < |ps| ==> PropertyConforms(v.fields, ps[k])
  }

  /** A declared property that is present has the declared shape. */
  predicate PropertyConforms(fields: seq<Field>, p: Property)
    decreases p
  {
    match Lookup(fields, p.name)
    case None => true
    case Some(x) => Conforms(x, p.schema)
  }
}
