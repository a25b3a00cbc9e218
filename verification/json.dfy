/** JSON-shaped values as JavaScript sees them after `response.json()` or
    `JSON.parse`, and the property reads the service performs on them. */
module Json {
  import opened Wrappers
  import Decimal

  /** A JSON value. Objects keep their fields in the order they were written;
      numbers are reals (JSON cannot denote NaN or infinities). */
  datatype Json =
    | JNull
    | JBool(b: bool)
    | JNum(n: real)
    | JStr(s: string)
    | JArr(items: seq<Json>)
    | JObj(fields: seq<Field>)

  datatype Field = Field(key: string, value: Json)

  /** A property access key: `.name` or `[index]`. */
  datatype Key = Name(name: string) | Index(index: nat)

  /** Position of the binding of `key` that a read sees: the last one, as
      `JSON.parse` keeps the last of duplicated keys. */
  function Find(fields: seq<Field>, key: string): (r: Option<nat>)
    ensures r.Some? ==> r.value < |fields| && fields[r.value].key == key
    ensures r.Some? ==> forall j :: r.value < j < |fields| ==> fields[j].key != key
    ensures r.None? ==> forall j :: 0 <= j < |fields| ==> fields[j].key != key
    decreases |fields|
  {
    if |fields| == 0 then None
    else if fields[|fields| - 1].key == key then Some(|fields| - 1)
    else Find(fields[..|fields| - 1], key)
  }

  /** The value bound to `key`; `None` is `undefined`. */
  function Lookup(fields: seq<Field>, key: string): Option<Json>
  {
    match Find(fields, key)
    case None => None
    case Some(i) => Some(fields[i].value)
  }

  /** Reading from an object with one more binding at the end. */
  lemma FindSnoc(fs: seq<Field>, f: Field, key: string)
    ensures Find(fs + [f], key) == if f.key == key then Some(|fs|) else Find(fs, key)
  {
    assert (fs + [f])[..|fs|] == fs;
  }

  lemma LookupSnoc(fs: seq<Field>, f: Field, key: string)
    ensures Lookup(fs + [f], key) == if f.key == key then Some(f.value) else Lookup(fs, key)
  {
    FindSnoc(fs, f, key);
    assert (fs + [f])[|fs|] == f;
    if f.key != key && Find(fs, key).Some? {
      assert (fs + [f])[Find(fs, key).value] == fs[Find(fs, key).value];
    }
  }

  /** JavaScript's falsiness restricted to JSON values: null, false, 0 and "". */
  predicate Truthy(v: Json)
    ensures !Truthy(v) <==> v in {JNull, JBool(false), JNum(0.0), JStr("")}
  {
    match v
    case JNull => false
    case JBool(b) => b
    case JNum(n) => n != 0.0
    case JStr(s) => s != ""
    case _ => true
  }

  /** `v[key]` / `v.key` on a non-null value. An index on an object reads the
      key spelled in decimal; an index on a string yields a one-character
      string. Only the reads the service performs are modelled: the names
      `candidates`, `content`, `parts` and `text`, and integer indices. A name
      on an array or a string, which JavaScript answers for `length` and for
      numeric names such as `"0"`, is `undefined` here. */
  function Member(v: Json, key: Key): (r: Option<Json>)
    requires v != JNull
    ensures r.Some? ==> v.JObj? || v.JArr? || v.JStr?
    ensures v.JObj? ==> r == Lookup(v.fields, if key.Name? then key.name else Decimal.Show(key.index))
    ensures v.JArr? ==> (r.Some? <==> key.Index? && key.index < |v.items|)
    ensures v.JArr? && r.Some? ==> r.value == v.items[key.index]
    ensures v.JStr? ==> (r.Some? <==> key.Index? && key.index < |v.s|)
    ensures v.JStr? && r.Some? ==> r.value == JStr([v.s[key.index]])
  {
    match (v, key)
    case (JObj(fs), Name(k)) => Lookup(fs, k)
    case (JObj(fs), Index(i)) => Lookup(fs, Decimal.Show(i))
    case (JArr(xs), Index(i)) => if i < |xs| then Some(xs[i]) else None
    case (JStr(s), Index(i)) => if i < |s| then Some(JStr([s[i]])) else None
    case _ => None
  }

  /** Optional chaining `v?.key`: null or undefined short-circuit to undefined. */
  function Chain(v: Option<Json>, key: Key): (r: Option<Json>)
    ensures (v.None? || v.value == JNull) ==> r.None?
  {
    match v
    case None => None
    case Some(JNull) => None
    case Some(x) => Member(x, key)
  }
}
