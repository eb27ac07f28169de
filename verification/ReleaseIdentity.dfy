/** The canonical byte encoding of a release identity, driven by a schema. */
module ReleaseIdentity {
  import opened Common

  /** The texts a release holds: printable ASCII, one byte for each character. */
  predicate Printable(t: string) { |t| < 0x8000_0000 && forall i :: 0 <= i < |t| ==> ' ' <= t[i] <= '~' }

  type Text = t: string | Printable(t)

  /** What a schema says of a field; `Plain` kinds such as integers have no encoding. */
  datatype Kind = TextField | ObjectField(name: string) | Plain

  type Fields = seq<(Text, Kind)>

  /** Object names and their fields, in the order the schema file lists them. */
  type Schema = map<string, Fields>

  datatype Value = Str(text: Text) | Obj(members: seq<(Text, Value)>) | Num(number: int)

  // ---- members by name ----

  predicate Has<V>(members: seq<(Text, V)>, name: Text) { IndexOf(members, name) < |members| }

  function Get<V>(members: seq<(Text, V)>, name: Text): V
    requires Has(members, name)
  {
    members[IndexOf(members, name)].1
  }

  lemma GetAt<V>(members: seq<(Text, V)>, i: nat)
    requires DistinctNames(members) && i < |members|
    ensures Has(members, members[i].0) && Get(members, members[i].0) == members[i].1
  {
    assert !(IndexOf(members, members[i].0) < i);
  }

  predicate SchemaValid(schema: Schema) {
    forall name :: name in schema ==> DistinctNames(schema[name]) && |schema[name]| < 0x8000_0000
  }

  // ---- ordinal order ----

  /** `a` comes no later than `b`, comparing character by character. */
  predicate AtMost(a: string, b: string) {
    a == "" || (b != "" && (a[0] < b[0] || (a[0] == b[0] && AtMost(a[1..], b[1..]))))
  }

  function Insert(f: (Text, Kind), fields: Fields): Fields {
    if fields == [] || AtMost(f.0, fields[0].0) then [f] + fields else [fields[0]] + Insert(f, fields[1..])
  }

  function Sorted(fields: Fields): Fields {
    if fields == [] then [] else Insert(fields[0], Sorted(fields[1..]))
  }

  predicate InOrder(fields: Fields) { forall i, j :: 0 <= i < j < |fields| ==> AtMost(fields[i].0, fields[j].0) }

  lemma {:induction false} AtMostTotal(a: string, b: string)
    ensures AtMost(a, b) || AtMost(b, a)
  {
    if a != "" && b != "" && a[0] == b[0] { AtMostTotal(a[1..], b[1..]); }
  }

  lemma {:induction false} AtMostTransitive(a: string, b: string, c: string)
    requires AtMost(a, b) && AtMost(b, c)
    ensures AtMost(a, c)
  {
    if a != "" && a[0] == b[0] && b[0] == c[0] { AtMostTransitive(a[1..], b[1..], c[1..]); }
  }

  lemma {:induction false} InsertPermutes(f: (Text, Kind), fields: Fields)
    ensures multiset(Insert(f, fields)) == multiset(fields) + multiset{f}
  {
    hide AtMost;
    if fields != [] {
      InsertPermutes(f, fields[1..]);
      assert fields == [fields[0]] + fields[1..];
    }
  }

  lemma InOrderFrom(f: (Text, Kind), tail: Fields)
    requires InOrder(tail) && forall j :: 0 <= j < |tail| ==> AtMost(f.0, tail[j].0)
    ensures InOrder([f] + tail)
  {
    hide AtMost;
  }

  lemma {:induction false} InsertKeepsOrder(f: (Text, Kind), fields: Fields)
    requires InOrder(fields)
    ensures InOrder(Insert(f, fields))
  {
    hide AtMost;
    if fields == [] || AtMost(f.0, fields[0].0) {
      forall j | 0 <= j < |fields|
        ensures AtMost(f.0, fields[j].0)
      {
        if j > 0 { AtMostTransitive(f.0, fields[0].0, fields[j].0); }
      }
      InOrderFrom(f, fields);
    } else {
      AtMostTotal(f.0, fields[0].0);
      InsertKeepsOrder(f, fields[1..]);
      InsertPermutes(f, fields[1..]);
      var tail := Insert(f, fields[1..]);
      forall j | 0 <= j < |tail|
        ensures AtMost(fields[0].0, tail[j].0)
      {
        assert tail[j] in multiset(tail);
        if tail[j] != f {
          var k :| 0 <= k < |fields[1..]| && fields[1..][k] == tail[j];
          assert fields[k + 1] == tail[j];
        }
      }
      InOrderFrom(fields[0], tail);
    }
  }

  /** The fields are encoded in ordinal order, each exactly once. */
  lemma {:induction false} SortedIsOrdered(fields: Fields)
    ensures InOrder(Sorted(fields)) && multiset(Sorted(fields)) == multiset(fields) && |Sorted(fields)| == |fields|
  {
    if fields != [] {
      SortedIsOrdered(fields[1..]);
      InsertKeepsOrder(fields[0], Sorted(fields[1..]));
      InsertPermutes(fields[0], Sorted(fields[1..]));
      assert fields == [fields[0]] + fields[1..];
    }
    assert |multiset(Sorted(fields))| == |Sorted(fields)| && |multiset(fields)| == |fields|;
  }

  // ---- the encoding ----

  function Bytes(t: Text): (b: seq<byte>)
    ensures |b| == |t|
  {
    seq(|t|, i requires 0 <= i < |t| => t[i] as int)
  }

  function Count(n: nat): (b: seq<byte>)
    requires n < 0x1_0000_0000
    ensures |b| == 4
  {
    [n / 0x100_0000, n / 0x1_0000 % 0x100, n / 0x100 % 0x100, n % 0x100]
  }

  function EncodedText(t: Text): seq<byte> { Count(|t|) + Bytes(t) }

  const OBJECT_MARK: byte := 79
  const TEXT_MARK: byte := 83
  const DOMAIN: seq<byte> := Bytes("lnwjud-update-release") + Bytes("-identity-v1") + [0]

  /** The bytes of an object, or `None` where the source refuses. */
  function Encoded(schema: Schema, name: string, v: Value): Option<seq<byte>>
    requires SchemaValid(schema)
    decreases v, 1, 0
  {
    if name !in schema || !v.Obj? then None else
    SortedIsOrdered(schema[name]);
    var body := EncodedFields(schema, Sorted(schema[name]), v);
    if body.None? then None else Some([OBJECT_MARK] + Count(|schema[name]|) + body.value)
  }

  function EncodedFields(schema: Schema, fields: Fields, v: Value): Option<seq<byte>>
    requires SchemaValid(schema) && v.Obj?
    decreases v, 0, |fields|
  {
    if fields == [] then Some([])
    else if !Has(v.members, fields[0].0) then None
    else
      var item := EncodedItem(schema, fields[0].1, v.members[IndexOf(v.members, fields[0].0)].1);
      var rest := EncodedFields(schema, fields[1..], v);
      if item.None? || rest.None? then None else Some(EncodedText(fields[0].0) + item.value + rest.value)
  }

  function EncodedItem(schema: Schema, kind: Kind, v: Value): Option<seq<byte>>
    requires SchemaValid(schema)
    decreases v, 2, 0
  {
    match kind
    case ObjectField(name) => Encoded(schema, name, v)
    case TextField => if v.Str? then Some([TEXT_MARK] + EncodedText(v.text)) else None
    case Plain => None
  }
}
