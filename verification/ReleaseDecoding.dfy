/** A decoder for release identities, and what it proves of the encoding. */
module ReleaseDecoding {
  import opened Common
  import opened ReleaseIdentity

  // ---- the decoder ----

  function ReadCount(b: seq<byte>): (r: Option<(nat, seq<byte>)>)
    ensures r.Some? ==> |r.value.1| == |b| - 4
  {
    if |b| < 4 then None else Some((b[0] as int * 0x100_0000 + b[1] as int * 0x1_0000 + b[2] as int * 0x100 + b[3] as int, b[4..]))
  }

  function Characters(b: seq<byte>): (t: string)
    ensures |t| == |b|
  {
    seq(|b|, i requires 0 <= i < |b| => b[i] as char)
  }

  function ReadText(b: seq<byte>): (r: Option<(Text, seq<byte>)>)
    ensures r.Some? ==> |r.value.1| < |b|
  {
    var count := ReadCount(b);
    if count.None? || |count.value.1| < count.value.0 then None else
    var t := Characters(count.value.1[..count.value.0]);
    if Printable(t) then Some((t, count.value.1[count.value.0..])) else None
  }

  function Decoded(schema: Schema, name: string, b: seq<byte>): (r: Option<(Value, seq<byte>)>)
    ensures r.Some? ==> |r.value.1| < |b|
    decreases |b|, 1, 0
  {
    if name !in schema || b == [] || b[0] != OBJECT_MARK then None else
    var count := ReadCount(b[1..]);
    if count.None? || count.value.0 != |schema[name]| then None else
    var members := DecodedFields(schema, Sorted(schema[name]), count.value.1);
    if members.None? then None else Some((Obj(members.value.0), members.value.1))
  }

  function DecodedFields(schema: Schema, fields: Fields, b: seq<byte>): (r: Option<(seq<(Text, Value)>, seq<byte>)>)
    ensures r.Some? ==> |r.value.1| <= |b|
    decreases |b|, 0, |fields|
  {
    if fields == [] then Some(([], b)) else
    var name := ReadText(b);
    if name.None? || name.value.0 != fields[0].0 then None else
    var item := DecodedItem(schema, fields[0].1, name.value.1);
    if item.None? then None else
    var rest := DecodedFields(schema, fields[1..], item.value.1);
    if rest.None? then None else Some(([(fields[0].0, item.value.0)] + rest.value.0, rest.value.1))
  }

  function DecodedItem(schema: Schema, kind: Kind, b: seq<byte>): (r: Option<(Value, seq<byte>)>)
    ensures r.Some? ==> |r.value.1| < |b|
    decreases |b|, 2, 0
  {
    match kind
    case ObjectField(name) => Decoded(schema, name, b)
    case TextField =>
      if b == [] || b[0] != TEXT_MARK then None else
      var text := ReadText(b[1..]);
      if text.None? then None else Some((Str(text.value.0), text.value.1))
    case Plain => None
  }

  // ---- the same release with its fields in order ----

  function Canonical(schema: Schema, name: string, v: Value): Value
    decreases v, 1, 0
  {
    if name in schema && v.Obj? then Obj(CanonicalFields(schema, Sorted(schema[name]), v)) else v
  }

  function CanonicalFields(schema: Schema, fields: Fields, v: Value): seq<(Text, Value)>
    requires v.Obj?
    decreases v, 0, |fields|
  {
    if fields == [] then []
    else if !Has(v.members, fields[0].0) then CanonicalFields(schema, fields[1..], v)
    else
      [(fields[0].0, CanonicalItem(schema, fields[0].1, v.members[IndexOf(v.members, fields[0].0)].1))]
      + CanonicalFields(schema, fields[1..], v)
  }

  function CanonicalItem(schema: Schema, kind: Kind, v: Value): Value
    decreases v, 2, 0
  {
    if kind.ObjectField? then Canonical(schema, kind.name, v) else v
  }

  // ---- decoding inverts encoding ----

  lemma Recombine(n: nat)
    ensures n / 0x100_0000 * 0x100_0000 + n / 0x1_0000 % 0x100 * 0x1_0000 + n / 0x100 % 0x100 * 0x100 + n % 0x100 == n
  {
    var a, b, c := n / 0x100, n / 0x1_0000, n / 0x100_0000;
    assert a / 0x100 == b && b / 0x100 == c;
  }

  lemma ReadsCount(n: nat, rest: seq<byte>)
    requires n < 0x1_0000_0000
    ensures ReadCount(Count(n) + rest) == Some((n, rest))
  {
    Recombine(n);
    var b := Count(n) + rest;
    assert b[4..] == rest;
    assert b[0] == n / 0x100_0000 && b[1] == n / 0x1_0000 % 0x100 && b[2] == n / 0x100 % 0x100 && b[3] == n % 0x100;
  }

  lemma ReadsText(t: Text, rest: seq<byte>)
    ensures ReadText(EncodedText(t) + rest) == Some((t, rest))
  {
    Associate(Count(|t|), Bytes(t), rest);
    ReadsCount(|t|, Bytes(t) + rest);
    var after := Bytes(t) + rest;
    assert after[..|t|] == Bytes(t) && after[|t|..] == rest;
    assert Characters(Bytes(t)) == t;
  }

  /** Whatever follows it, an encoded object decodes to the same release with its fields in order. */
  lemma {:induction false} DecodingInverts(schema: Schema, name: string, v: Value, rest: seq<byte>)
    requires SchemaValid(schema) && Encoded(schema, name, v).Some?
    ensures Decoded(schema, name, Encoded(schema, name, v).value + rest) == Some((Canonical(schema, name, v), rest))
    decreases v, 1, 0
  {
    SortedIsOrdered(schema[name]);
    var fields := Sorted(schema[name]);
    var body := EncodedFields(schema, fields, v).value;
    FieldsInvert(schema, fields, v, rest);
    hide EncodedFields, DecodedFields, CanonicalFields, Sorted;
    var head := [OBJECT_MARK] + Count(|schema[name]|);
    var b := head + body + rest;
    Associate(head, body, rest);
    Associate([OBJECT_MARK], Count(|schema[name]|), body + rest);
    assert b == [OBJECT_MARK] + (Count(|schema[name]|) + (body + rest));
    assert b[1..] == Count(|schema[name]|) + (body + rest);
    ReadsCount(|schema[name]|, body + rest);
  }

  lemma {:induction false} FieldsInvert(schema: Schema, fields: Fields, v: Value, rest: seq<byte>)
    requires SchemaValid(schema) && v.Obj? && EncodedFields(schema, fields, v).Some?
    ensures DecodedFields(schema, fields, EncodedFields(schema, fields, v).value + rest)
            == Some((CanonicalFields(schema, fields, v), rest))
    decreases v, 0, |fields|
  {
    if fields == [] {
      assert [] + rest == rest;
    } else {
      var f := fields[0];
      var v0 := v.members[IndexOf(v.members, f.0)].1;
      var item, more := EncodedItem(schema, f.1, v0).value, EncodedFields(schema, fields[1..], v).value;
      ItemInverts(schema, f.1, v0, more + rest);
      FieldsInvert(schema, fields[1..], v, rest);
      hide EncodedItem, DecodedItem, CanonicalItem, SchemaValid, EncodedText;
      ReadsText(f.0, item + (more + rest));
      Associate(EncodedText(f.0) + item, more, rest);
      Associate(EncodedText(f.0), item, more + rest);
    }
  }

  lemma {:induction false} ItemInverts(schema: Schema, kind: Kind, v: Value, rest: seq<byte>)
    requires SchemaValid(schema) && EncodedItem(schema, kind, v).Some?
    ensures DecodedItem(schema, kind, EncodedItem(schema, kind, v).value + rest) == Some((CanonicalItem(schema, kind, v), rest))
    decreases v, 2, 0
  {
    if kind.ObjectField? {
      DecodingInverts(schema, kind.name, v, rest);
    } else {
      var b := EncodedItem(schema, kind, v).value + rest;
      assert b[1..] == EncodedText(v.text) + rest;
      ReadsText(v.text, rest);
    }
  }

  /** No encoding is a proper prefix of another: the bytes end where the release ends. */
  lemma PrefixFree(schema: Schema, name: string, v: Value, w: Value)
    requires SchemaValid(schema) && Encoded(schema, name, v).Some? && Encoded(schema, name, w).Some?
    requires Encoded(schema, name, v).value <= Encoded(schema, name, w).value
    ensures Encoded(schema, name, v) == Encoded(schema, name, w) && Canonical(schema, name, v) == Canonical(schema, name, w)
  {
    hide Encoded, Decoded, Canonical, SchemaValid;
    var a, b := Encoded(schema, name, v).value, Encoded(schema, name, w).value;
    var rest := b[|a|..];
    assert a + rest == b && b + [] == b;
    DecodingInverts(schema, name, v, rest);
    DecodingInverts(schema, name, w, []);
  }

  // ---- the order of the fields does not matter, and nothing else is lost ----

  /** The two values differ only in the order of their members, at any depth. */
  predicate Reordered(v: Value, w: Value) {
    if !v.Obj? then v == w
    else
      && w.Obj? && |v.members| == |w.members|
      && (forall i :: 0 <= i < |v.members| ==>
            Has(w.members, v.members[i].0) && Reordered(v.members[i].1, Get(w.members, v.members[i].0)))
      && (forall i :: 0 <= i < |w.members| ==> Has(v.members, w.members[i].0))
  }

  /** What validation requires: exactly the schema's fields, each of its kind. */
  predicate Fits(schema: Schema, name: string, v: Value)
    decreases v, 1
  {
    && name in schema && v.Obj? && |v.members| == |schema[name]| && DistinctNames(v.members)
    && forall i :: 0 <= i < |v.members| ==>
         Has(schema[name], v.members[i].0) && FitsKind(schema, Get(schema[name], v.members[i].0), v.members[i].1)
  }

  predicate FitsKind(schema: Schema, kind: Kind, v: Value)
    decreases v, 2
  {
    match kind
    case ObjectField(name) => Fits(schema, name, v)
    case TextField => v.Str?
    case Plain => v.Num?
  }

  lemma ReorderedMember(v: Value, w: Value, name: Text)
    requires v.Obj? && Reordered(v, w) && DistinctNames(v.members) && DistinctNames(w.members)
    ensures Has(v.members, name) <==> Has(w.members, name)
    ensures Has(v.members, name) ==> Reordered(Get(v.members, name), Get(w.members, name))
  {
    if Has(v.members, name) {
      var i := IndexOf(v.members, name);
      assert v.members[i].0 == name;
    }
    if Has(w.members, name) {
      var i := IndexOf(w.members, name);
      assert w.members[i].0 == name;
    }
  }

  /** The bytes do not depend on the order in which the release lists its fields. */
  lemma {:induction false} OrderDoesNotMatter(schema: Schema, name: string, v: Value, w: Value)
    requires SchemaValid(schema) && Fits(schema, name, v) && Fits(schema, name, w) && Reordered(v, w)
    ensures Encoded(schema, name, v) == Encoded(schema, name, w)
    decreases v, 1, 0
  {
    SortedIsOrdered(schema[name]);
    SortedGets(schema[name]);
    FieldsOrderDoesNotMatter(schema, name, Sorted(schema[name]), v, w);
  }

  /** The listed fields all belong to the object of that name. */
  predicate FieldsOf(schema: Schema, name: string, fields: Fields) {
    name in schema && forall i :: 0 <= i < |fields| ==> Has(schema[name], fields[i].0) && Get(schema[name], fields[i].0) == fields[i].1
  }

  lemma SortedGets(fields: Fields)
    requires DistinctNames(fields)
    ensures forall i :: 0 <= i < |Sorted(fields)| ==> Has(fields, Sorted(fields)[i].0) && Get(fields, Sorted(fields)[i].0) == Sorted(fields)[i].1
  {
    hide Sorted, InOrder;
    SortedIsOrdered(fields);
    var sorted := Sorted(fields);
    forall i | 0 <= i < |sorted|
      ensures Has(fields, sorted[i].0) && Get(fields, sorted[i].0) == sorted[i].1
    {
      assert sorted[i] in multiset(fields);
      var k :| 0 <= k < |fields| && fields[k] == sorted[i];
      GetAt(fields, k);
    }
  }

  lemma {:induction false} FieldsOrderDoesNotMatter(schema: Schema, name: string, fields: Fields, v: Value, w: Value)
    requires SchemaValid(schema) && Fits(schema, name, v) && Fits(schema, name, w) && Reordered(v, w) && FieldsOf(schema, name, fields)
    ensures EncodedFields(schema, fields, v) == EncodedFields(schema, fields, w)
    decreases v, 0, |fields|
  {
    if fields != [] {
      var f := fields[0];
      ReorderedMember(v, w, f.0);
      FieldsOrderDoesNotMatter(schema, name, fields[1..], v, w);
      if Has(v.members, f.0) {
        var i, k := IndexOf(v.members, f.0), IndexOf(w.members, f.0);
        assert v.members[i].0 == f.0 && w.members[k].0 == f.0;
        var a, b := v.members[i].1, w.members[k].1;
        if f.1.ObjectField? {
          OrderDoesNotMatter(schema, f.1.name, a, b);
        }
      }
    }
  }

  /** Releases with equal bytes agree in every nested field. */
  lemma {:induction false} EqualCanonicalIsReordered(schema: Schema, name: string, v: Value, w: Value)
    requires SchemaValid(schema) && Fits(schema, name, v) && Fits(schema, name, w)
    requires Encoded(schema, name, v).Some? && Encoded(schema, name, w).Some? && Canonical(schema, name, v) == Canonical(schema, name, w)
    ensures Reordered(v, w)
    decreases v
  {
    forall i | 0 <= i < |v.members|
      ensures Has(w.members, v.members[i].0) && Reordered(v.members[i].1, Get(w.members, v.members[i].0))
    {
      var n := v.members[i].0;
      GetAt(v.members, i);
      var f := FieldNamed(schema[name], n);
      FieldsAgree(schema, Sorted(schema[name]), v, w, f);
      var x := Get(w.members, n);
      var k := IndexOf(w.members, n);
      assert w.members[k] == (n, x);
      var kind := Get(schema[name], n);
      if kind.ObjectField? {
        EqualCanonicalIsReordered(schema, kind.name, v.members[i].1, x);
      }
    }
    forall i | 0 <= i < |w.members|
      ensures Has(v.members, w.members[i].0)
    {
      var f := FieldNamed(schema[name], w.members[i].0);
      FieldsAgree(schema, Sorted(schema[name]), v, w, f);
    }
  }

  /** The position of a named field in the sorted order. */
  lemma FieldNamed(fields: Fields, n: Text) returns (k: nat)
    requires DistinctNames(fields) && Has(fields, n)
    ensures k < |Sorted(fields)| && Sorted(fields)[k] == (n, Get(fields, n))
  {
    hide Sorted, InOrder;
    SortedIsOrdered(fields);
    var i := IndexOf(fields, n);
    assert fields[i] in multiset(fields);
    assert fields[i] in multiset(Sorted(fields));
    k :| 0 <= k < |Sorted(fields)| && Sorted(fields)[k] == fields[i];
  }

  lemma {:induction false} FieldsAgree(schema: Schema, fields: Fields, v: Value, w: Value, k: nat)
    requires SchemaValid(schema) && v.Obj? && w.Obj? && k < |fields|
    requires EncodedFields(schema, fields, v).Some? && EncodedFields(schema, fields, w).Some?
    requires CanonicalFields(schema, fields, v) == CanonicalFields(schema, fields, w)
    ensures Has(v.members, fields[k].0) && Has(w.members, fields[k].0)
    ensures var a, b := Get(v.members, fields[k].0), Get(w.members, fields[k].0);
            && CanonicalItem(schema, fields[k].1, a) == CanonicalItem(schema, fields[k].1, b)
            && EncodedItem(schema, fields[k].1, a).Some? && EncodedItem(schema, fields[k].1, b).Some?
    decreases |fields|
  {
    hide CanonicalItem, EncodedItem, SchemaValid;
    var cv, cw := CanonicalFields(schema, fields, v), CanonicalFields(schema, fields, w);
    assert cv[0] == cw[0];
    if k > 0 {
      assert cv[1..] == CanonicalFields(schema, fields[1..], v) && cw[1..] == CanonicalFields(schema, fields[1..], w);
      FieldsAgree(schema, fields[1..], v, w, k - 1);
    }
  }

  /** Two valid releases have the same bytes exactly when they differ only in the order of their fields. */
  lemma EqualBytesExactlyWhenReordered(schema: Schema, name: string, v: Value, w: Value)
    requires SchemaValid(schema) && Fits(schema, name, v) && Fits(schema, name, w)
    requires Encoded(schema, name, v).Some? && Encoded(schema, name, w).Some?
    ensures Encoded(schema, name, v) == Encoded(schema, name, w) <==> Reordered(v, w)
  {
    hide Encoded, Fits, Reordered, SchemaValid, Canonical;
    if Encoded(schema, name, v) == Encoded(schema, name, w) {
      PrefixFree(schema, name, v, w);
      EqualCanonicalIsReordered(schema, name, v, w);
    }
    if Reordered(v, w) {
      OrderDoesNotMatter(schema, name, v, w);
    }
  }

  // ---- which valid releases encode ----

  /** Somewhere inside is an integer, which has no encoding. */
  predicate HasNumber(v: Value) {
    v.Num? || (v.Obj? && exists i :: 0 <= i < |v.members| && HasNumber(v.members[i].1))
  }

  ghost function Names<V>(members: seq<(Text, V)>): set<string> { set i | 0 <= i < |members| :: members[i].0 }

  lemma {:induction false} CountNames<V>(members: seq<(Text, V)>)
    requires DistinctNames(members)
    ensures |Names(members)| == |members|
  {
    if members != [] {
      var front, last := members[..|members| - 1], members[|members| - 1].0;
      CountNames(front);
      assert Names(members) == Names(front) + {last};
      assert last !in Names(front);
    }
  }

  /** As many distinct names as the schema has, all among its names, are all of its names. */
  lemma EveryFieldPresent<V, W>(members: seq<(Text, V)>, fields: seq<(Text, W)>, k: nat)
    requires DistinctNames(members) && DistinctNames(fields) && |members| == |fields| && k < |fields|
    requires forall i :: 0 <= i < |members| ==> Has(fields, members[i].0)
    ensures Has(members, fields[k].0)
  {
    CountNames(members);
    CountNames(fields);
    assert Names(members) <= Names(fields) by {
      forall i | 0 <= i < |members| ensures members[i].0 in Names(fields) {
        assert fields[IndexOf(fields, members[i].0)].0 == members[i].0;
      }
    }
    SameSet(Names(members), Names(fields));
    assert fields[k].0 in Names(fields);
    var i :| 0 <= i < |members| && members[i].0 == fields[k].0;
  }

  lemma SameSet(a: set<string>, b: set<string>)
    requires a <= b && |a| == |b|
    ensures a == b
  {
    assert b == a + (b - a);
    assert |b - a| == 0;
  }

  /** A valid release is encoded exactly when it holds no integer. */
  lemma {:induction false} EncodesExactlyWithoutNumbers(schema: Schema, name: string, v: Value)
    requires SchemaValid(schema) && Fits(schema, name, v)
    ensures Encoded(schema, name, v).Some? <==> !HasNumber(v)
    decreases v, 1, 0
  {
    var fields := Sorted(schema[name]);
    SortedIsOrdered(schema[name]);
    SortedGets(schema[name]);
    FieldsEncode(schema, name, fields, v);
    forall i | 0 <= i < |v.members|
      ensures exists k :: 0 <= k < |fields| && Get(v.members, fields[k].0) == v.members[i].1
    {
      GetAt(v.members, i);
      var k := FieldNamed(schema[name], v.members[i].0);
    }
  }

  lemma {:induction false} FieldsEncode(schema: Schema, name: string, fields: Fields, v: Value)
    requires SchemaValid(schema) && Fits(schema, name, v) && FieldsOf(schema, name, fields)
    ensures forall k :: 0 <= k < |fields| ==> Has(v.members, fields[k].0)
    ensures EncodedFields(schema, fields, v).Some? <==> forall k :: 0 <= k < |fields| ==> !HasNumber(Get(v.members, fields[k].0))
    decreases v, 0, |fields|
  {
    if fields != [] {
      var f := fields[0];
      EveryFieldPresent(v.members, schema[name], IndexOf(schema[name], f.0));
      FieldsEncode(schema, name, fields[1..], v);
      var a := v.members[IndexOf(v.members, f.0)].1;
      if f.1.ObjectField? { EncodesExactlyWithoutNumbers(schema, f.1.name, a); }
      forall k | 0 < k < |fields| ensures fields[k] == fields[1..][k - 1] {}
    }
  }

  // ---- the bytes themselves ----

  const SMALL: Schema := map["release" := [("b", TextField), ("a", ObjectField("o"))], "o" := []]
  const SMALL_RELEASE: Value := Obj([("b", Str("x")), ("a", Obj([]))])

  lemma SmallFields()
    ensures Sorted(SMALL["release"]) == [("a", ObjectField("o")), ("b", TextField)]
  {
    assert AtMost("a", "b") && !AtMost("b", "a");
    var fields: Fields := SMALL["release"];
    assert fields[1..] == [("a", ObjectField("o"))] && fields[1..][1..] == [];
    assert Sorted(fields[1..]) == [("a", ObjectField("o"))];
  }

  lemma LetterBytes(t: Text)
    requires |t| == 1
    ensures EncodedText(t) == [0, 0, 0, 1, t[0] as int]
  {
    assert Count(1) == [0, 0, 0, 1];
    assert Bytes(t) == [t[0] as int];
  }

  lemma ObjectBytes(schema: Schema, name: string, v: Value, body: seq<byte>)
    requires SchemaValid(schema) && name in schema && v.Obj? && |schema[name]| < 256
    requires EncodedFields(schema, Sorted(schema[name]), v) == Some(body)
    ensures Encoded(schema, name, v) == Some([79, 0, 0, 0, |schema[name]|] + body)
  {
    hide EncodedFields, Sorted, SchemaValid;
    SortedIsOrdered(schema[name]);
    assert Count(|schema[name]|) == [0, 0, 0, |schema[name]|];
    assert [OBJECT_MARK] + Count(|schema[name]|) == [79, 0, 0, 0, |schema[name]|];
  }

  lemma SmallItems()
    ensures EncodedItem(SMALL, ObjectField("o"), Obj([])) == Some([79, 0, 0, 0, 0])
    ensures EncodedItem(SMALL, TextField, Str("x")) == Some([83, 0, 0, 0, 1, 120])
  {
    var none: Value := Obj([]);
    assert Sorted(SMALL["o"]) == [];
    assert EncodedFields(SMALL, [], none) == Some([]);
    ObjectBytes(SMALL, "o", none, []);
    var bytes: seq<byte> := [79, 0, 0, 0, 0];
    assert |SMALL["o"]| == 0 && bytes + [] == bytes;
    LetterBytes("x");
    hide Encoded, EncodedFields, EncodedText;
    assert [TEXT_MARK] + [0, 0, 0, 1, 120] == [83, 0, 0, 0, 1, 120];
  }

  lemma OneMoreField(schema: Schema, f: (Text, Kind), rest: Fields, v: Value, item: seq<byte>, more: seq<byte>)
    requires SchemaValid(schema) && v.Obj? && Has(v.members, f.0)
    requires EncodedItem(schema, f.1, Get(v.members, f.0)) == Some(item) && EncodedFields(schema, rest, v) == Some(more)
    ensures EncodedFields(schema, [f] + rest, v) == Some(EncodedText(f.0) + item + more)
  {
    hide EncodedItem, EncodedText, SchemaValid;
    assert ([f] + rest)[1..] == rest;
  }

  /**
   * A small release, byte by byte: an object is O and the count of its fields, a text S and its length, all
   * counts four bytes with the highest first, fields by name in ordinal order.
   */
  lemma SmallReleaseBytes()
    ensures SchemaValid(SMALL) && Fits(SMALL, "release", SMALL_RELEASE)
    ensures Encoded(SMALL, "release", SMALL_RELEASE)
            == Some([79, 0, 0, 0, 2] + ([0, 0, 0, 1, 97] + [79, 0, 0, 0, 0] + ([0, 0, 0, 1, 98] + [83, 0, 0, 0, 1, 120])))
  {
    SmallFields();
    SmallItems();
    SmallMembers();
    LetterBytes("a");
    LetterBytes("b");
    var a, b: (Text, Kind) := ("a", ObjectField("o")), ("b", TextField);
    var v := SMALL_RELEASE;
    hide EncodedText, Sorted, Encoded, EncodedItem, IndexOf;
    var tail: seq<byte> := [0, 0, 0, 1, 98] + [83, 0, 0, 0, 1, 120];
    assert EncodedFields(SMALL, [], v) == Some([]);
    hide EncodedFields;
    OneMoreField(SMALL, b, [], v, [83, 0, 0, 0, 1, 120], []);
    assert [b] + [] == [b] && tail + [] == tail;
    OneMoreField(SMALL, a, [b], v, [79, 0, 0, 0, 0], tail);
    assert [a] + [b] == [a, b];
    ObjectBytes(SMALL, "release", v, [0, 0, 0, 1, 97] + [79, 0, 0, 0, 0] + tail);
  }

  lemma SmallMembers()
    ensures var m := SMALL_RELEASE.members;
            Has(m, "a") && Has(m, "b") && Get(m, "a") == Obj([]) && Get(m, "b") == Str("x")
    ensures SchemaValid(SMALL) && Fits(SMALL, "release", SMALL_RELEASE)
  {
    hide IndexOf;
    var m, fields := SMALL_RELEASE.members, SMALL["release"];
    GetAt(m, 0);
    GetAt(m, 1);
    GetAt(fields, 0);
    GetAt(fields, 1);
  }

  /** The label in front of every identity: 33 characters and a zero byte. */
  lemma LabelBytes()
    ensures |DOMAIN| == 34 && DOMAIN[33] == 0 && DOMAIN[..22] == Bytes("lnwjud-update-release") + [45]
            && DOMAIN[22..33] == Bytes("identity-v1")
  {
    hide Bytes;
    LabelTail();
    assert DOMAIN == Bytes("lnwjud-update-release") + Bytes("-identity-v1") + [0];
    assert DOMAIN[33] == 0;
  }

  lemma LabelTail()
    ensures Bytes("-identity-v1") == [45] + Bytes("identity-v1")
  {
  }
}
