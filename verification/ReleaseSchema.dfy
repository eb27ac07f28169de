/** The encoder as the update worker runs it, writing to an output stream. */
module ReleaseSchema {
  import opened Common
  import opened ReleaseIdentity
  import opened ReleaseDecoding

  datatype Refusal = SchemaInvalid | SchemaUnsupported

  class MemoryStream {
    var bytes: seq<byte>

    constructor ()
      ensures bytes == []
    {
      bytes := [];
    }

    method Write(more: seq<byte>)
      modifies this
      ensures bytes == old(bytes) + more
    {
      bytes := bytes + more;
    }

    method WriteCount(n: nat)
      requires n < 0x1_0000_0000
      modifies this
      ensures bytes == old(bytes) + Count(n)
    {
      Write([n / 0x100_0000, n / 0x1_0000 % 0x100, n / 0x100 % 0x100, n % 0x100]);
    }

    method WriteText(t: Text)
      modifies this
      ensures bytes == old(bytes) + EncodedText(t)
    {
      WriteCount(|t|);
      Associate(old(bytes), Count(|t|), Bytes(t));
      Write(Bytes(t));
    }
  }

  /** What the fields still to come add to the bytes already written for the earlier ones. */
  ghost predicate SoFar(all: Option<seq<byte>>, written: seq<byte>, rest: Option<seq<byte>>) {
    if rest.None? then all.None? else all == Some(written + rest.value)
  }

  lemma NextField(schema: Schema, fields: Fields, i: nat, v: Value, all: Option<seq<byte>>, written: seq<byte>)
    requires SchemaValid(schema) && v.Obj? && i < |fields| && SoFar(all, written, EncodedFields(schema, fields[i..], v))
    ensures !Has(v.members, fields[i].0) ==> all.None?
    ensures Has(v.members, fields[i].0) ==>
              var item := EncodedItem(schema, fields[i].1, Get(v.members, fields[i].0));
              if item.None? then all.None?
              else SoFar(all, written + (EncodedText(fields[i].0) + item.value), EncodedFields(schema, fields[i + 1..], v))
  {
    hide EncodedItem, EncodedText, SchemaValid;
    assert fields[i..][1..] == fields[i + 1..];
    var rest := EncodedFields(schema, fields[i + 1..], v);
    if Has(v.members, fields[i].0) && rest.Some? {
      var item := EncodedItem(schema, fields[i].1, Get(v.members, fields[i].0));
      if item.Some? { Associate(written, EncodedText(fields[i].0) + item.value, rest.value); }
    }
  }

  /** Writes the object, or stops where it is refused. */
  method EncodeObject(output: MemoryStream, schema: Schema, name: string, v: Value) returns (ok: bool)
    requires SchemaValid(schema)
    modifies output
    ensures ok <==> Encoded(schema, name, v).Some?
    ensures ok ==> output.bytes == old(output.bytes) + Encoded(schema, name, v).value
    decreases v, 1
  {
    if name !in schema || !v.Obj? { return false; }
    var fields := Sorted(schema[name]);
    SortedIsOrdered(schema[name]);
    ghost var all := EncodedFields(schema, fields, v);
    ghost var head := [OBJECT_MARK] + Count(|fields|);
    hide Encoded, EncodedFields, EncodedItem, EncodedText, Sorted, Count, SchemaValid, InOrder;
    EncodedIs(schema, name, v);
    output.Write([OBJECT_MARK]);
    output.WriteCount(|fields|);
    Associate(old(output.bytes), [OBJECT_MARK], Count(|fields|));
    ghost var start := output.bytes;
    ghost var written: seq<byte> := [];
    NothingWritten(schema, fields, v);
    for i := 0 to |fields|
      invariant output.bytes == start + written
      invariant SoFar(all, written, EncodedFields(schema, fields[i..], v))
    {
      NextField(schema, fields, i, v, all, written);
      if !Has(v.members, fields[i].0) { return false; }
      var item := v.members[IndexOf(v.members, fields[i].0)].1;
      output.WriteText(fields[i].0);
      ok := EncodeItem(output, schema, fields[i].1, item);
      if !ok { return; }
      ghost var bytes := EncodedItem(schema, fields[i].1, item).value;
      Associate(start + written, EncodedText(fields[i].0), bytes);
      Associate(start, written, EncodedText(fields[i].0) + bytes);
      written := written + (EncodedText(fields[i].0) + bytes);
    }
    AllWritten(schema, fields, v, all, written);
    Associate(old(output.bytes), head, written);
    return true;
  }

  lemma EncodedIs(schema: Schema, name: string, v: Value)
    requires SchemaValid(schema) && name in schema && v.Obj? && |Sorted(schema[name])| < 0x1_0000_0000
    ensures var all := EncodedFields(schema, Sorted(schema[name]), v);
            Encoded(schema, name, v) == if all.None? then None else Some([OBJECT_MARK] + Count(|Sorted(schema[name])|) + all.value)
  {
    SortedIsOrdered(schema[name]);
  }

  lemma NothingWritten(schema: Schema, fields: Fields, v: Value)
    requires SchemaValid(schema) && v.Obj?
    ensures SoFar(EncodedFields(schema, fields, v), [], EncodedFields(schema, fields[0..], v))
  {
    assert fields[0..] == fields;
    if EncodedFields(schema, fields, v).Some? {
      assert [] + EncodedFields(schema, fields, v).value == EncodedFields(schema, fields, v).value;
    }
  }

  lemma AllWritten(schema: Schema, fields: Fields, v: Value, all: Option<seq<byte>>, written: seq<byte>)
    requires SchemaValid(schema) && v.Obj? && SoFar(all, written, EncodedFields(schema, fields[|fields|..], v))
    ensures all == Some(written)
  {
    assert fields[|fields|..] == [];
    assert written + [] == written;
  }

  method EncodeItem(output: MemoryStream, schema: Schema, kind: Kind, v: Value) returns (ok: bool)
    requires SchemaValid(schema)
    modifies output
    ensures ok <==> EncodedItem(schema, kind, v).Some?
    ensures ok ==> output.bytes == old(output.bytes) + EncodedItem(schema, kind, v).value
    decreases v, 2
  {
    if kind.ObjectField? {
      ok := EncodeObject(output, schema, kind.name, v);
    } else if kind.TextField? && v.Str? {
      output.Write([TEXT_MARK]);
      output.WriteText(v.text);
      Associate(old(output.bytes), [TEXT_MARK], EncodedText(v.text));
      ok := true;
    } else {
      ok := false;
    }
  }

  /** Validates the release, then encodes it behind a fixed label; refused when it does not fit or holds an integer. */
  method EncodeReleaseIdentity(schema: Schema, release: Value) returns (r: Result<seq<byte>, Refusal>)
    requires SchemaValid(schema)
    ensures r.Ok? <==> Fits(schema, "release", release) && !HasNumber(release)
    ensures r.Ok? ==> Encoded(schema, "release", release).Some? && r.value == DOMAIN + Encoded(schema, "release", release).value
    ensures r == Refused(SchemaInvalid) <==> !Fits(schema, "release", release)
  {
    hide Fits, HasNumber, Encoded, SchemaValid;
    if !Fits(schema, "release", release) { return Refused(SchemaInvalid); }
    EncodesExactlyWithoutNumbers(schema, "release", release);
    var output := new MemoryStream();
    output.Write(DOMAIN);
    assert output.bytes == DOMAIN;
    var ok := EncodeObject(output, schema, "release", release);
    if !ok { return Refused(SchemaUnsupported); }
    return Ok(output.bytes);
  }
}
