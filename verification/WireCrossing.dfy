/** From one worker to the other: what Go's Reader gets out of a frame that the FrameWriter wrote. */
module WireCrossing {
  import opened Wrappers
  import opened Wire
  import opened WireGo
  import opened WireReading
  import opened WireTs
  import QueryStream

  predicate SameFields(gs: seq<Field>, fs: seq<Field>) {
    |gs| == |fs| && forall i :: 0 <= i < |fs| ==> SameField(gs[i], fs[i])
  }

  /** The frame is read as this header and these fields, a NaN being a NaN, to its last byte. */
  predicate ReadAs(frame: seq<Byte>, op: nat, flags: nat, id: nat, fs: seq<Field>) {
    match ReadHeader(frame)
    case None => false
    case Some((h, start)) =>
      && h == Header(VERSION, op, flags, id) && Within(start)
      && var (gs, end) := GetAll(Kinds(fs), start);
         SameFields(gs, fs) && end == In(frame, |frame|, None)
  }

  lemma JsFieldsAre(fs: seq<Field>)
    ensures SameFields(JsFields(fs), fs) && Kinds(JsFields(fs)) == Kinds(fs)
    ensures AllEncodable(fs) ==> AllEncodable(JsFields(fs))
  {
    forall i | 0 <= i < |fs|
      ensures SameField(JsFields(fs)[i], fs[i]) && KindOf(JsFields(fs)[i]) == KindOf(fs[i])
      ensures Encodable(fs[i]) ==> Encodable(JsFields(fs)[i])
    {
      JsFieldIsSame(fs[i]);
    }
    hide JsField, KindOf, Encodable, SameField;
  }

  /** What JavaScript writes for any fields, Go reads as those fields. */
  lemma FrameCrosses(op: nat, flags: nat, id: nat, fs: seq<Field>)
    requires op < 0x100 && flags < 0x1_0000 && id < ID_LIMIT && AllEncodable(fs)
    ensures ReadAs(HeaderBytes(op, flags, id) + Encode(JsFields(fs)), op, flags, id, fs)
  {
    hide HeaderBytes, Encode, ReadHeader, AllEncodable, GetAll, Kinds, SameFields, JsFields;
    JsFieldsAre(fs);
    FrameReadsBack(op, flags, id, JsFields(fs));
  }

  /** A field script from the FrameWriter to Go. */
  method SendItems(op: nat, flags: nat, id: nat, items: seq<Item>) returns (frame: seq<Byte>)
    requires op < 0x100 && flags < 0x1_0000 && id < ID_LIMIT && AllEncodable(FieldsOf(items))
    ensures ReadAs(frame, op, flags, id, FieldsOf(items))
  {
    hide HeaderBytes, Encode, ReadAs, AllEncodable, FieldOf, JsField;
    var go;
    frame, go := WriteBoth(op, flags, id, items);
    FrameCrosses(op, flags, id, FieldsOf(items));
  }

  lemma JsFieldsParts(a: seq<Field>, u: nat, b: seq<Field>)
    ensures JsFields(a) + [U32(u)] + JsFields(b) == JsFields(a + [U32(u)] + b)
  {}

  /** A batch of rows, whose count and flags were written last, from the FrameWriter to Go. */
  method SendRows(id: nat, columns: seq<Item>, values: seq<Value>, rows: nat, flags: nat)
    returns (frame: seq<Byte>)
    requires flags < 0x1_0000 && id < ID_LIMIT
    requires AllEncodable(FieldsOf(columns) + [U32(rows)] + ValueFieldsOf(values))
    ensures ReadAs(frame, ROWS, flags, id, FieldsOf(columns) + [U32(rows)] + ValueFieldsOf(values))
  {
    hide HeaderBytes, Encode, ReadAs, AllEncodable, FieldOf, JsField, FieldsOf, ValueFieldsOf, JsFields;
    frame := RowsFrame(id, columns, values, rows, flags);
    JsFieldsParts(FieldsOf(columns), rows, ValueFieldsOf(values));
    FrameCrosses(ROWS, flags, id, FieldsOf(columns) + [U32(rows)] + ValueFieldsOf(values));
  }

  // ---- The length that cuts a batch --------------------------------------------------------

  function Flat(rows: seq<seq<Field>>): seq<Field> {
    if rows == [] then [] else Flat(rows[..|rows| - 1]) + rows[|rows| - 1]
  }

  /** The rows as QueryStream has them: their bytes. */
  function RowBytes(rows: seq<seq<Field>>): seq<QueryStream.Row> {
    seq(|rows|, i requires 0 <= i < |rows| => Encode(rows[i]))
  }

  lemma {:induction false} FlatLength(rows: seq<seq<Field>>)
    ensures |Encode(Flat(rows))| == QueryStream.Bytes(RowBytes(rows))
  {
    if rows != [] {
      var n := |rows| - 1;
      FlatLength(rows[..n]);
      EncodeAppend(Flat(rows[..n]), rows[n]);
      assert RowBytes(rows)[..n] == RowBytes(rows[..n]);
    }
    hide Encode;
  }

  /** The length that runQuery compares with its limit is that of the frame: a header, the columns if it
      is the first batch, the count and the rows. */
  lemma BatchIsFrame(op: nat, flags: nat, id: nat, columns: seq<Field>, rows: seq<seq<Field>>, first: bool)
    ensures var head := if first then columns else [];
            |HeaderBytes(op, flags, id) + Encode(head + [U32(|rows|)] + Flat(rows))| ==
              QueryStream.BatchLength(QueryStream.Script(|Encode(columns)|, [], QueryStream.EndDone), first,
                                      RowBytes(rows))
  {
    var head := if first then columns else [];
    HeaderLength(op, flags, id);
    FlatLength(rows);
    EncodeAround(head, U32(|rows|), Flat(rows));
    assert |FieldBytes(U32(|rows|))| == 4;
    assert !first ==> Encode(head) == [];
    hide Encode, HeaderBytes, FieldBytes, QueryStream.Bytes, Flat, RowBytes;
  }
}
