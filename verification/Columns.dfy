/** The block of columns at the head of a stream: writeColumnList in src/worker/index.ts and
    readColumns in binding/db.go. */
module Columns {
  import opened Wrappers
  import opened Wire
  import opened WireReading
  import WireGo

  /** A column's name, and its declared type unless it is an expression. */
  datatype Column = Column(name: seq<Byte>, decl: Option<seq<Byte>>)

  function ListFields(cs: seq<Column>): seq<Field> {
    if cs == [] then [] else [Bytes(cs[0].name), NullString(cs[0].decl)] + ListFields(cs[1..])
  }

  function BlockFields(cs: seq<Column>): seq<Field> { [U32(|cs|)] + ListFields(cs) }

  /** Two lengths with nothing behind them. */
  const MIN_COLUMN_BYTES := 8

  /** The loop: the columns read, or none once there is an error. */
  function ReadList(n: nat, r: In): (seq<Column>, In)
    requires Within(r)
  {
    if n == 0 then ([], r)
    else
      var (name, t) := GetBytes(r);
      var (decl, u) := GetNullString(t);
      if u.err.Some? then ([], u)
      else
        var (cs, v) := ReadList(n - 1, u);
        (if v.err.Some? then [] else [Column(name, decl)] + cs, v)
  }

  /** readColumns: a count that the bytes left cannot hold gives no columns, and no error. */
  function ReadBlock(r: In): (seq<Column>, In)
    requires Within(r)
  {
    var (n, t) := GetUint(r, 4);
    if t.err.Some? then ([], t)
    else if n * MIN_COLUMN_BYTES > |t.b| - t.i then ([], t)
    else ReadList(n, t)
  }

  predicate Sound(c: Column) { |c.name| < ABSENT && (c.decl.Some? ==> |c.decl.value| < ABSENT) }

  predicate AllSound(cs: seq<Column>) { forall i :: 0 <= i < |cs| ==> Sound(cs[i]) }

  lemma OneColumn(c: Column, cs: seq<Column>)
    ensures Encode(ListFields([c] + cs)) ==
              FieldBytes(Bytes(c.name)) + (FieldBytes(NullString(c.decl)) + Encode(ListFields(cs)))
  {
    assert ([c] + cs)[1..] == cs;
    var rest := ListFields(cs);
    assert ListFields([c] + cs) == [Bytes(c.name)] + ([NullString(c.decl)] + rest);
    hide *;
    EncodeCons(Bytes(c.name), [NullString(c.decl)] + rest);
    EncodeCons(NullString(c.decl), rest);
  }

  lemma ColumnFields(c: Column)
    ensures FieldBytes(Bytes(c.name)) == Counted(c.name)
    ensures |FieldBytes(NullString(c.decl))| >= 4 && |FieldBytes(Bytes(c.name))| >= 4
  {
    hide LE;
  }

  /** A column is never shorter than the guard takes it to be. */
  lemma {:induction false} ListIsLong(cs: seq<Column>)
    ensures |Encode(ListFields(cs))| >= |cs| * MIN_COLUMN_BYTES
    decreases |cs|
  {
    if cs != [] {
      assert cs == [cs[0]] + cs[1..];
      hide Encode, FieldBytes, ListFields;
      ListIsLong(cs[1..]);
      OneColumn(cs[0], cs[1..]);
      ColumnFields(cs[0]);
    }
  }

  lemma GetsName(r: In, name: seq<Byte>)
    requires Ahead(r, FieldBytes(Bytes(name))) && |name| < ABSENT
    ensures Within(r) && GetBytes(r) == (name, Past(r, |FieldBytes(Bytes(name))|))
  {
    GetsField(r, Bytes(name));
    hide FieldBytes, GetBytes, Ahead;
  }

  lemma GetsDecl(r: In, decl: Option<seq<Byte>>)
    requires Ahead(r, FieldBytes(NullString(decl))) && (decl.Some? ==> |decl.value| < ABSENT)
    ensures Within(r) && GetNullString(r) == (decl, Past(r, |FieldBytes(NullString(decl))|))
  {
    GetsField(r, NullString(decl));
    hide FieldBytes, GetNullString, Ahead;
  }

  lemma ReadsColumn(r: In, c: Column, rest: seq<Byte>)
    requires Ahead(r, FieldBytes(Bytes(c.name)) + (FieldBytes(NullString(c.decl)) + rest)) && Sound(c)
    ensures var t := Past(r, |FieldBytes(Bytes(c.name))|);
            var u := Past(t, |FieldBytes(NullString(c.decl))|);
            Within(r) && GetBytes(r) == (c.name, t) && Within(t) && GetNullString(t) == (c.decl, u) && Ahead(u, rest)
  {
    hide FieldBytes, GetBytes, GetNullString, Ahead;
    AheadSplit(r, FieldBytes(Bytes(c.name)), FieldBytes(NullString(c.decl)) + rest);
    var t := Past(r, |FieldBytes(Bytes(c.name))|);
    AheadSplit(t, FieldBytes(NullString(c.decl)), rest);
    GetsName(r, c.name);
    GetsDecl(t, c.decl);
  }

  lemma {:induction false} ReadsList(r: In, cs: seq<Column>)
    requires Ahead(r, Encode(ListFields(cs))) && AllSound(cs)
    ensures Within(r) && ReadList(|cs|, r) == (cs, Past(r, |Encode(ListFields(cs))|))
    decreases |cs|
  {
    hide Encode, FieldBytes, GetBytes, GetNullString, ListFields;
    if cs == [] {
      assert Encode(ListFields([])) == [] by { EmptyList(); }
    } else {
      var c, rest := cs[0], cs[1..];
      assert cs == [c] + rest;
      OneColumn(c, rest);
      ReadsColumn(r, c, Encode(ListFields(rest)));
      ReadsList(Past(Past(r, |FieldBytes(Bytes(c.name))|), |FieldBytes(NullString(c.decl))|), rest);
    }
  }

  lemma EmptyList()
    ensures Encode(ListFields([])) == []
  {}

  lemma BlockBytes(cs: seq<Column>)
    ensures Encode(BlockFields(cs)) == LE(|cs|, 4) + Encode(ListFields(cs))
  {
    EncodeCons(U32(|cs|), ListFields(cs));
    hide LE, Encode;
  }

  /** A columns block is read back whole: the guard on its count never refuses one. */
  lemma BlockReadsBack(r: In, cs: seq<Column>)
    requires Ahead(r, Encode(BlockFields(cs))) && AllSound(cs) && |cs| < 0x1_0000_0000
    ensures Within(r) && ReadBlock(r) == (cs, Past(r, |Encode(BlockFields(cs))|))
  {
    BlockBytes(cs);
    ListIsLong(cs);
    Pow256Is();
    hide LE, Encode, BlockFields, ListFields, GetUint, ReadList, Pow256;
    AheadSplit(r, LE(|cs|, 4), Encode(ListFields(cs)));
    GetsNat(r, |cs|, 4);
    ReadsList(Past(r, 4), cs);
  }

  // ---- Truncation ------------------------------------------------------------------------

  lemma CutName(r: In, name: seq<Byte>)
    requires Cut(r, FieldBytes(Bytes(name))) && |name| < ABSENT
    ensures Within(r) && Within(GetBytes(r).1) && GetBytes(r).1.err == Some(Short)
  {
    CutField(r, Bytes(name));
    hide FieldBytes, GetBytes, Cut;
  }

  lemma CutDecl(r: In, decl: Option<seq<Byte>>)
    requires Cut(r, FieldBytes(NullString(decl))) && (decl.Some? ==> |decl.value| < ABSENT)
    ensures Within(r) && GetNullString(r).1.err == Some(Short)
  {
    CutField(r, NullString(decl));
    hide FieldBytes, GetNullString, Cut;
  }

  lemma {:induction false} CutList(r: In, cs: seq<Column>)
    requires Cut(r, Encode(ListFields(cs))) && AllSound(cs)
    ensures Within(r) && ReadList(|cs|, r).0 == [] && ReadList(|cs|, r).1.err == Some(Short)
    decreases |cs|
  {
    hide Encode, FieldBytes, GetBytes, GetNullString, ListFields;
    if cs == [] {
      EmptyList();
    } else {
      var c, rest := cs[0], cs[1..];
      var name, decl := FieldBytes(Bytes(c.name)), FieldBytes(NullString(c.decl));
      assert cs == [c] + rest;
      OneColumn(c, rest);
      CutSplit(r, name, decl + Encode(ListFields(rest)));
      if Cut(r, name) {
        CutName(r, c.name);
        StaysFailed(GetBytes(r).1);
      } else {
        var t := Past(r, |name|);
        CutSplit(t, decl, Encode(ListFields(rest)));
        GetsName(r, c.name);
        if Cut(t, decl) {
          CutDecl(t, c.decl);
        } else {
          GetsDecl(t, c.decl);
          CutList(Past(t, |decl|), rest);
        }
      }
    }
  }

  lemma StaysFailed(t: In)
    requires Within(t) && t.err.Some?
    ensures GetNullString(t) == (None, t)
  {}

  /** A columns block that is cut off gives no columns; and the error is recorded exactly when the
      guard on the count did not stop the read first, for then the reader goes on without one. */
  lemma CutBlock(r: In, cs: seq<Column>)
    requires Cut(r, Encode(BlockFields(cs))) && AllSound(cs) && |cs| < 0x1_0000_0000
    ensures Within(r) && ReadBlock(r).0 == []
    ensures var left := |r.b| - r.i;
            ReadBlock(r).1.err == if left < 4 || left >= 4 + |cs| * MIN_COLUMN_BYTES then Some(Short) else None
  {
    BlockBytes(cs);
    Pow256Is();
    hide LE, Encode, BlockFields, ListFields, GetUint, ReadList, Pow256;
    CutSplit(r, LE(|cs|, 4), Encode(ListFields(cs)));
    if Ahead(r, LE(|cs|, 4)) && Cut(Past(r, 4), Encode(ListFields(cs))) {
      GetsNat(r, |cs|, 4);
      CutList(Past(r, 4), cs);
    } else {
      assert |r.b| - r.i < 4;
      ShortCount(r);
    }
  }

  lemma ShortCount(r: In)
    requires Within(r) && r.err.None? && |r.b| - r.i < 4
    ensures GetUint(r, 4) == (0, r.(err := Some(Short)))
  {}

  /** The columns so far, and those to come unless there is an error. */
  function Onto(done: seq<Column>, w: (seq<Column>, In)): (seq<Column>, In) {
    (if w.1.err.Some? then [] else done + w.0, w.1)
  }

  lemma ListOn(done: seq<Column>, n: nat, r: In)
    requires Within(r) && r.err.None?
    ensures n == 0 ==> Onto(done, ReadList(n, r)) == (done, r)
    ensures n > 0 ==>
              var (name, t) := GetBytes(r);
              Within(t) &&
              var (decl, u) := GetNullString(t);
              Within(u) &&
              Onto(done, ReadList(n, r)) ==
                if u.err.Some? then ([], u) else Onto(done + [Column(name, decl)], ReadList(n - 1, u))
  {
    if n == 0 {
      assert done + [] == done;
    } else {
      var (name, t) := GetBytes(r);
      var (decl, u) := GetNullString(t);
      hide GetBytes, GetNullString;
      if u.err.None? {
        var cs := ReadList(n - 1, u).0;
        assert done + ([Column(name, decl)] + cs) == done + [Column(name, decl)] + cs;
      }
    }
  }

  lemma OntoNothing(n: nat, r: In)
    requires Within(r) && r.err.None?
    ensures Onto([], ReadList(n, r)) == ReadList(n, r)
  {
    assert [] + ReadList(n, r).0 == ReadList(n, r).0;
    hide GetBytes, GetNullString;
  }

  /** The loop of readColumns: the columns are appended one by one. */
  method ReadEach(r: WireGo.Reader, n: nat) returns (columns: seq<Column>)
    requires r.Valid() && r.err.None?
    modifies r
    ensures r.Valid() && (columns, r.State()) == ReadList(n, old(r.State()))
  {
    hide GetBytes, GetNullString, ReadList, Onto;
    columns := [];
    ghost var goal := ReadList(n, r.State());
    OntoNothing(n, r.State());
    var i := 0;
    while i < n
      invariant 0 <= i <= n && r.Valid() && r.err.None?
      invariant goal == Onto(columns, ReadList(n - i, r.State()))
    {
      ListOn(columns, n - i, r.State());
      var name := r.ReadBytes();
      var decl := r.ReadNullString();
      if r.err.Some? { return []; }
      columns := columns + [Column(name, decl)];
      i := i + 1;
    }
    ListOn(columns, 0, r.State());
  }

  method ReadColumns(r: WireGo.Reader) returns (columns: seq<Column>)
    requires r.Valid()
    modifies r
    ensures r.Valid() && (columns, r.State()) == ReadBlock(old(r.State()))
  {
    hide GetUint, ReadList;
    var n := r.ReadUint(4);
    if r.err.Some? { return []; }
    if n * MIN_COLUMN_BYTES > |r.b| - r.i { return []; }
    columns := ReadEach(r, n);
  }
}
