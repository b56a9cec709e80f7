/** Go's half of the codec, binding/wire/codec.go: the append-only Writer and the sticky Reader. */
module WireGo {
  import opened Wrappers
  import opened Wire
  import opened WireReading

  lemma EncodeMore(fs: seq<Field>, f: Field)
    ensures Encode(fs + [f]) == Encode(fs) + FieldBytes(f)
  {
    assert (fs + [f])[..|fs|] == fs;
    hide FieldBytes;
  }

  lemma TagByte(v: Value)
    ensures FieldBytes(U8(TagOf(v))) + Payload(v) == FieldBytes(Val(v))
  {
    assert LE(TagOf(v), 1) == [TagOf(v)];
    hide LE, Payload;
  }

  /** A value's tag and payload, written one after the other. */
  lemma EncodeValue(p: seq<Byte>, fs: seq<Field>, v: Value)
    ensures p + Encode(fs + [Val(v)]) == p + Encode(fs + [U8(TagOf(v))]) + Payload(v)
  {
    hide *;
    EncodeMore(fs, Val(v));
    EncodeMore(fs, U8(TagOf(v)));
    TagByte(v);
    Regroup(p, Encode(fs), FieldBytes(U8(TagOf(v))), Payload(v));
  }

  lemma Regroup(p: seq<Byte>, e: seq<Byte>, t: seq<Byte>, v: seq<Byte>)
    ensures p + (e + (t + v)) == p + (e + t) + v
  {}

  class Writer {
    var b: seq<Byte>
    ghost const op: nat
    ghost const id: int
    ghost var flags: int
    ghost var fields: seq<Field>

    ghost predicate Valid()
      reads this
    {
      b == HeaderBytes(op, flags, id) + Encode(fields)
    }

    constructor (op: nat, flags: int, id: int)
      ensures Valid() && this.op == op && this.flags == flags && this.id == id && fields == []
    {
      b := [VERSION] + LE(op, 1) + LE(flags, 2) + LE(id, 4);
      this.op, this.flags, this.id, fields := op, flags, id, [];
      new;
      assert LE(VERSION, 1) == [VERSION];
      hide LE;
      assert b == b + Encode([]);
    }

    method SetFlags(f: int)
      requires Valid()
      modifies this
      ensures Valid() && flags == f && fields == old(fields)
    {
      hide LE, Encode;
      ghost var tail := LE(id, 4) + Encode(fields);
      assert b == LE(VERSION, 1) + LE(op, 1) + LE(flags, 2) + tail;
      b := b[..2] + LE(f, 2) + b[4..];
      flags := f;
      assert b == LE(VERSION, 1) + LE(op, 1) + LE(f, 2) + tail;
    }

    /** What every method below does: append a field's bytes. */
    method Append(s: seq<Byte>, ghost f: Field)
      requires Valid() && s == FieldBytes(f)
      modifies this`b, this`fields
      ensures Valid() && fields == old(fields) + [f]
    {
      EncodeMore(fields, f);
      hide Encode, FieldBytes, LE;
      b := b + s;
      fields := fields + [f];
    }

    method PutU8(v: nat)
      requires Valid()
      modifies this`b, this`fields
      ensures Valid() && fields == old(fields) + [U8(v)]
    {
      Append(LE(v, 1), U8(v));
    }

    method PutBool(v: bool)
      requires Valid()
      modifies this`b, this`fields
      ensures Valid() && fields == old(fields) + [Bool(v)]
    {
      Append([if v then 1 else 0], Bool(v));
    }

    method PutU16(v: nat)
      requires Valid()
      modifies this`b, this`fields
      ensures Valid() && fields == old(fields) + [U16(v)]
    {
      Append(LE(v, 2), U16(v));
    }

    method PutU32(v: nat)
      requires Valid()
      modifies this`b, this`fields
      ensures Valid() && fields == old(fields) + [U32(v)]
    {
      Append(LE(v, 4), U32(v));
    }

    method PutI32(v: int)
      requires Valid()
      modifies this`b, this`fields
      ensures Valid() && fields == old(fields) + [I32(v)]
    {
      Append(LE(v, 4), I32(v));
    }

    method PutI64(v: int)
      requires Valid()
      modifies this`b, this`fields
      ensures Valid() && fields == old(fields) + [I64(v)]
    {
      Append(LE(v, 8), I64(v));
    }

    method PutF64(bits: nat)
      requires Valid()
      modifies this`b, this`fields
      ensures Valid() && fields == old(fields) + [F64(bits)]
    {
      Append(LE(bits, 8), F64(bits));
    }

    /** Bytes and String: Go's strings are bytes. */
    method PutBytes(v: seq<Byte>)
      requires Valid()
      modifies this`b, this`fields
      ensures Valid() && fields == old(fields) + [Bytes(v)]
    {
      Append(LE(|v|, 4) + v, Bytes(v));
    }

    method PutNullString(v: seq<Byte>, present: bool)
      requires Valid()
      modifies this`b, this`fields
      ensures Valid() && fields == old(fields) + [NullString(if present then Some(v) else None)]
    {
      if !present {
        Append(LE(ABSENT, 4), NullString(None));
      } else {
        Append(LE(|v|, 4) + v, NullString(Some(v)));
      }
    }

    /** ValueNull to ValueBlob: the tag, then the payload. */
    method PutValue(v: Value)
      requires Valid()
      modifies this`b, this`fields
      ensures Valid() && fields == old(fields) + [Val(v)]
    {
      ghost var before := fields;
      PutU8(TagOf(v));
      EncodeValue(HeaderBytes(op, flags, id), before, v);
      hide Encode, LE, Payload, HeaderBytes;
      b := b + Payload(v);
      fields := before + [Val(v)];
    }

    method Put(f: Field)
      requires Valid()
      modifies this`b, this`fields
      ensures Valid() && fields == old(fields) + [f]
    {
      hide Encode, LE, FieldBytes;
      match f
      case U8(v) => PutU8(v);
      case Bool(v) => PutBool(v);
      case U16(v) => PutU16(v);
      case U32(v) => PutU32(v);
      case I32(v) => PutI32(v);
      case I64(v) => PutI64(v);
      case F64(v) => PutF64(v);
      case Bytes(v) => PutBytes(v);
      case NullString(None) => PutNullString([], false);
      case NullString(Some(v)) => PutNullString(v, true);
      case Val(v) => PutValue(v);
    }
  }

  /** Reader: `In` spread over the object's fields. */
  class Reader {
    const b: seq<Byte>
    var i: nat
    var err: Option<Fault>

    predicate Valid()
      reads this
    {
      i <= |b|
    }

    function State(): In
      reads this
    {
      In(b, i, err)
    }

    constructor (b: seq<Byte>, i: nat)
      requires i <= |b|
      ensures Valid() && State() == In(b, i, None)
    {
      this.b, this.i, err := b, i, None;
    }

    method TakeN(n: nat) returns (s: Option<seq<Byte>>)
      requires Valid()
      modifies this
      ensures Valid() && (s, State()) == Take(old(State()), n)
    {
      if err.Some? { return None; }
      if |b| - i < n {
        err := Some(Short);
        return None;
      }
      s := Some(b[i..i + n]);
      i := i + n;
    }

    method FailWith(e: Fault)
      modifies this`err
      ensures State() == Fail(old(State()), e)
    {
      if err.None? { err := Some(e); }
    }

    /** U8, U16, U32 and the 64-bit reads before they are converted. */
    method ReadUint(w: nat) returns (n: nat)
      requires Valid()
      modifies this
      ensures Valid() && (n, State()) == GetUint(old(State()), w)
    {
      var s := TakeN(w);
      match s
      case None => n := 0;
      case Some(t) => n := UnLE(t);
    }

    method ReadBytes() returns (s: seq<Byte>)
      requires Valid()
      modifies this
      ensures Valid() && (s, State()) == GetBytes(old(State()))
    {
      var n := ReadUint(4);
      if err.Some? { return []; }
      if n == ABSENT {
        FailWith(AbsentMarker);
        return [];
      }
      var t := TakeN(n);
      s := if t.Some? then t.value else [];
    }

    method ReadNullString() returns (s: Option<seq<Byte>>)
      requires Valid()
      modifies this
      ensures Valid() && (s, State()) == GetNullString(old(State()))
    {
      var n := ReadUint(4);
      if err.Some? { return None; }
      if n == ABSENT { return None; }
      var t := TakeN(n);
      s := Some(if t.Some? then t.value else []);
    }

    method ReadTag() returns (t: nat)
      requires Valid()
      modifies this
      ensures Valid() && (t, State()) == GetTag(old(State()))
    {
      t := ReadUint(1);
      if err.None? && t > 4 { FailWith(BadTag(t)); }
    }

    method SkipValue(t: nat)
      requires Valid()
      modifies this
      ensures Valid() && State() == Skip(t, old(State()))
    {
      if t == 0 {
      } else if t == 1 || t == 2 {
        var _ := TakeN(8);
      } else if t == 3 || t == 4 {
        var n := ReadUint(4);
        var _ := TakeN(n);
      } else {
        FailWith(BadTag(t));
      }
    }

    /** A value, as decodeValue reads it. */
    method ReadValue() returns (v: Value)
      requires Valid()
      modifies this
      ensures Valid() && (v, State()) == GetValue(old(State()))
    {
      var t := ReadTag();
      if t == 1 { var n := ReadUint(8); v := IntValue(Signed64(n)); }
      else if t == 2 { var n := ReadUint(8); v := RealValue(n); }
      else if t == 3 { var s := ReadBytes(); v := TextValue(s); }
      else if t == 4 { var s := ReadBytes(); v := BlobValue(s); }
      else { v := NullValue; }
    }
  }

  /** Skipping a value leaves the reader where reading it would, whenever it can be read. */
  lemma SkipIsRead(r: In, v: Value)
    requires Ahead(r, [TagOf(v)] + Payload(v)) && Encodable(Val(v))
    ensures Within(r) && Within(GetTag(r).1) && Skip(GetTag(r).0, GetTag(r).1) == GetValue(r).1
  {
    GetsTag(r, v);
    GetsValue(r, v);
    Pow256Is();
    var u := Past(r, 1);
    hide GetValue, GetTag, LE, Pow256;
    match v
    case IntValue(n) => assert Payload(v) == LE(n, 8);
    case RealValue(n) => assert Payload(v) == LE(n, 8);
    case TextValue(s) => SkipCounted(u, s);
    case BlobValue(s) => SkipCounted(u, s);
    case NullValue =>
  }

  lemma SkipCounted(u: In, s: seq<Byte>)
    requires Ahead(u, Counted(s)) && |s| < ABSENT
    ensures Within(u) && Skip(3, u) == Skip(4, u) == Past(u, 4 + |s|)
  {
    AheadSplit(u, LE(|s|, 4), s);
    Pow256Is();
    GetsNat(u, |s|, 4);
    hide LE, Pow256;
  }

  /** ReadHeader. */
  datatype Header = Header(version: nat, op: nat, flags: nat, id: nat)

  function ReadHeader(b: seq<Byte>): Option<(Header, In)> {
    if |b| < HEADER_SIZE then None
    else
      var h := Header(b[0], b[1], UnLE(b[2..4]), UnLE(b[4..8]));
      if h.version != VERSION then None else Some((h, In(b, HEADER_SIZE, None)))
  }

  /** A whole frame is read back: its header, and then its fields to the last byte. */
  lemma FrameReadsBack(op: nat, flags: nat, id: nat, fs: seq<Field>)
    requires op < 0x100 && flags < 0x1_0000 && id < 0x1_0000_0000 && AllEncodable(fs)
    ensures var frame := HeaderBytes(op, flags, id) + Encode(fs);
            var start := In(frame, HEADER_SIZE, None);
            && ReadHeader(frame) == Some((Header(VERSION, op, flags, id), start))
            && Within(start) && GetAll(Kinds(fs), start) == (fs, In(frame, |frame|, None))
  {
    HeaderLength(op, flags, id);
    hide HeaderBytes, Encode, ReadHeader, Encodable, AllEncodable, GetAll, Kinds;
    var frame := HeaderBytes(op, flags, id) + Encode(fs);
    HeaderParts(op, flags, id, Encode(fs));
    assert frame[HEADER_SIZE..HEADER_SIZE + |Encode(fs)|] == Encode(fs);
    ReadsBack(In(frame, HEADER_SIZE, None), fs);
  }

  lemma HeaderLength(op: nat, flags: nat, id: nat)
    ensures |HeaderBytes(op, flags, id)| == HEADER_SIZE
  {
    hide LE;
  }

  lemma HeaderParts(op: nat, flags: nat, id: nat, rest: seq<Byte>)
    requires op < 0x100 && flags < 0x1_0000 && id < 0x1_0000_0000
    ensures ReadHeader(HeaderBytes(op, flags, id) + rest) ==
              Some((Header(VERSION, op, flags, id), In(HeaderBytes(op, flags, id) + rest, HEADER_SIZE, None)))
  {
    var b := HeaderBytes(op, flags, id) + rest;
    Pow256Is();
    UnLEOfLE(flags, 2);
    UnLEOfLE(id, 4);
    assert LE(VERSION, 1) == [VERSION] && LE(op, 1) == [op];
    hide LE, UnLE, Pow256;
    assert b[2..4] == LE(flags, 2) && b[4..8] == LE(id, 4);
  }
}
