/** The worker's half of the codec, src/wire.ts: the FrameWriter over a growable buffer with
    patched fields, which refines Go's append-only Writer, and the FrameReader. */
module WireTs {
  import opened Wrappers
  import opened Wire
  import opened WireReading
  import WireGo

  // ---- Text ---------------------------------------------------------------------------

  /** A UTF-16 code unit. */
  type Unit = x: int | 0 <= x < 0x1_0000

  predicate IsHigh(u: Unit) { 0xd800 <= u < 0xdc00 }
  predicate IsLow(u: Unit) { 0xdc00 <= u < 0xe000 }

  /** The UTF-8 form of a code point; of a lone surrogate, that of U+FFFD. */
  function PointBytes(p: nat): seq<Byte>
    requires p < 0x11_0000
  {
    if p < 0x80 then [p]
    else if p < 0x800 then [0xc0 + p / 0x40, 0x80 + p % 0x40]
    else if 0xd800 <= p < 0xe000 then [0xef, 0xbf, 0xbd]
    else if p < 0x1_0000 then [0xe0 + p / 0x1000, 0x80 + p / 0x40 % 0x40, 0x80 + p % 0x40]
    else [0xf0 + p / 0x4_0000, 0x80 + p / 0x1000 % 0x40, 0x80 + p / 0x40 % 0x40, 0x80 + p % 0x40]
  }

  /** TextEncoder's output for a JavaScript string. */
  function Utf8(v: seq<Unit>): seq<Byte> {
    if v == [] then []
    else if |v| >= 2 && IsHigh(v[0]) && IsLow(v[1]) then
      var hi: int, lo: int := v[0], v[1];
      PointBytes(0x1_0000 + (hi - 0xd800) * 0x400 + (lo - 0xdc00)) + Utf8(v[2..])
    else PointBytes(v[0]) + Utf8(v[1..])
  }

  /** Three bytes for each code unit are always room enough. */
  lemma {:induction false} Utf8Fits(v: seq<Unit>)
    ensures |Utf8(v)| <= 3 * |v|
  {
    if v == [] {
    } else if |v| >= 2 && IsHigh(v[0]) && IsLow(v[1]) {
      Utf8Fits(v[2..]);
    } else {
      Utf8Fits(v[1..]);
    }
  }

  // ---- Numbers ------------------------------------------------------------------------

  predicate IsNaN(bits: nat) { bits % 0x8000_0000_0000_0000 > 0x7ff0_0000_0000_0000 }

  /** JavaScript does not keep the bits of a NaN apart. */
  function JsReal(bits: nat): nat { if IsNaN(bits) then 0x7ff8_0000_0000_0000 else bits }

  predicate SameReal(a: nat, b: nat) { a == b || (IsNaN(a) && IsNaN(b)) }

  /** A field as JavaScript holds it. */
  function JsField(f: Field): Field {
    match f
    case F64(bits) => F64(JsReal(bits))
    case Val(RealValue(bits)) => Val(RealValue(JsReal(bits)))
    case _ => f
  }

  predicate SameField(f: Field, g: Field) {
    || f == g
    || (f.F64? && g.F64? && SameReal(f.bits, g.bits))
    || (f.Val? && g.Val? && f.value.RealValue? && g.value.RealValue? && SameReal(f.value.bits, g.value.bits))
  }

  lemma JsFieldIsSame(f: Field)
    ensures SameField(JsField(f), f) && (Encodable(f) ==> Encodable(JsField(f))) && KindOf(JsField(f)) == KindOf(f)
  {}

  // ---- Overwriting --------------------------------------------------------------------

  /** A store into the middle; past the end it has no effect. */
  function Overwrite(b: seq<Byte>, at: int, s: seq<Byte>): seq<Byte> {
    if 0 <= at && at + |s| <= |b| then b[..at] + s + b[at + |s|..] else b
  }

  lemma OverwriteMiddle(p: seq<Byte>, a: seq<Byte>, s: seq<Byte>, t: seq<Byte>, c: seq<Byte>)
    requires |s| == |t|
    ensures Overwrite(p + (a + s + c), |p| + |a|, t) == p + (a + t + c)
  {
    var b := p + (a + s + c);
    assert b[..|p| + |a|] == p + a && b[|p| + |a| + |t|..] == c;
    assert p + a + t + c == p + (a + t + c);
  }

  lemma {:induction false} EncodeAppend(fs: seq<Field>, gs: seq<Field>)
    ensures Encode(fs + gs) == Encode(fs) + Encode(gs)
    decreases |gs|
  {
    hide FieldBytes;
    if gs == [] {
      assert fs + gs == fs;
    } else {
      var n := |gs| - 1;
      assert (fs + gs)[..|fs + gs| - 1] == fs + gs[..n] && (fs + gs)[|fs + gs| - 1] == gs[n];
      EncodeAppend(fs, gs[..n]);
      assert Encode(fs) + Encode(gs[..n]) + FieldBytes(gs[n]) == Encode(fs) + (Encode(gs[..n]) + FieldBytes(gs[n]));
    }
  }

  lemma EncodeAround(a: seq<Field>, f: Field, c: seq<Field>)
    ensures Encode(a + [f] + c) == Encode(a) + FieldBytes(f) + Encode(c)
  {
    hide Encode, FieldBytes;
    WireGo.EncodeMore(a, f);
    EncodeAppend(a + [f], c);
  }

  lemma Around<T>(s: seq<T>, k: nat, x: T)
    requires k < |s|
    ensures s == s[..k] + [s[k]] + s[k + 1..] && s[k := x] == s[..k] + [x] + s[k + 1..]
  {}

  lemma NumberBytes(u: nat)
    ensures FieldBytes(U32(u)) == LE(u, 4)
  {
    hide LE;
  }

  lemma PatchParts(p: seq<Byte>, a: seq<Field>, u: nat, v: nat, c: seq<Field>)
    ensures |p + Encode(a + [U32(u)] + c)| == |p| + |Encode(a)| + 4 + |Encode(c)|
    ensures Overwrite(p + Encode(a + [U32(u)] + c), |p| + |Encode(a)|, LE(v, 4)) == p + Encode(a + [U32(v)] + c)
  {
    hide *;
    NumberBytes(u);
    NumberBytes(v);
    EncodeAround(a, U32(u), c);
    EncodeAround(a, U32(v), c);
    OverwriteMiddle(p, Encode(a), LE(u, 4), LE(v, 4), Encode(c));
  }

  /** A number reserved and patched later is the number written in its place. */
  lemma PatchIsWrite(p: seq<Byte>, fs: seq<Field>, k: nat, v: nat)
    requires k < |fs| && fs[k].U32?
    ensures |p| + |Encode(fs[..k])| + 4 <= |p + Encode(fs)|
    ensures Overwrite(p + Encode(fs), |p| + |Encode(fs[..k])|, LE(v, 4)) == p + Encode(fs[k := U32(v)])
  {
    hide Encode, LE, Overwrite;
    Around(fs, k, U32(v));
    PatchParts(p, fs[..k], fs[k].u, v, fs[k + 1..]);
  }

  // ---- The FrameWriter ----------------------------------------------------------------

  lemma AppendAfter(p: seq<Byte>, fs: seq<Field>, f: Field)
    ensures p + Encode(fs + [f]) == p + Encode(fs) + FieldBytes(f)
  {
    hide *;
    WireGo.EncodeMore(fs, f);
  }

  lemma OverwriteEnd(b: seq<Byte>, n: nat, s: seq<Byte>)
    requires n + |s| <= |b|
    ensures Overwrite(b, n, s)[..n + |s|] == b[..n] + s
  {}

  lemma TwoStores(b: seq<Byte>, n: nat, s: seq<Byte>, t: seq<Byte>)
    requires n + |s| + |t| <= |b|
    ensures Overwrite(Overwrite(b, n + |s|, t), n, s)[..n + |s| + |t|] == b[..n] + (s + t)
  {}

  lemma OverwriteWithin(b: seq<Byte>, n: nat, at: nat, s: seq<Byte>)
    requires at + |s| <= n <= |b|
    ensures Overwrite(b, at, s)[..n] == Overwrite(b[..n], at, s)
  {}

  lemma FlagsAt(op: nat, flags: int, f: int, id: int, rest: seq<Byte>)
    ensures Overwrite(HeaderBytes(op, flags, id) + rest, 2, LE(f, 2)) == HeaderBytes(op, f, id) + rest
  {
    hide LE;
    var b := HeaderBytes(op, flags, id) + rest;
    assert b[..2] == LE(VERSION, 1) + LE(op, 1) && b[4..] == LE(id, 4) + rest;
  }

  lemma CountedBytes(p: seq<Byte>, fs: seq<Field>, v: seq<Byte>, f: Field)
    requires FieldBytes(f) == Counted(v)
    ensures p + Encode(fs + [f]) == p + Encode(fs + [U32(|v|)]) + v
  {
    hide *;
    AppendAfter(p, fs, f);
    AppendAfter(p, fs, U32(|v|));
    NumberBytes(|v|);
    CountedIs(v);
    assert p + Encode(fs) + (LE(|v|, 4) + v) == p + Encode(fs) + LE(|v|, 4) + v;
  }

  lemma TextBytes(v: seq<Unit>)
    ensures FieldBytes(Bytes(Utf8(v))) == Counted(Utf8(v))
  {
    hide LE;
  }

  lemma NullTextBytes(v: Option<seq<Unit>>)
    ensures FieldBytes(NullText(v)) == if v.Some? then Counted(Utf8(v.value)) else LE(ABSENT, 4)
  {
    hide LE;
  }

  /** The field that holds a value's payload. */
  function PayloadField(v: Value): seq<Field> {
    match v
    case NullValue => []
    case IntValue(n) => [I64(n)]
    case RealValue(bits) => [F64(bits)]
    case TextValue(s) => [Bytes(s)]
    case BlobValue(s) => [Bytes(s)]
  }

  lemma PayloadBytes(v: Value)
    ensures Encode(PayloadField(v)) == Payload(v)
  {
    hide LE, Counted;
    assert PayloadField(v) != [] ==> PayloadField(v)[..0] == [];
  }

  lemma ValueFields(p: seq<Byte>, before: seq<Field>, v: Value)
    ensures p + Encode(before + [U8(TagOf(v))] + PayloadField(v)) == p + Encode(before + [Val(v)])
    ensures v == NullValue ==> p + Encode(before + [U8(0)]) == p + Encode(before + [Val(v)])
  {
    hide *;
    PayloadBytes(v);
    EncodeAppend(before + [U8(TagOf(v))], PayloadField(v));
    WireGo.EncodeValue(p, before, v);
    NullTag(v);
    assert p + (Encode(before + [U8(TagOf(v))]) + Payload(v)) == p + Encode(before + [U8(TagOf(v))]) + Payload(v);
  }

  lemma NullTag(v: Value)
    ensures v == NullValue ==> TagOf(v) == 0 && Payload(v) == []
  {}

  lemma CountedIs(v: seq<Byte>)
    ensures Counted(v) == LE(|v|, 4) + v
  {
    hide LE;
  }

  class FrameWriter {
    var buf: array<Byte>
    var n: nat
    ghost const op: nat
    ghost const id: int
    ghost var flags: int
    ghost var fields: seq<Field>

    /** The bytes in use are the header and the fields, as if they had been appended in order. */
    ghost predicate Valid()
      reads this, buf
    {
      HEADER_SIZE <= n <= buf.Length && buf[..n] == Frame()
    }

    ghost function Frame(): seq<Byte>
      reads this
    {
      HeaderBytes(op, flags, id) + Encode(fields)
    }

    /** DataView's setters and Uint8Array.set: bytes stored at an offset. */
    method Store(at: nat, s: seq<Byte>)
      requires at + |s| <= buf.Length
      modifies buf
      ensures buf[..] == Overwrite(old(buf[..]), at, s)
    {
      var i := 0;
      while i < |s|
        invariant 0 <= i <= |s|
        invariant buf[..at] == old(buf[..at]) && buf[at..at + i] == s[..i]
        invariant buf[at + |s|..] == old(buf[at + |s|..])
      {
        buf[at + i] := s[i];
        i := i + 1;
      }
      assert buf[..] == buf[..at] + buf[at..at + |s|] + buf[at + |s|..];
    }

    constructor (op: nat, flags: int, id: int, hint: nat)
      ensures Valid() && fresh(buf) && this.op == op && this.id == id && this.flags == flags && fields == []
    {
      buf := new Byte[HEADER_SIZE + hint](i => 0);
      n := HEADER_SIZE;
      this.op, this.id, this.flags, fields := op, id, flags, [];
      new;
      hide LE;
      ghost var zeros := buf[..];
      Store(0, LE(VERSION, 1));
      Store(1, LE(op, 1));
      Store(2, LE(flags, 2));
      Store(4, LE(id, 4));
      assert buf[..HEADER_SIZE] == HeaderBytes(op, flags, id);
    }

    /** Doubles the buffer until there is room. */
    method Grow(need: nat)
      requires Valid()
      modifies this`buf
      ensures Valid() && n + need <= buf.Length && (buf == old(buf) || fresh(buf))
    {
      if n + need <= buf.Length { return; }
      var cap := buf.Length * 2;
      while cap < n + need
        invariant cap >= 2 * HEADER_SIZE && cap >= buf.Length
        decreases n + need - cap
      {
        cap := cap * 2;
      }
      ghost var used := buf[..n];
      var next := new Byte[cap](i => 0);
      forall k | 0 <= k < n { next[k] := buf[k]; }
      buf := next;
      assert buf[..n] == used;
    }

    /** What the writers of numbers do: make room, store, move on. */
    method Append(s: seq<Byte>, ghost f: Field)
      requires Valid() && s == FieldBytes(f)
      modifies this`buf, this`n, this`fields, buf
      ensures Valid() && fields == old(fields) + [f] && n == old(n) + |s| && (buf == old(buf) || fresh(buf))
    {
      hide FieldBytes, Encode, HeaderBytes;
      Grow(|s|);
      AppendAfter(HeaderBytes(op, flags, id), fields, f);
      OverwriteEnd(buf[..], n, s);
      hide Overwrite;
      Store(n, s);
      n := n + |s|;
      fields := fields + [f];
    }

    method SetFlags(f: int)
      requires Valid()
      modifies this`flags, buf
      ensures Valid() && flags == f
    {
      FlagsAt(op, flags, f, id, Encode(fields));
      OverwriteWithin(buf[..], n, 2, LE(f, 2));
      hide LE, Encode, HeaderBytes, Overwrite;
      Store(2, LE(f, 2));
      flags := f;
    }

    method PutU8(v: nat)
      requires Valid()
      modifies this`buf, this`n, this`fields, buf
      ensures Valid() && fields == old(fields) + [U8(v)] && (buf == old(buf) || fresh(buf))
    {
      Append(LE(v, 1), U8(v));
    }

    method PutBool(v: bool)
      requires Valid()
      modifies this`buf, this`n, this`fields, buf
      ensures Valid() && fields == old(fields) + [Bool(v)] && (buf == old(buf) || fresh(buf))
    {
      Append([if v then 1 else 0], Bool(v));
    }

    method PutU16(v: nat)
      requires Valid()
      modifies this`buf, this`n, this`fields, buf
      ensures Valid() && fields == old(fields) + [U16(v)] && (buf == old(buf) || fresh(buf))
    {
      Append(LE(v, 2), U16(v));
    }

    method PutU32(v: nat)
      requires Valid()
      modifies this`buf, this`n, this`fields, buf
      ensures Valid() && fields == old(fields) + [U32(v)] && n == old(n) + 4 && (buf == old(buf) || fresh(buf))
    {
      Append(LE(v, 4), U32(v));
    }

    method PutI32(v: int)
      requires Valid()
      modifies this`buf, this`n, this`fields, buf
      ensures Valid() && fields == old(fields) + [I32(v)] && (buf == old(buf) || fresh(buf))
    {
      Append(LE(v, 4), I32(v));
    }

    method PutI64(v: int)
      requires Valid()
      modifies this`buf, this`n, this`fields, buf
      ensures Valid() && fields == old(fields) + [I64(v)] && (buf == old(buf) || fresh(buf))
    {
      Append(LE(v, 8), I64(v));
    }

    method PutF64(bits: nat)
      requires Valid()
      modifies this`buf, this`n, this`fields, buf
      ensures Valid() && fields == old(fields) + [F64(JsReal(bits))] && (buf == old(buf) || fresh(buf))
    {
      Append(LE(JsReal(bits), 8), F64(JsReal(bits)));
    }

    /** Room for a number that is not known yet. */
    method ReserveU32() returns (at: nat)
      requires Valid()
      modifies this`buf, this`n, this`fields, buf
      ensures Valid() && fields == old(fields) + [U32(0)] && (buf == old(buf) || fresh(buf))
      ensures at == HEADER_SIZE + |Encode(old(fields))|
    {
      at := n;
      assert |HeaderBytes(op, flags, id)| == HEADER_SIZE;
      hide Encode, HeaderBytes;
      PutU32(0);
    }

    /** Fills in the k-th field, a number that was reserved at `at`. */
    method PatchU32(at: nat, v: nat, ghost k: nat)
      requires Valid() && k < |fields| && fields[k].U32? && at == HEADER_SIZE + |Encode(fields[..k])|
      modifies this`fields, buf
      ensures Valid() && fields == old(fields)[k := U32(v)]
    {
      assert |HeaderBytes(op, flags, id)| == HEADER_SIZE;
      hide LE, Encode, HeaderBytes;
      PatchIsWrite(HeaderBytes(op, flags, id), fields, k, v);
      OverwriteWithin(buf[..], n, at, LE(v, 4));
      hide Overwrite;
      Store(at, LE(v, 4));
      fields := fields[k := U32(v)];
    }

    /** Bytes already counted by a number before them. */
    method AppendRaw(v: seq<Byte>, ghost before: seq<Field>, ghost f: Field)
      requires Valid() && fields == before + [U32(|v|)] && FieldBytes(f) == Counted(v)
      modifies this`buf, this`n, this`fields, buf
      ensures Valid() && fields == before + [f] && (buf == old(buf) || fresh(buf))
    {
      hide LE, Encode, HeaderBytes, Counted, FieldBytes;
      CountedBytes(HeaderBytes(op, flags, id), before, v, f);
      Grow(|v|);
      OverwriteEnd(buf[..], n, v);
      hide Overwrite;
      Store(n, v);
      n := n + |v|;
      fields := before + [f];
    }

    method PutBytes(v: seq<Byte>)
      requires Valid()
      modifies this`buf, this`n, this`fields, buf
      ensures Valid() && fields == old(fields) + [Bytes(v)] && (buf == old(buf) || fresh(buf))
    {
      hide LE, Encode, HeaderBytes, Counted;
      ghost var before := fields;
      PutU32(|v|);
      AppendRaw(v, before, Bytes(v));
    }

    /** str: the text is encoded straight into the buffer, and its length stored before it. */
    method PutText(v: seq<Unit>, ghost f: Field)
      requires Valid() && FieldBytes(f) == Counted(Utf8(v))
      modifies this`buf, this`n, this`fields, buf
      ensures Valid() && fields == old(fields) + [f] && (buf == old(buf) || fresh(buf))
    {
      hide LE, Encode, HeaderBytes, FieldBytes, Utf8, Counted, Overwrite;
      Utf8Fits(v);
      AppendAfter(HeaderBytes(op, flags, id), fields, f);
      Grow(4 + |v| * 3);
      var text := Utf8(v);
      TwoStores(buf[..], n, LE(|text|, 4), text);
      CountedIs(text);
      var at := n;
      n := n + 4;
      Store(n, text);
      Store(at, LE(|text|, 4));
      n := n + |text|;
      fields := fields + [f];
    }

    /** nstr */
    method PutNullText(v: Option<seq<Unit>>)
      requires Valid()
      modifies this`buf, this`n, this`fields, buf
      ensures Valid() && fields == old(fields) + [NullText(v)] && (buf == old(buf) || fresh(buf))
    {
      NullTextBytes(v);
      hide LE, Encode, HeaderBytes, FieldBytes, Utf8, Counted;
      match v
      case None => Append(LE(ABSENT, 4), NullString(None));
      case Some(text) => PutText(text, NullString(Some(Utf8(text))));
    }

    /** valueNull to valueBlob: the tag, and then the payload as a field of its own. */
    method PutValue(v: Value)
      requires Valid()
      modifies this`buf, this`n, this`fields, buf
      ensures Valid() && fields == old(fields) + [JsField(Val(v))] && (buf == old(buf) || fresh(buf))
    {
      hide LE, Encode, HeaderBytes, FieldBytes, Counted, Payload;
      ghost var before := fields;
      ghost var p := HeaderBytes(op, flags, id);
      match v {
        case NullValue => PutU8(0);
        case IntValue(i) => PutU8(1); PutI64(i);
        case RealValue(bits) => PutU8(2); PutF64(bits);
        case TextValue(s) => PutU8(3); PutBytes(s);
        case BlobValue(s) => PutU8(4); PutBytes(s);
      }
      ValueFields(p, before, JsField(Val(v)).value);
      fields := before + [JsField(Val(v))];
    }

    method PutItem(item: Item)
      requires Valid()
      modifies this`buf, this`n, this`fields, buf
      ensures Valid() && fields == old(fields) + [JsField(FieldOf(item))] && (buf == old(buf) || fresh(buf))
    {
      hide LE, Encode, HeaderBytes, FieldBytes, Utf8, Counted;
      match item
      case ItemU8(v) => PutU8(v);
      case ItemBool(v) => PutBool(v);
      case ItemU16(v) => PutU16(v);
      case ItemU32(v) => PutU32(v);
      case ItemI32(v) => PutI32(v);
      case ItemI64(v) => PutI64(v);
      case ItemF64(v) => PutF64(v);
      case ItemBytes(v) => PutBytes(v);
      case ItemText(v) => TextBytes(v); PutText(v, Bytes(Utf8(v)));
      case ItemNullText(v) => PutNullText(v);
      case ItemValue(v) => PutValue(v);
    }

    method TakeFrame() returns (frame: seq<Byte>)
      requires Valid()
      ensures frame == Frame()
    {
      frame := buf[..n];
    }
  }

  // ---- Both writers -------------------------------------------------------------------

  /** One line of a field script, with text as JavaScript holds it. */
  datatype Item =
    | ItemU8(u: nat) | ItemBool(b: bool) | ItemU16(u: nat) | ItemU32(u: nat) | ItemI32(n: int) | ItemI64(n: int)
    | ItemF64(bits: nat) | ItemBytes(bytes: seq<Byte>) | ItemText(text: seq<Unit>)
    | ItemNullText(optional: Option<seq<Unit>>) | ItemValue(value: Value)

  function NullText(v: Option<seq<Unit>>): Field {
    NullString(if v.Some? then Some(Utf8(v.value)) else None)
  }

  /** The same line in Go, whose strings are UTF-8. */
  function FieldOf(item: Item): Field {
    match item
    case ItemU8(v) => U8(v)
    case ItemBool(v) => Bool(v)
    case ItemU16(v) => U16(v)
    case ItemU32(v) => U32(v)
    case ItemI32(v) => I32(v)
    case ItemI64(v) => I64(v)
    case ItemF64(v) => F64(v)
    case ItemBytes(v) => Bytes(v)
    case ItemText(v) => Bytes(Utf8(v))
    case ItemNullText(v) => NullText(v)
    case ItemValue(v) => Val(v)
  }

  function FieldsOf(items: seq<Item>): seq<Field> {
    seq(|items|, i requires 0 <= i < |items| => FieldOf(items[i]))
  }

  function JsFields(fs: seq<Field>): seq<Field> { seq(|fs|, i requires 0 <= i < |fs| => JsField(fs[i])) }

  /** Any field script gives the same frame from the growable FrameWriter and from the append-only
      Writer, but for the bits of a NaN. */
  method WriteBoth(op: nat, flags: int, id: int, items: seq<Item>) returns (ts: seq<Byte>, go: seq<Byte>)
    ensures go == HeaderBytes(op, flags, id) + Encode(FieldsOf(items))
    ensures ts == HeaderBytes(op, flags, id) + Encode(JsFields(FieldsOf(items)))
    ensures (forall i :: 0 <= i < |items| ==> JsField(FieldOf(items[i])) == FieldOf(items[i])) ==> ts == go
  {
    hide LE, Encode, HeaderBytes, FieldBytes, FieldOf, JsField;
    var t := new FrameWriter(op, flags, id, 64);
    var g := new WireGo.Writer(op, flags, id);
    for i := 0 to |items|
      invariant t.Valid() && g.Valid() && fresh(t) && fresh(t.buf) && fresh(g)
      invariant t.op == g.op == op && t.flags == g.flags == flags && t.id == g.id == id
      invariant g.fields == FieldsOf(items[..i]) && t.fields == JsFields(FieldsOf(items[..i]))
    {
      t.PutItem(items[i]);
      g.Put(FieldOf(items[i]));
      assert items[..i + 1] == items[..i] + [items[i]];
    }
    assert items[..|items|] == items;
    ts := t.TakeFrame();
    go := g.b;
    assert (forall i :: 0 <= i < |items| ==> JsField(FieldOf(items[i])) == FieldOf(items[i])) ==>
             JsFields(FieldsOf(items)) == FieldsOf(items);
  }

  const ROWS := 0x85

  /** A batch of rows as runQuery builds it: the row count is reserved before the rows and patched
      after them, and the flags come last.  The frame is the one that would have been written in
      order had all been known. */
  method RowsFrame(id: int, columns: seq<Item>, values: seq<Value>, rows: nat, flags: int) returns (frame: seq<Byte>)
    ensures frame == HeaderBytes(ROWS, flags, id) +
              Encode(JsFields(FieldsOf(columns)) + [U32(rows)] + JsFields(ValueFieldsOf(values)))
  {
    hide LE, Encode, HeaderBytes, FieldBytes, FieldOf, JsField;
    var w := new FrameWriter(ROWS, 0, id, 8192);
    for i := 0 to |columns|
      invariant w.Valid() && fresh(w) && fresh(w.buf) && w.op == ROWS && w.id == id
      invariant w.fields == JsFields(FieldsOf(columns[..i]))
    {
      w.PutItem(columns[i]);
      assert columns[..i + 1] == columns[..i] + [columns[i]];
    }
    assert columns[..|columns|] == columns;
    ghost var cs := w.fields;
    var at := w.ReserveU32();
    for i := 0 to |values|
      invariant w.Valid() && fresh(w) && fresh(w.buf) && w.op == ROWS && w.id == id
      invariant w.fields == cs + [U32(0)] + JsFields(ValueFieldsOf(values[..i]))
    {
      w.PutValue(values[i]);
      assert values[..i + 1] == values[..i] + [values[i]];
    }
    assert values[..|values|] == values;
    ghost var rest := JsFields(ValueFieldsOf(values));
    assert w.fields[..|cs|] == cs;
    w.PatchU32(at, rows, |cs|);
    assert (cs + [U32(0)] + rest)[|cs| := U32(rows)] == cs + [U32(rows)] + rest;
    w.SetFlags(flags);
    frame := w.TakeFrame();
  }

  function ValueFieldsOf(vs: seq<Value>): seq<Field> { seq(|vs|, i requires 0 <= i < |vs| => Val(vs[i])) }
}
