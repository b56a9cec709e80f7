/** Reading inverts writing, every truncation is caught, and a failed Reader stays where it is:
    binding/wire/codec.go. */
module WireReading {
  import opened Wrappers
  import opened Division
  import opened Wire

  // ---- Where a reader stands ----------------------------------------------------------

  /** What is left begins with `s`. */
  predicate Ahead(r: In, s: seq<Byte>) {
    r.err.None? && r.i + |s| <= |r.b| && r.b[r.i..r.i + |s|] == s
  }

  /** What is left is a proper prefix of `s`. */
  predicate Cut(r: In, s: seq<Byte>) {
    r.err.None? && Within(r) && |r.b| - r.i < |s| && r.b[r.i..] == s[..|r.b| - r.i]
  }

  function Past(r: In, n: nat): In { r.(i := r.i + n) }

  lemma AheadSplit(r: In, s: seq<Byte>, t: seq<Byte>)
    requires Ahead(r, s + t)
    ensures Ahead(r, s) && Ahead(Past(r, |s|), t)
  {
    var all := r.b[r.i..r.i + |s| + |t|];
    assert all[..|s|] == s && all[|s|..] == t;
    assert r.b[r.i..r.i + |s|] == all[..|s|];
    assert r.b[r.i + |s|..r.i + |s| + |t|] == all[|s|..];
  }

  /** A cut falls in the first part or in the second. */
  lemma CutSplit(r: In, s: seq<Byte>, t: seq<Byte>)
    requires Cut(r, s + t)
    ensures Cut(r, s) || (Ahead(r, s) && Cut(Past(r, |s|), t))
  {
    var n := |r.b| - r.i;
    if n < |s| {
      assert (s + t)[..n] == s[..n];
    } else {
      assert r.b[r.i..r.i + |s|] == r.b[r.i..][..|s|] == (s + t)[..n][..|s|] == s;
      assert r.b[r.i + |s|..] == r.b[r.i..][|s|..] == (s + t)[..n][|s|..] == t[..n - |s|];
    }
  }

  // ---- Numbers ------------------------------------------------------------------------

  lemma GetsUint(r: In, n: int, w: nat)
    requires Ahead(r, LE(n, w))
    ensures Within(r) && GetUint(r, w) == (n % Pow256(w), Past(r, w))
  {
    UnLEOfLE(n, w);
  }

  lemma GetsNat(r: In, n: nat, w: nat)
    requires Ahead(r, LE(n, w)) && n < Pow256(w)
    ensures Within(r) && GetUint(r, w) == (n, Past(r, w))
  {
    GetsUint(r, n, w);
    QuotientIs(n, Pow256(w), 0, n);
    hide LE, GetUint, Pow256;
  }

  lemma SignedIs(n: int)
    ensures -0x8000_0000 <= n < 0x8000_0000 ==> Signed32(n % 0x1_0000_0000) == n
    ensures -0x8000_0000_0000_0000 <= n < 0x8000_0000_0000_0000 ==> Signed64(n % 0x1_0000_0000_0000_0000) == n
  {}

  lemma GetsI32(r: In, n: int)
    requires Ahead(r, LE(n, 4)) && -0x8000_0000 <= n < 0x8000_0000
    ensures Within(r) && Get(I32Kind, r) == (I32(n), Past(r, 4))
  {
    GetsUint(r, n, 4);
    Pow256Is();
    SignedIs(n);
    hide LE, GetUint, Pow256, Signed32, Signed64;
  }

  lemma GetsI64(r: In, n: int)
    requires Ahead(r, LE(n, 8)) && -0x8000_0000_0000_0000 <= n < 0x8000_0000_0000_0000
    ensures Within(r) && GetUint(r, 8).1 == Past(r, 8) && Signed64(GetUint(r, 8).0) == n
  {
    GetsUint(r, n, 8);
    Pow256Is();
    SignedIs(n);
    hide LE, GetUint, Pow256, Signed32, Signed64;
  }

  // ---- Fields -------------------------------------------------------------------------

  lemma GetsBytes(r: In, s: seq<Byte>)
    requires Ahead(r, Counted(s)) && |s| < ABSENT
    ensures Within(r) && GetBytes(r) == (s, Past(r, 4 + |s|)) && GetNullString(r) == (Some(s), Past(r, 4 + |s|))
  {
    AheadSplit(r, LE(|s|, 4), s);
    Pow256Is();
    GetsNat(r, |s|, 4);
    hide LE, Pow256;
  }

  lemma GetsTag(r: In, v: Value)
    requires Ahead(r, [TagOf(v)] + Payload(v))
    ensures Within(r) && GetTag(r) == (TagOf(v), Past(r, 1)) && Ahead(Past(r, 1), Payload(v))
  {
    AheadSplit(r, [TagOf(v)], Payload(v));
    assert LE(TagOf(v), 1) == [TagOf(v)];
    Pow256Is();
    GetsNat(r, TagOf(v), 1);
  }

  lemma GetsValue(r: In, v: Value)
    requires Ahead(r, [TagOf(v)] + Payload(v)) && Encodable(Val(v))
    ensures Within(r) && GetValue(r) == (v, Past(r, 1 + |Payload(v)|))
  {
    GetsTag(r, v);
    Pow256Is();
    var u := Past(r, 1);
    hide LE, Pow256, GetUint, GetBytes, GetTag, Ahead, Signed64;
    match v
    case NullValue =>
    case IntValue(n) => GetsI64(u, n);
    case RealValue(bits) => GetsNat(u, bits, 8);
    case TextValue(s) => GetsBytes(u, s);
    case BlobValue(s) => GetsBytes(u, s);
  }

  lemma GetsBool(r: In, b: bool)
    requires Ahead(r, [if b then 1 else 0])
    ensures Within(r) && Get(BoolKind, r) == (Bool(b), Past(r, 1))
  {
    var n := if b then 1 else 0;
    assert LE(n, 1) == [n];
    Pow256Is();
    hide LE, Pow256, GetUint, Ahead;
    GetsNat(r, n, 1);
  }

  lemma GetsNumber(r: In, f: Field)
    requires Ahead(r, FieldBytes(f)) && Encodable(f) && (f.U8? || f.U16? || f.U32? || f.F64?)
    ensures Within(r) && Get(KindOf(f), r) == (f, Past(r, |FieldBytes(f)|))
  {
    Pow256Is();
    hide LE, Pow256, GetUint, Ahead;
    if f.U8? { GetsNat(r, f.u, 1); }
    else if f.U16? { GetsNat(r, f.u, 2); }
    else if f.U32? { GetsNat(r, f.u, 4); }
    else { GetsNat(r, f.bits, 8); }
  }

  /** A field is read back as it was written, whatever comes after it. */
  lemma GetsField(r: In, f: Field)
    requires Ahead(r, FieldBytes(f)) && Encodable(f)
    ensures Within(r) && Get(KindOf(f), r) == (f, Past(r, |FieldBytes(f)|))
  {
    Pow256Is();
    hide LE, Pow256, GetUint, GetBytes, GetNullString, GetValue, Ahead, Payload;
    match f
    case Bytes(s) => GetsBytes(r, s);
    case NullString(None) => GetsAbsent(r);
    case NullString(Some(s)) => GetsBytes(r, s);
    case Val(v) => GetsValue(r, v);
    case I32(n) => GetsI32(r, n);
    case I64(n) => GetsI64(r, n);
    case Bool(b) => GetsBool(r, b);
    case _ => GetsNumber(r, f);
  }

  lemma GetsAbsent(r: In)
    requires Ahead(r, LE(ABSENT, 4))
    ensures Within(r) && GetNullString(r) == (None, Past(r, 4))
  {
    Pow256Is();
    GetsNat(r, ABSENT, 4);
  }

  // ---- Whole payloads -----------------------------------------------------------------

  /** A field script read one field after the other, whatever happens. */
  function GetAll(ks: seq<Kind>, r: In): (seq<Field>, In)
    requires Within(r)
  {
    if ks == [] then ([], r)
    else
      var (f, t) := Get(ks[0], r);
      var (fs, u) := GetAll(ks[1..], t);
      ([f] + fs, u)
  }

  function Kinds(fs: seq<Field>): seq<Kind> { seq(|fs|, i requires 0 <= i < |fs| => KindOf(fs[i])) }

  predicate AllEncodable(fs: seq<Field>) { forall i :: 0 <= i < |fs| ==> Encodable(fs[i]) }

  lemma {:induction false} EncodeCons(f: Field, fs: seq<Field>)
    ensures Encode([f] + fs) == FieldBytes(f) + Encode(fs)
    decreases |fs|
  {
    hide FieldBytes;
    var all := [f] + fs;
    if fs == [] {
      assert all[..0] == [] && Encode(all) == [] + FieldBytes(f);
    } else {
      var n := |fs| - 1;
      assert all[..|all| - 1] == [f] + fs[..n] && all[|all| - 1] == fs[n];
      EncodeCons(f, fs[..n]);
      assert Encode(all) == FieldBytes(f) + Encode(fs[..n]) + FieldBytes(fs[n]);
    }
  }

  lemma KindsTail(fs: seq<Field>)
    requires fs != []
    ensures Kinds(fs)[1..] == Kinds(fs[1..])
  {}

  lemma FirstOf(fs: seq<Field>)
    requires fs != []
    ensures Encode(fs) == FieldBytes(fs[0]) + Encode(fs[1..]) && Kinds(fs)[1..] == Kinds(fs[1..])
  {
    KindsTail(fs);
    hide FieldBytes, Encode, Kinds;
    EncodeCons(fs[0], fs[1..]);
    assert fs == [fs[0]] + fs[1..];
  }

  /** Reading inverts writing: the same fields come back and exactly their bytes are used up. */
  lemma {:induction false} ReadsBack(r: In, fs: seq<Field>)
    requires Ahead(r, Encode(fs)) && AllEncodable(fs)
    ensures Within(r) && GetAll(Kinds(fs), r) == (fs, Past(r, |Encode(fs)|))
    decreases |fs|
  {
    hide FieldBytes, Get, Encodable;
    if fs != [] {
      var head := FieldBytes(fs[0]);
      FirstOf(fs);
      AheadSplit(r, head, Encode(fs[1..]));
      GetsField(r, fs[0]);
      ReadsBack(Past(r, |head|), fs[1..]);
      hide Encode, Ahead;
      assert fs == [fs[0]] + fs[1..];
    }
  }

  // ---- Truncation ---------------------------------------------------------------------

  lemma TakeCut(r: In, s: seq<Byte>)
    requires Cut(r, s)
    ensures Take(r, |s|) == (None, r.(err := Some(Short)))
  {}

  lemma CutBytes(r: In, s: seq<Byte>)
    requires Cut(r, Counted(s)) && |s| < ABSENT
    ensures Within(r) && GetBytes(r).1.err == Some(Short) && GetNullString(r).1.err == Some(Short)
  {
    CutSplit(r, LE(|s|, 4), s);
    Pow256Is();
    if Ahead(r, LE(|s|, 4)) && Cut(Past(r, 4), s) {
      GetsNat(r, |s|, 4);
      TakeCut(Past(r, 4), s);
      hide LE, Pow256, Ahead, Cut;
    } else {
      TakeCut(r, LE(|s|, 4));
    }
  }

  lemma CutValue(r: In, v: Value)
    requires Cut(r, [TagOf(v)] + Payload(v)) && Encodable(Val(v))
    ensures Within(r) && GetValue(r).1.err == Some(Short)
  {
    CutSplit(r, [TagOf(v)], Payload(v));
    if Ahead(r, [TagOf(v)]) && Cut(Past(r, 1), Payload(v)) {
      var u := Past(r, 1);
      TagAhead(r, v);
      hide LE, GetTag, Ahead;
      match v
      case IntValue(n) => TakeCut(u, LE(n, 8));
      case RealValue(bits) => TakeCut(u, LE(bits, 8));
      case TextValue(s) => CutBytes(u, s);
      case BlobValue(s) => CutBytes(u, s);
      case NullValue =>
    } else {
      TakeCut(r, [TagOf(v)]);
    }
  }

  lemma TagAhead(r: In, v: Value)
    requires Ahead(r, [TagOf(v)])
    ensures Within(r) && GetTag(r) == (TagOf(v), Past(r, 1))
  {
    assert LE(TagOf(v), 1) == [TagOf(v)];
    Pow256Is();
    GetsNat(r, TagOf(v), 1);
  }

  /** A field that is cut off anywhere fails with the sticky error. */
  lemma CutField(r: In, f: Field)
    requires Cut(r, FieldBytes(f)) && Encodable(f)
    ensures Within(r) && Get(KindOf(f), r).1.err == Some(Short)
  {
    match f
    case Bytes(s) => CutBytes(r, s); hide Cut, Counted;
    case NullString(None) => TakeCut(r, LE(ABSENT, 4));
    case NullString(Some(s)) => CutBytes(r, s); hide Cut, Counted;
    case Val(v) => CutValue(r, v); hide Cut, Payload;
    case _ => TakeCut(r, FieldBytes(f)); hide Cut, LE;
  }

  /** What a read returns when it fails before it starts. */
  function Zero(k: Kind): Field {
    match k
    case U8Kind => U8(0) case BoolKind => Bool(false) case U16Kind => U16(0) case U32Kind => U32(0)
    case I32Kind => I32(0) case I64Kind => I64(0) case F64Kind => F64(0)
    case BytesKind => Bytes([]) case NullStringKind => NullString(None) case ValKind => Val(NullValue)
  }

  function Zeros(ks: seq<Kind>): seq<Field> { if ks == [] then [] else [Zero(ks[0])] + Zeros(ks[1..]) }

  /** Errors are sticky: after the first failure every read returns a zero value, stays where it is
      and keeps that first error. */
  lemma {:induction false} FailedStays(ks: seq<Kind>, r: In)
    requires Within(r) && r.err.Some?
    ensures GetAll(ks, r) == (Zeros(ks), r)
    decreases |ks|
  {
    if ks != [] {
      assert Get(ks[0], r) == (Zero(ks[0]), r);
      FailedStays(ks[1..], r);
      hide Get, Zero;
    }
  }

  /** What comes of reading `fs` where only `room` bytes are left: the fields that are whole as they
      were written, something for the one that is cut, and zero values. */
  predicate CutShort(fs: seq<Field>, gs: seq<Field>, room: int) {
    fs != [] && gs != [] &&
    if |FieldBytes(fs[0])| <= room then
      gs[0] == fs[0] && CutShort(fs[1..], gs[1..], room - |FieldBytes(fs[0])|)
    else gs[1..] == Zeros(Kinds(fs)[1..])
  }

  /** Every truncation is caught: over any proper prefix of a payload the field script ends in the
      sticky error, without reading past the end. */
  lemma {:induction false} TruncationCaught(r: In, fs: seq<Field>)
    requires Cut(r, Encode(fs)) && AllEncodable(fs)
    ensures Within(r)
    ensures var (gs, t) := GetAll(Kinds(fs), r);
            t.err == Some(Short) && Within(t) && CutShort(fs, gs, |r.b| - r.i)
    decreases |fs|
  {
    hide FieldBytes, Get, Encodable, Zero;
    assert fs != [];
    var head := FieldBytes(fs[0]);
    FirstOf(fs);
    CutSplit(r, head, Encode(fs[1..]));
    if Ahead(r, head) && Cut(Past(r, |head|), Encode(fs[1..])) {
      GetsField(r, fs[0]);
      TruncationCaught(Past(r, |head|), fs[1..]);
      hide Ahead, Encode;
    } else {
      assert |r.b| - r.i < |head|;
      CutField(r, fs[0]);
      hide Cut, Encode;
      FailedStays(Kinds(fs)[1..], Get(KindOf(fs[0]), r).1);
    }
  }
}
