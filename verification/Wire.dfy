/** The wire format of src/wire.ts and binding/wire: what a list of fields is written as, and how
    Go's sticky Reader reads it back. */
module Wire {
  import opened Wrappers
  import opened Division

  type Byte = x: int | 0 <= x < 256

  // ---- Little-endian numbers ------------------------------------------------------

  function Pow256(w: nat): (p: nat)
    ensures p > 0
  {
    if w == 0 then 1 else 256 * Pow256(w - 1)
  }

  /** The low `w` bytes of `n` in two's complement, the least significant first. */
  function LE(n: int, w: nat): (s: seq<Byte>)
    ensures |s| == w
    decreases w
  {
    if w == 0 then [] else [n % 256] + LE(n / 256, w - 1)
  }

  function UnLE(s: seq<Byte>): nat {
    if s == [] then 0 else s[0] + 256 * UnLE(s[1..])
  }

  lemma SplitByte(n: int, p: nat)
    requires p > 0
    ensures n % (256 * p) == 256 * (n / 256 % p) + n % 256
  {
    var m := n / 256;
    var q, r := m / p, m % p;
    assert m == p * q + r;
    assert n == 256 * m + n % 256;
    assert 256 * (p * q) == (256 * p) * q;
    QuotientIs(n, 256 * p, q, 256 * r + n % 256);
  }

  lemma {:induction false} UnLEOfLE(n: int, w: nat)
    ensures UnLE(LE(n, w)) == n % Pow256(w)
    decreases w
  {
    if w > 0 {
      UnLEOfLE(n / 256, w - 1);
      assert LE(n, w)[1..] == LE(n / 256, w - 1);
      SplitByte(n, Pow256(w - 1));
    }
  }

  lemma Pow256Is()
    ensures Pow256(1) == 0x100 && Pow256(2) == 0x1_0000 && Pow256(4) == 0x1_0000_0000
    ensures Pow256(8) == 0x1_0000_0000_0000_0000
  {
    assert Pow256(3) == 256 * Pow256(2);
    assert Pow256(4) == 0x1_0000_0000;
    assert Pow256(6) == 256 * Pow256(5);
  }

  function Signed32(n: nat): int { if n < 0x8000_0000 then n else n - 0x1_0000_0000 }

  function Signed64(n: nat): int { if n < 0x8000_0000_0000_0000 then n else n - 0x1_0000_0000_0000_0000 }

  // ---- Fields ---------------------------------------------------------------------

  const ABSENT := 0xffff_ffff

  /** A value with its tag.  A REAL is its 64 bits; TEXT is bytes, which need not be UTF-8. */
  datatype Value =
    | NullValue | IntValue(n: int) | RealValue(bits: nat)
    | TextValue(bytes: seq<Byte>) | BlobValue(bytes: seq<Byte>)

  datatype Field =
    | U8(u: nat) | Bool(b: bool) | U16(u: nat) | U32(u: nat) | I32(n: int) | I64(n: int) | F64(bits: nat)
    | Bytes(bytes: seq<Byte>) | NullString(text: Option<seq<Byte>>) | Val(value: Value)

  datatype Kind =
    | U8Kind | BoolKind | U16Kind | U32Kind | I32Kind | I64Kind | F64Kind | BytesKind | NullStringKind | ValKind

  function KindOf(f: Field): Kind {
    match f
    case U8(_) => U8Kind case Bool(_) => BoolKind case U16(_) => U16Kind case U32(_) => U32Kind
    case I32(_) => I32Kind case I64(_) => I64Kind case F64(_) => F64Kind
    case Bytes(_) => BytesKind case NullString(_) => NullStringKind case Val(_) => ValKind
  }

  /** Ranges of the types, and lengths that the marker for an absent string does not stand for. */
  predicate Encodable(f: Field) {
    match f
    case U8(u) => u < 0x100
    case Bool(_) => true
    case U16(u) => u < 0x1_0000
    case U32(u) => u < 0x1_0000_0000
    case I32(n) => -0x8000_0000 <= n < 0x8000_0000
    case I64(n) => -0x8000_0000_0000_0000 <= n < 0x8000_0000_0000_0000
    case F64(bits) => bits < 0x1_0000_0000_0000_0000
    case Bytes(s) => |s| < ABSENT
    case NullString(None) => true
    case NullString(Some(s)) => |s| < ABSENT
    case Val(NullValue) => true
    case Val(IntValue(n)) => -0x8000_0000_0000_0000 <= n < 0x8000_0000_0000_0000
    case Val(RealValue(bits)) => bits < 0x1_0000_0000_0000_0000
    case Val(TextValue(s)) => |s| < ABSENT
    case Val(BlobValue(s)) => |s| < ABSENT
  }

  function Counted(s: seq<Byte>): seq<Byte> { LE(|s|, 4) + s }

  function TagOf(v: Value): Byte {
    match v
    case NullValue => 0 case IntValue(_) => 1 case RealValue(_) => 2 case TextValue(_) => 3 case BlobValue(_) => 4
  }

  function Payload(v: Value): seq<Byte> {
    match v
    case NullValue => []
    case IntValue(n) => LE(n, 8)
    case RealValue(bits) => LE(bits, 8)
    case TextValue(s) => Counted(s)
    case BlobValue(s) => Counted(s)
  }

  function FieldBytes(f: Field): seq<Byte> {
    match f
    case U8(u) => LE(u, 1)
    case Bool(b) => [if b then 1 else 0]
    case U16(u) => LE(u, 2)
    case U32(u) => LE(u, 4)
    case I32(n) => LE(n, 4)
    case I64(n) => LE(n, 8)
    case F64(bits) => LE(bits, 8)
    case Bytes(s) => Counted(s)
    case NullString(None) => LE(ABSENT, 4)
    case NullString(Some(s)) => Counted(s)
    case Val(v) => [TagOf(v)] + Payload(v)
  }

  function Encode(fs: seq<Field>): seq<Byte> {
    if fs == [] then [] else Encode(fs[..|fs| - 1]) + FieldBytes(fs[|fs| - 1])
  }

  const VERSION := 1

  function HeaderBytes(op: nat, flags: int, id: int): seq<Byte> {
    LE(VERSION, 1) + LE(op, 1) + LE(flags, 2) + LE(id, 4)
  }

  // ---- The sticky Reader ------------------------------------------------------------

  datatype Fault = Short | AbsentMarker | BadTag(t: nat)

  /** Go's Reader: the frame, the position, and the first failure. */
  datatype In = In(b: seq<Byte>, i: nat, err: Option<Fault>)

  predicate Within(r: In) { r.i <= |r.b| }

  function Fail(r: In, e: Fault): In { if r.err.Some? then r else r.(err := Some(e)) }

  function Take(r: In, n: nat): (Option<seq<Byte>>, In)
    requires Within(r)
  {
    if r.err.Some? then (None, r)
    else if |r.b| - r.i < n then (None, Fail(r, Short))
    else (Some(r.b[r.i..r.i + n]), r.(i := r.i + n))
  }

  function GetUint(r: In, w: nat): (nat, In)
    requires Within(r)
  {
    match Take(r, w)
    case (None, t) => (0, t)
    case (Some(s), t) => (UnLE(s), t)
  }

  function GetBytes(r: In): (seq<Byte>, In)
    requires Within(r)
  {
    var (n, t) := GetUint(r, 4);
    if t.err.Some? then ([], t)
    else if n == ABSENT then ([], Fail(t, AbsentMarker))
    else match Take(t, n)
      case (None, u) => ([], u)
      case (Some(s), u) => (s, u)
  }

  /** A string whose body is cut off counts as present, and empty. */
  function GetNullString(r: In): (Option<seq<Byte>>, In)
    requires Within(r)
  {
    var (n, t) := GetUint(r, 4);
    if t.err.Some? || n == ABSENT then (None, t)
    else match Take(t, n)
      case (None, u) => (Some([]), u)
      case (Some(s), u) => (Some(s), u)
  }

  function GetTag(r: In): (nat, In)
    requires Within(r)
  {
    var (t, u) := GetUint(r, 1);
    (t, if u.err.None? && t > 4 then Fail(u, BadTag(t)) else u)
  }

  /** decodeValue's reads: the tag, then what it stands for. */
  function GetValue(r: In): (Value, In)
    requires Within(r)
  {
    var (t, u) := GetTag(r);
    if t == 1 then var (n, v) := GetUint(u, 8); (IntValue(Signed64(n)), v)
    else if t == 2 then var (n, v) := GetUint(u, 8); (RealValue(n), v)
    else if t == 3 then var (s, v) := GetBytes(u); (TextValue(s), v)
    else if t == 4 then var (s, v) := GetBytes(u); (BlobValue(s), v)
    else (NullValue, u)
  }

  /** No read moves back, or past the end of the frame. */
  function Get(k: Kind, r: In): (g: (Field, In))
    requires Within(r)
    ensures Within(g.1) && r.i <= g.1.i && g.1.b == r.b
  {
    match k
    case U8Kind => var (n, t) := GetUint(r, 1); (U8(n), t)
    case BoolKind => var (n, t) := GetUint(r, 1); (Bool(n != 0), t)
    case U16Kind => var (n, t) := GetUint(r, 2); (U16(n), t)
    case U32Kind => var (n, t) := GetUint(r, 4); (U32(n), t)
    case I32Kind => var (n, t) := GetUint(r, 4); (I32(Signed32(n)), t)
    case I64Kind => var (n, t) := GetUint(r, 8); (I64(Signed64(n)), t)
    case F64Kind => var (n, t) := GetUint(r, 8); (F64(n), t)
    case BytesKind => var (s, t) := GetBytes(r); (Bytes(s), t)
    case NullStringKind => var (s, t) := GetNullString(r); (NullString(s), t)
    case ValKind => var (v, t) := GetValue(r); (Val(v), t)
  }

  /** Skip: past a value of a tag, without decoding it. */
  function Skip(t: nat, r: In): In
    requires Within(r)
  {
    if t == 0 then r
    else if t == 1 || t == 2 then Take(r, 8).1
    else if t == 3 || t == 4 then var (n, u) := GetUint(r, 4); Take(u, n).1
    else Fail(r, BadTag(t))
  }
}
