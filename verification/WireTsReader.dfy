/** The worker's reader, FrameReader in src/wire.ts: it throws where Go's Reader records an error,
    and otherwise reads the same. */
module WireTsReader {
  import opened Wrappers
  import opened Wire

  /** A read that returns a value and the position after it, or throws. */
  type Got<T> = Option<(T, nat)>

  function Need(b: seq<Byte>, i: nat, n: nat): Got<seq<Byte>> {
    if |b| - i < n then None else Some((b[i..i + n], i + n))
  }

  function Uint(b: seq<Byte>, i: nat, w: nat): Got<nat> {
    match Need(b, i, w)
    case None => None
    case Some((s, j)) => Some((UnLE(s), j))
  }

  function ByteString(b: seq<Byte>, i: nat): Got<seq<Byte>> {
    match Uint(b, i, 4)
    case None => None
    case Some((n, j)) => if n == ABSENT then None else Need(b, j, n)
  }

  function Nullable(b: seq<Byte>, i: nat): Got<Option<seq<Byte>>> {
    match Uint(b, i, 4)
    case None => None
    case Some((n, j)) =>
      if n == ABSENT then Some((None, j))
      else match Need(b, j, n)
        case None => None
        case Some((s, k)) => Some((Some(s), k))
  }

  function TagAt(b: seq<Byte>, i: nat): Got<nat> {
    match Uint(b, i, 1)
    case None => None
    case Some((t, j)) => if t > 4 then None else Some((t, j))
  }

  /** bindArgs' reads of one value. */
  function ValueAt(b: seq<Byte>, i: nat): Got<Value> {
    match TagAt(b, i)
    case None => None
    case Some((t, j)) =>
      if t == 0 then Some((NullValue, j))
      else if t == 1 then (match Uint(b, j, 8) case None => None case Some((n, k)) => Some((IntValue(Signed64(n)), k)))
      else if t == 2 then (match Uint(b, j, 8) case None => None case Some((n, k)) => Some((RealValue(n), k)))
      else match ByteString(b, j)
        case None => None
        case Some((s, k)) => Some((if t == 3 then TextValue(s) else BlobValue(s), k))
  }

  function FieldAt(k: Kind, b: seq<Byte>, i: nat): Got<Field> {
    match k
    case U8Kind => (match Uint(b, i, 1) case None => None case Some((n, j)) => Some((U8(n), j)))
    case BoolKind => (match Uint(b, i, 1) case None => None case Some((n, j)) => Some((Bool(n != 0), j)))
    case U16Kind => (match Uint(b, i, 2) case None => None case Some((n, j)) => Some((U16(n), j)))
    case U32Kind => (match Uint(b, i, 4) case None => None case Some((n, j)) => Some((U32(n), j)))
    case I32Kind => (match Uint(b, i, 4) case None => None case Some((n, j)) => Some((I32(Signed32(n)), j)))
    case I64Kind => (match Uint(b, i, 8) case None => None case Some((n, j)) => Some((I64(Signed64(n)), j)))
    case F64Kind => (match Uint(b, i, 8) case None => None case Some((n, j)) => Some((F64(n), j)))
    case BytesKind => (match ByteString(b, i) case None => None case Some((s, j)) => Some((Bytes(s), j)))
    case NullStringKind => (match Nullable(b, i) case None => None case Some((s, j)) => Some((NullString(s), j)))
    case ValKind => (match ValueAt(b, i) case None => None case Some((v, j)) => Some((Val(v), j)))
  }

  /** What Go's read makes of the same bytes: the value, unless there is an error. */
  function Sticky<T>(g: (T, In)): Got<T> { if g.1.err.Some? then None else Some((g.0, g.1.i)) }

  lemma SameUint(r: In, w: nat)
    requires Within(r) && r.err.None?
    ensures Uint(r.b, r.i, w) == Sticky(GetUint(r, w))
    ensures GetUint(r, w).1.err.None? ==> GetUint(r, w).1 == r.(i := r.i + w)
  {
    hide UnLE;
  }

  lemma SameBytes(r: In)
    requires Within(r) && r.err.None?
    ensures ByteString(r.b, r.i) == Sticky(GetBytes(r)) && Nullable(r.b, r.i) == Sticky(GetNullString(r))
  {
    SameUint(r, 4);
    hide UnLE, GetUint, Uint;
  }

  lemma SameValue(r: In)
    requires Within(r) && r.err.None?
    ensures ValueAt(r.b, r.i) == Sticky(GetValue(r))
  {
    SameUint(r, 1);
    var (t, u) := GetTag(r);
    if u.err.None? {
      SameUint(u, 8);
      SameBytes(u);
    }
    hide GetUint, Uint, GetBytes, ByteString, Nullable, Signed64;
  }

  /** The two readers agree on every frame, well-formed or not: the worker's throws exactly when
      Go's records an error, and otherwise both return the same field and stand at the same place. */
  lemma ReadersAgree(k: Kind, r: In)
    requires Within(r) && r.err.None?
    ensures FieldAt(k, r.b, r.i) == Sticky(Get(k, r))
  {
    SameUint(r, 1);
    SameUint(r, 2);
    SameUint(r, 4);
    SameUint(r, 8);
    SameBytes(r);
    SameValue(r);
    hide GetUint, Uint, GetBytes, ByteString, GetNullString, Nullable, GetValue, ValueAt, Signed32, Signed64;
  }

  class FrameReader {
    const buf: seq<Byte>
    var i: nat

    constructor (buf: seq<Byte>, start: nat)
      ensures this.buf == buf && i == start
    {
      this.buf, i := buf, start;
    }

    method NeedN(n: nat) returns (s: Option<seq<Byte>>)
      requires i <= |buf|
      modifies this
      ensures i <= |buf| && Answers(s, Need(buf, old(i), n))
    {
      if |buf| - i < n { return None; }
      var at := i;
      i := i + n;
      s := Some(buf[at..i]);
    }

    /** A method that returned `s`, or threw, read what `g` says. */
    predicate Answers<T(==)>(s: Option<T>, g: Got<T>)
      reads this
    {
      match g
      case None => s == None
      case Some((v, j)) => s == Some(v) && i == j
    }

    method ReadUint(w: nat) returns (n: Option<nat>)
      requires i <= |buf|
      modifies this
      ensures i <= |buf| && Answers(n, Uint(buf, old(i), w))
    {
      var s := NeedN(w);
      n := if s.Some? then Some(UnLE(s.value)) else None;
    }

    method ReadBytes() returns (s: Option<seq<Byte>>)
      requires i <= |buf|
      modifies this
      ensures i <= |buf| && Answers(s, ByteString(buf, old(i)))
    {
      var n := ReadUint(4);
      if n.None? || n.value == ABSENT { return None; }
      s := NeedN(n.value);
    }

    method ReadNullable() returns (s: Option<Option<seq<Byte>>>)
      requires i <= |buf|
      modifies this
      ensures i <= |buf| && Answers(s, Nullable(buf, old(i)))
    {
      var n := ReadUint(4);
      if n.None? { return None; }
      if n.value == ABSENT { return Some(None); }
      var t := NeedN(n.value);
      s := if t.Some? then Some(Some(t.value)) else None;
    }

    method ReadValue() returns (v: Option<Value>)
      requires i <= |buf|
      modifies this
      ensures i <= |buf| && Answers(v, ValueAt(buf, old(i)))
    {
      var t := ReadUint(1);
      if t.None? || t.value > 4 { return None; }
      match t.value {
        case 0 => v := Some(NullValue);
        case 1 => var n := ReadUint(8); v := if n.Some? then Some(IntValue(Signed64(n.value))) else None;
        case 2 => var n := ReadUint(8); v := if n.Some? then Some(RealValue(n.value)) else None;
        case 3 => var s := ReadBytes(); v := if s.Some? then Some(TextValue(s.value)) else None;
        case _ => var s := ReadBytes(); v := if s.Some? then Some(BlobValue(s.value)) else None;
      }
    }
  }
}
