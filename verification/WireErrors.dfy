/** What the Reader of binding/wire/codec.go refuses, and what it does not. */
module WireErrors {
  import opened Wrappers
  import opened Wire
  import opened WireReading
  import WireGo

  /** Every byte up to 4 is a tag and no other is. */
  lemma TagsEnd(r: In)
    requires Within(r) && r.err.None? && r.i < |r.b|
    ensures var (t, u) := GetTag(r);
            t == r.b[r.i] && u.i == r.i + 1 && u.err == if t <= 4 then None else Some(BadTag(t))
  {
    assert r.b[r.i..r.i + 1] == [r.b[r.i]];
    assert UnLE([r.b[r.i]]) == r.b[r.i];
  }

  /** A value of a tag that is none cannot be skipped. */
  lemma SkipsNoOther(r: In, t: nat)
    requires Within(r) && r.err.None? && t > 4
    ensures Skip(t, r) == r.(err := Some(BadTag(t)))
  {}

  /** Any byte but 0 is true. */
  lemma NonZeroIsTrue(r: In)
    requires Within(r) && r.err.None? && r.i < |r.b|
    ensures Get(BoolKind, r) == (Bool(r.b[r.i] != 0), r.(i := r.i + 1))
  {
    assert r.b[r.i..r.i + 1] == [r.b[r.i]];
    assert UnLE([r.b[r.i]]) == r.b[r.i];
  }

  /** Four bytes of 0xff in front of a string: no string where there may be none, and an error where
      there must be one. */
  lemma AbsentOnlyWhereAllowed(r: In)
    requires Ahead(r, [0xff, 0xff, 0xff, 0xff])
    ensures Within(r) && GetNullString(r) == (None, Past(r, 4))
    ensures GetBytes(r) == ([], Past(r, 4).(err := Some(AbsentMarker)))
  {
    assert LE(ABSENT, 4) == [0xff, 0xff, 0xff, 0xff];
    Pow256Is();
    GetsNat(r, ABSENT, 4);
    hide LE, Pow256;
  }

  /** A frame has a header if and only if it is long enough for one and of this version. */
  lemma HeaderOrNot(b: seq<Byte>)
    ensures WireGo.ReadHeader(b).Some? <==> |b| >= 8 && b[0] == 1
    ensures match WireGo.ReadHeader(b)
            case None => true
            case Some((h, r)) => h.version == 1 && h.op == b[1] && r == In(b, 8, None)
  {}
}
