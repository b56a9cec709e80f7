/** Bytes fixed by a third implementation of the format: testdata/wire/vectors.json. */
module WireVectors {
  import opened Wrappers
  import opened Wire
  import WireTs

  lemma Two(n: int, a: seq<Byte>)
    requires a == [n % 256, n / 256 % 256]
    ensures LE(n, 1) == a[..1] && LE(n, 2) == a
  {
    assert LE(n / 256, 1) == [n / 256 % 256] + LE(n / 256 / 256, 0);
    assert LE(n, 2) == [n % 256] + LE(n / 256, 1);
  }

  lemma Four(n: int, a: seq<Byte>, b: seq<Byte>)
    requires a == [n % 256, n / 256 % 256] && b == [n / 0x1_0000 % 256, n / 0x100_0000 % 256]
    ensures LE(n, 4) == a + b
  {
    var m := n / 256 / 256;
    assert m == n / 0x1_0000 && m / 256 == n / 0x100_0000;
    Two(m, b);
    Step(n, 3);
    Step(n / 256, 2);
    hide LE;
  }

  lemma Step(n: int, w: nat)
    ensures LE(n, w + 1) == [n % 256] + LE(n / 256, w)
  {}

  lemma Eight(n: int, a: seq<Byte>, b: seq<Byte>)
    requires LE(n, 4) == a && LE(n / 0x1_0000_0000, 4) == b
    ensures LE(n, 8) == a + b
  {
    hide LE;
    Step(n, 7);
    Step(n / 256, 6);
    Step(n / 256 / 256, 5);
    Step(n / 256 / 256 / 256, 4);
    Step(n, 3);
    Step(n / 256, 2);
    Step(n / 256 / 256, 1);
    Step(n / 256 / 256 / 256, 0);
    assert n / 256 / 256 / 256 / 256 == n / 0x1_0000_0000;
    Nothing(n / 256 / 256 / 256 / 256);
  }

  lemma Nothing(n: int)
    ensures LE(n, 0) == []
  {}

  lemma Headers()
    ensures HeaderBytes(0x0b, 0, 1) == [1, 0x0b, 0, 0, 1, 0, 0, 0]
    ensures HeaderBytes(0x81, 0, 0xffff_ffff) == [1, 0x81, 0, 0, 0xff, 0xff, 0xff, 0xff]
    ensures HeaderBytes(0x85, 3, 7) == [1, 0x85, 3, 0, 7, 0, 0, 0]
  {
    hide LE;
    Two(VERSION, [1, 0]);
    Two(0x0b, [0x0b, 0]);
    Two(0x81, [0x81, 0]);
    Two(0x85, [0x85, 0]);
    Two(0, [0, 0]);
    Two(3, [3, 0]);
    Four(1, [1, 0], [0, 0]);
    Four(7, [7, 0], [0, 0]);
    Four(0xffff_ffff, [0xff, 0xff], [0xff, 0xff]);
  }

  lemma Numbers()
    ensures FieldBytes(U16(0xffff)) == [0xff, 0xff]
    ensures FieldBytes(U32(0xffff_fffe)) == [0xfe, 0xff, 0xff, 0xff]
    ensures FieldBytes(I32(-1)) == [0xff, 0xff, 0xff, 0xff]
    ensures FieldBytes(I32(-0x8000_0000)) == [0, 0, 0, 0x80]
    ensures FieldBytes(I64(-1)) == [0xff, 0xff, 0xff, 0xff, 0xff, 0xff, 0xff, 0xff]
    ensures FieldBytes(Val(IntValue(9007199254740993))) == [1, 1, 0, 0, 0, 0, 0, 0x20, 0]
  {
    hide LE;
    Two(0xffff, [0xff, 0xff]);
    Four(0xffff_fffe, [0xfe, 0xff], [0xff, 0xff]);
    Four(-1, [0xff, 0xff], [0xff, 0xff]);
    Four(-0x8000_0000, [0, 0], [0, 0x80]);
    Eight(-1, [0xff, 0xff] + [0xff, 0xff], [0xff, 0xff] + [0xff, 0xff]);
    Four(9007199254740993, [1, 0], [0, 0]);
    Four(0x20_0000, [0, 0], [0x20, 0]);
    Eight(9007199254740993, [1, 0] + [0, 0], [0, 0] + [0x20, 0]);
  }

  lemma Scalars()
    ensures FieldBytes(U8(255)) == [0xff] && FieldBytes(Bool(false)) == [0] && FieldBytes(Bool(true)) == [1]
    ensures FieldBytes(F64(0x3ff0_0000_0000_0000)) == [0, 0, 0, 0, 0, 0, 0xf0, 0x3f]
    ensures FieldBytes(Val(RealValue(0x8000_0000_0000_0000))) == [2, 0, 0, 0, 0, 0, 0, 0, 0x80]
  {
    hide LE;
    Two(255, [255, 0]);
    Four(0, [0, 0], [0, 0]);
    Four(0x3ff0_0000_0000_0000, [0, 0], [0, 0]);
    Four(0x3ff0_0000, [0, 0], [0xf0, 0x3f]);
    Eight(0x3ff0_0000_0000_0000, [0, 0] + [0, 0], [0, 0] + [0xf0, 0x3f]);
    Four(0x8000_0000_0000_0000, [0, 0], [0, 0]);
    Four(0x8000_0000, [0, 0], [0, 0x80]);
    Eight(0x8000_0000_0000_0000, [0, 0] + [0, 0], [0, 0] + [0, 0x80]);
  }

  lemma Values()
    ensures FieldBytes(Val(NullValue)) == [0]
    ensures FieldBytes(Val(TextValue([]))) == [3, 0, 0, 0, 0] && FieldBytes(Val(BlobValue([]))) == [4, 0, 0, 0, 0]
    ensures FieldBytes(Val(TextValue([0x61, 0xff, 0x62]))) == [3, 3, 0, 0, 0, 0x61, 0xff, 0x62]
    ensures FieldBytes(NullString(None)) == [0xff, 0xff, 0xff, 0xff] && FieldBytes(NullString(Some([]))) == [0, 0, 0, 0]
  {
    hide LE;
    Four(0, [0, 0], [0, 0]);
    Four(3, [3, 0], [0, 0]);
    Four(ABSENT, [0xff, 0xff], [0xff, 0xff]);
  }

  lemma Texts()
    ensures WireTs.Utf8([0x68, 0xe9, 0x2603]) == [0x68, 0xc3, 0xa9, 0xe2, 0x98, 0x83]
    ensures WireTs.Utf8([0xd83d, 0xde00]) == [0xf0, 0x9f, 0x98, 0x80]
  {
    assert [0x68, 0xe9, 0x2603][1..] == [0xe9, 0x2603] && [0xe9, 0x2603][1..] == [0x2603] && [0x2603][1..] == [];
    assert [0xd83d, 0xde00][2..] == [];
    assert WireTs.Utf8([0x2603]) == [0xe2, 0x98, 0x83];
    assert WireTs.Utf8([0xe9, 0x2603]) == [0xc3, 0xa9, 0xe2, 0x98, 0x83];
  }
}
