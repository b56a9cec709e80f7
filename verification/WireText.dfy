/** The UTF-8 that the FrameWriter writes, against a reader of RFC 3629. */
module WireText {
  import opened Wrappers
  import opened Wire
  import opened WireTs

  predicate Continues(b: Byte) { 0x80 <= b < 0xc0 }

  /** The first character of a byte string, and what follows it (RFC 3629, sections 3 and 4): the lead
      byte says how many bytes there are; a character must be in its shortest form and no surrogate. */
  function Character(b: seq<Byte>): Option<(nat, seq<Byte>)> {
    if |b| >= 1 && b[0] < 0x80 then Some((b[0], b[1..]))
    else if |b| >= 2 && 0xc0 <= b[0] < 0xe0 && Continues(b[1]) then
      var p := Joined([b[0] - 0xc0, b[1] - 0x80]);
      if p >= 0x80 then Some((p, b[2..])) else None
    else if |b| >= 3 && 0xe0 <= b[0] < 0xf0 && Continues(b[1]) && Continues(b[2]) then
      var p := Joined([b[0] - 0xe0, b[1] - 0x80, b[2] - 0x80]);
      if p >= 0x800 && !(0xd800 <= p < 0xe000) then Some((p, b[3..])) else None
    else if |b| >= 4 && 0xf0 <= b[0] < 0xf8 && Continues(b[1]) && Continues(b[2]) && Continues(b[3]) then
      var p := Joined([b[0] - 0xf0, b[1] - 0x80, b[2] - 0x80, b[3] - 0x80]);
      if 0x1_0000 <= p < 0x11_0000 then Some((p, b[4..])) else None
    else None
  }

  /** Six bits from each byte. */
  function Joined(s: seq<nat>): nat { if s == [] then 0 else 64 * Joined(s[..|s| - 1]) + s[|s| - 1] }

  lemma JoinedIs(a: nat, b: nat, c: nat, d: nat)
    ensures Joined([a, b]) == 64 * a + b && Joined([a, b, c]) == 4096 * a + 64 * b + c
    ensures Joined([a, b, c, d]) == 262144 * a + 4096 * b + 64 * c + d
  {
    assert [a, b, c, d][..3] == [a, b, c] && [a, b, c][..2] == [a, b] && [a, b][..1] == [a] && [a][..0] == [];
    assert Joined([]) == 0 && Joined([a]) == a;
    assert Joined([a, b]) == 64 * a + b;
    assert Joined([a, b, c]) == 64 * Joined([a, b]) + c;
    assert Joined([a, b, c, d]) == 64 * Joined([a, b, c]) + d;
  }

  function Characters(b: seq<Byte>): Option<seq<nat>>
    decreases |b|
  {
    if b == [] then Some([])
    else match Character(b)
      case None => None
      case Some((p, rest)) =>
        if |rest| < |b| then
          match Characters(rest) { case None => None case Some(ps) => Some([p] + ps) }
        else None
  }

  /** A code point as a character: a surrogate is none, and U+FFFD stands for it. */
  function Scalar(p: nat): nat { if 0xd800 <= p < 0xe000 then 0xfffd else p }

  /** The characters of a JavaScript string: a high and a low surrogate are one beyond the basic plane. */
  function ScalarsOf(v: seq<Unit>): seq<nat> {
    if v == [] then []
    else if |v| >= 2 && 0xd800 <= v[0] < 0xdc00 && 0xdc00 <= v[1] < 0xe000 then
      var hi: int, lo: int := v[0], v[1];
      [0x1_0000 + (hi - 0xd800) * 1024 + (lo - 0xdc00)] + ScalarsOf(v[2..])
    else [Scalar(v[0])] + ScalarsOf(v[1..])
  }

  lemma TwoParts(p: int)
    requires 0x80 <= p < 0x800
    ensures p / 64 * 64 + p % 64 == p && 2 <= p / 64 < 32 && 0 <= p % 64 < 64
  {}

  lemma ThreeParts(p: int)
    requires 0x800 <= p < 0x1_0000
    ensures p / 4096 * 4096 + p / 64 % 64 * 64 + p % 64 == p
    ensures 0 <= p / 4096 < 16 && 0 <= p / 64 % 64 < 64 && 0 <= p % 64 < 64
  {
    assert p / 64 == p / 4096 * 64 + p / 64 % 64;
  }

  lemma FourParts(p: int)
    requires 0x1_0000 <= p < 0x11_0000
    ensures p / 262144 * 262144 + p / 4096 % 64 * 4096 + p / 64 % 64 * 64 + p % 64 == p
    ensures 0 <= p / 262144 < 5 && 0 <= p / 4096 % 64 < 64 && 0 <= p / 64 % 64 < 64 && 0 <= p % 64 < 64
  {
    assert p / 4096 == p / 262144 * 64 + p / 4096 % 64;
    assert p / 64 == p / 4096 * 64 + p / 64 % 64;
  }

  lemma TwoBytes(p: nat, rest: seq<Byte>)
    requires 0x80 <= p < 0x800
    ensures Character(PointBytes(p) + rest) == Some((p, rest)) && |PointBytes(p)| == 2
  {
    TwoParts(p);
    JoinedIs(p / 64, p % 64, 0, 0);
    hide Joined;
    assert (PointBytes(p) + rest)[2..] == rest;
  }

  lemma ThreeBytes(p: nat, rest: seq<Byte>)
    requires 0x800 <= p < 0x1_0000
    ensures Character(PointBytes(p) + rest) == Some((Scalar(p), rest)) && |PointBytes(p)| == 3
  {
    ThreeParts(p);
    JoinedIs(p / 4096, p / 64 % 64, p % 64, 0);
    JoinedIs(15, 63, 61, 0);
    hide Joined;
    assert (PointBytes(p) + rest)[3..] == rest;
  }

  lemma FourBytes(p: nat, rest: seq<Byte>)
    requires 0x1_0000 <= p < 0x11_0000
    ensures Character(PointBytes(p) + rest) == Some((p, rest)) && |PointBytes(p)| == 4
  {
    FourParts(p);
    JoinedIs(p / 262144, p / 4096 % 64, p / 64 % 64, p % 64);
    hide Joined;
    assert (PointBytes(p) + rest)[4..] == rest;
  }

  /** A code point is written as one character, that code point's. */
  lemma PointIsOne(p: nat, rest: seq<Byte>)
    requires p < 0x11_0000
    ensures Character(PointBytes(p) + rest) == Some((Scalar(p), rest)) && |PointBytes(p)| >= 1
  {
    if p < 0x80 { assert ([p] + rest)[1..] == rest; }
    else if p < 0x800 { TwoBytes(p, rest); }
    else if p < 0x1_0000 { ThreeBytes(p, rest); }
    else { FourBytes(p, rest); }
    hide Joined, Continues;
  }

  lemma CharactersMore(p: nat, rest: seq<Byte>)
    requires p < 0x11_0000
    ensures Characters(PointBytes(p) + rest) ==
              match Characters(rest) { case None => None case Some(ps) => Some([Scalar(p)] + ps) }
  {
    PointIsOne(p, rest);
    hide PointBytes, Character;
  }

  /** What the FrameWriter writes for a string is read as its characters. */
  lemma {:induction false} TextReadsBack(v: seq<Unit>)
    ensures Characters(Utf8(v)) == Some(ScalarsOf(v))
  {
    if v != [] {
      if |v| >= 2 && 0xd800 <= v[0] < 0xdc00 && 0xdc00 <= v[1] < 0xe000 {
        var hi: int, lo: int := v[0], v[1];
        TextReadsBack(v[2..]);
        CharactersMore(0x1_0000 + (hi - 0xd800) * 0x400 + (lo - 0xdc00), Utf8(v[2..]));
      } else {
        TextReadsBack(v[1..]);
        CharactersMore(v[0], Utf8(v[1..]));
      }
      hide Characters, PointBytes;
    }
  }
}
