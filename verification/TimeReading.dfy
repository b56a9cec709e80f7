/** What parseTimeString makes of what formatTimeString writes. */
module TimeReading {
  import opened Wrappers
  import opened Calendar
  import opened TimeText

  // ---- Digits -------------------------------------------------------------------

  function Pow10(n: nat): nat { if n == 0 then 1 else 10 * Pow10(n - 1) }

  lemma {:induction false} PaddedIs(n: nat, width: nat)
    ensures AllDigits(Padded(n, width)) && Value(Padded(n, width)) == n && |Padded(n, width)| >= 1
    ensures width >= 1 ==> |Padded(n, width)| >= width && (|Padded(n, width)| == width <==> n < Pow10(width))
  {
    var s := Padded(n, width);
    if n < 10 && width <= 1 {
      assert s[..0] == "";
    } else {
      var w := if width == 0 then 0 else width - 1;
      PaddedIs(n / 10, w);
      assert s[..|s| - 1] == Padded(n / 10, w);
      if width == 1 { assert Pow10(1) == 10; }
    }
  }

  lemma FieldText(f: Field, n: int)
    requires 0 <= n < (if f == Year then 10000 else 100)
    ensures var s := IntText(n, Width(f)); |s| == Width(f) && AllDigits(s) && Value(s) == n
  {
    PaddedIs(n, Width(f));
    assert Pow10(2) == 100 && Pow10(4) == 10000;
  }

  lemma ReadsNumber(f: Field, n: int, rest: string)
    requires 0 <= n < (if f == Year then 10000 else 100)
    ensures ReadNumber(f, IntText(n, Width(f)) + rest) == Some((n, rest))
  {
    FieldText(f, n);
    var s := IntText(n, Width(f));
    assert (s + rest)[..Width(f)] == s && (s + rest)[Width(f)..] == rest;
    hide IntText;
  }

  predicate DigitFirst(s: string) { s != "" && IsDigit(s[0]) }

  lemma {:induction false} RunOf(s: string, rest: string)
    requires AllDigits(s) && !DigitFirst(rest)
    ensures DigitRun(s + rest) == |s|
  {
    if s == "" {
      assert s + rest == rest;
    } else {
      assert (s + rest)[1..] == s[1..] + rest;
      RunOf(s[1..], rest);
    }
  }

  lemma ReadsFraction(nano: nat, rest: string, c: Civil)
    requires nano < SECOND && !DigitFirst(rest)
    ensures ReadPiece(Fraction, ['.'] + Padded(nano, 9) + rest, c) == Some((c.(nano := nano), rest))
  {
    PaddedIs(nano, 9);
    assert Pow10(9) == SECOND;
    var p := Padded(nano, 9);
    var s := ['.'] + p + rest;
    RunOf(p, rest);
    hide Padded;
    assert s[1..] == p + rest && s[1..1 + 9] == p && s[1 + 9..] == rest;
  }

  // ---- Pieces -------------------------------------------------------------------

  lemma {:induction false} TextSplit(a: seq<Piece>, b: seq<Piece>, c: Civil)
    ensures PiecesText(a + b, c) == PiecesText(a, c) + PiecesText(b, c)
  {
    if a == [] {
      assert a + b == b;
    } else {
      assert (a + b)[1..] == a[1..] + b;
      TextSplit(a[1..], b, c);
    }
  }

  lemma {:induction false} ReadSplit(a: seq<Piece>, b: seq<Piece>, s: string, c: Civil)
    ensures ReadPieces(a + b, s, c) ==
              match ReadPieces(a, s, c) { case Some((d, rest)) => ReadPieces(b, rest, d) case None => None }
  {
    if a == [] {
      assert a + b == b;
    } else {
      assert (a + b)[1..] == a[1..] + b;
      match ReadPiece(a[0], s, c)
      case Some((d, rest)) => ReadSplit(a[1..], b, rest, d);
      case None =>
    }
  }

  /** `d` with the fields that `ps` mentions taken from `c`. */
  function Fill(ps: seq<Piece>, c: Civil, d: Civil): Civil {
    Civil(if Part(Year) in ps then c.year else d.year,
          if Part(Month) in ps then c.month else d.month,
          if Part(Day) in ps then c.day else d.day,
          if Part(Hour) in ps then c.hour else d.hour,
          if Part(Minute) in ps then c.minute else d.minute,
          if Part(Second) in ps then c.second else d.second,
          d.nano)
  }

  predicate Plain(ps: seq<Piece>) {
    forall i :: 0 <= i < |ps| ==> ps[i] != Fraction && ps[i] != Lit(' ')
  }

  predicate FourDigitYear(c: Civil) { 0 <= c.year <= 9999 }

  lemma ReadsPiece(p: Piece, c: Civil, d: Civil, rest: string)
    requires ValidCivil(c) && FourDigitYear(c) && p != Fraction && p != Lit(' ')
    ensures ReadPiece(p, PieceText(p, c) + rest, d) == Some((Fill([p], c, d), rest))
  {
    match p
    case Lit(_) =>
    case Part(f) =>
      assert DaysIn(c.year, c.month) <= 31;
      ReadsNumber(f, FieldOf(f, c), rest);
      hide IntText, ReadNumber, ValidDate;
  }

  /** A layout without a fraction reads back what it writes, and leaves what follows. */
  lemma {:induction false} ReadsPieces(ps: seq<Piece>, c: Civil, d: Civil, rest: string)
    requires ValidCivil(c) && FourDigitYear(c) && Plain(ps)
    ensures ReadPieces(ps, PiecesText(ps, c) + rest, d) == Some((Fill(ps, c, d), rest))
  {
    if ps == [] {
      assert PiecesText(ps, c) + rest == rest;
    } else {
      var more := PiecesText(ps[1..], c) + rest;
      assert PiecesText(ps, c) + rest == PieceText(ps[0], c) + more;
      ReadsPiece(ps[0], c, d, more);
      var e := Fill([ps[0]], c, d);
      ReadsPieces(ps[1..], c, e, rest);
      assert ps == [ps[0]] + ps[1..];
      assert Fill(ps[1..], c, e) == Fill(ps, c, d);
    }
  }

  /** Whatever can follow a date, and then a separator. */
  lemma AfterDate(ps: seq<Piece>, c: Civil, rest: string)
    requires ValidCivil(c) && FourDigitYear(c)
    ensures ReadPieces(DATE + ps, PiecesText(DATE, c) + rest, BLANK) ==
              ReadPieces(ps, rest, Civil(c.year, c.month, c.day, 0, 0, 0, 0))
  {
    ReadsPieces(DATE, c, BLANK, rest);
    ReadSplit(DATE, ps, PiecesText(DATE, c) + rest, BLANK);
    assert DATE[0] == Part(Year) && DATE[2] == Part(Month) && DATE[4] == Part(Day);
    assert Fill(DATE, c, BLANK) == Civil(c.year, c.month, c.day, 0, 0, 0, 0);
    hide PiecesText, ReadPieces, Fill;
  }

  const MOMENT := DATE + [Lit('T')] + SECONDS

  /** A date, a 'T' and a clock to the second. */
  function MomentText(c: Civil): string { PiecesText(MOMENT, c) }

  lemma MomentFills(c: Civil)
    ensures Fill(MOMENT, c, BLANK) == c.(nano := 0) && Plain(MOMENT)
  {
    assert MOMENT[0] == Part(Year) && MOMENT[2] == Part(Month) && MOMENT[4] == Part(Day);
    assert MOMENT[6] == Part(Hour) && MOMENT[8] == Part(Minute) && MOMENT[10] == Part(Second);
  }

  /** The same after a whole layout of date and seconds; `r` is what follows the seconds. */
  lemma AfterSeconds(ps: seq<Piece>, c: Civil, r: string)
    requires ValidCivil(c) && FourDigitYear(c)
    ensures ReadPieces(MOMENT + ps, PiecesText(MOMENT, c) + r, BLANK) == ReadPieces(ps, r, c.(nano := 0))
  {
    MomentFills(c);
    hide PiecesText, ReadPieces, Fill, Plain, ValidCivil;
    ReadsPieces(MOMENT, c, BLANK, r);
    ReadSplit(MOMENT, ps, PiecesText(MOMENT, c) + r, BLANK);
  }

  // ---- Layouts ------------------------------------------------------------------

  /** No layout with a space reads a 'T'. */
  lemma SpaceFails(ps: seq<Piece>, zone: bool, c: Civil, rest: string, loc: Zone)
    requires ValidCivil(c) && FourDigitYear(c) && rest != "" && rest[0] == 'T'
    ensures ParseLayout(Layout(DATE + [Lit(' ')] + ps, zone), PiecesText(DATE, c) + rest, loc) == None
  {
    assert DATE + [Lit(' ')] + ps == DATE + ([Lit(' ')] + ps);
    AfterDate([Lit(' ')] + ps, c, rest);
  }

  /** A shorter layout leaves something over. */
  lemma ShorterFails(a: seq<Piece>, b: seq<Piece>, c: Civil, r: string, loc: Zone)
    requires ValidCivil(c) && FourDigitYear(c) && Plain(a) && b != [] && b[0].Lit?
    ensures ParseLayout(Layout(a, false), PiecesText(a + b, c) + r, loc) == None
  {
    TextSplit(a, b, c);
    var more := PiecesText(b, c) + r;
    assert PiecesText(a + b, c) + r == PiecesText(a, c) + more;
    assert |PiecesText(b, c)| >= 1;
    ReadsPieces(a, c, BLANK, more);
    hide PiecesText, ReadPieces, ReadZone, ValidDate, WallOf, NaiveInstant, Fill, Plain;
  }

  lemma ShortFails(c: Civil, r: string, loc: Zone)
    requires ValidCivil(c) && FourDigitYear(c)
    ensures ParseLayout(Layout(DATE, false), MomentText(c) + r, loc) == None
    ensures ParseLayout(Layout(DATE + [Lit('T')] + MINUTES, false), MomentText(c) + r, loc) == None
  {
    hide PiecesText, ParseLayout;
    assert MOMENT == DATE + ([Lit('T')] + SECONDS);
    ShorterFails(DATE, [Lit('T')] + SECONDS, c, r, loc);
    assert MOMENT == DATE + [Lit('T')] + MINUTES + [Lit(':'), Part(Second)];
    ShorterFails(DATE + [Lit('T')] + MINUTES, [Lit(':'), Part(Second)], c, r, loc);
  }

  /** What an instant is read as, once the clock has been read and `tail` is left. */
  function Settle(c: Civil, tail: string, loc: Zone): Option<int>
    requires ValidCivil(c)
  {
    match ReadZone(tail)
    case Some((offset, "")) => Some(WallOf(c) - Nanos(offset))
    case _ => if tail == "" then Some(NaiveInstant(WallOf(c), loc)) else None
  }

  lemma FullLayout()
    ensures DATE + [Lit('T')] + CLOCK == MOMENT + [Fraction]
  {}

  lemma FullLayouts(c: Civil, nano: nat, r: string, tail: string, loc: Zone)
    requires ValidCivil(c) && FourDigitYear(c) && nano < SECOND
    requires ReadPiece(Fraction, r, c.(nano := 0)) == Some((c.(nano := nano), tail))
    ensures var text := MomentText(c) + r;
            var e := c.(nano := nano);
            && ParseLayout(Layout(DATE + [Lit('T')] + CLOCK, true), text, loc) ==
                 (match ReadZone(tail) { case Some((offset, "")) => Some(WallOf(e) - Nanos(offset)) case _ => None })
            && ParseLayout(Layout(DATE + [Lit('T')] + CLOCK, false), text, loc) ==
                 (if tail == "" then Some(NaiveInstant(WallOf(e), loc)) else None)
  {
    AfterSeconds([Fraction], c, r);
    FullLayout();
    assert ReadPieces([Fraction], r, c.(nano := 0)) == Some((c.(nano := nano), tail)) by {
      hide PiecesText, ParseLayout;
    }
    hide PiecesText, ReadPieces, ReadPiece, ReadZone, WallOf;
  }

  lemma SpacesFail(c: Civil, r: string, loc: Zone)
    requires ValidCivil(c) && FourDigitYear(c)
    ensures ParseLayout(LAYOUTS[1], MomentText(c) + r, loc) == None
    ensures ParseLayout(LAYOUTS[3], MomentText(c) + r, loc) == None
    ensures ParseLayout(LAYOUTS[5], MomentText(c) + r, loc) == None
  {
    var more := [Lit('T')] + SECONDS;
    assert MOMENT == DATE + more;
    TextSplit(DATE, more, c);
    assert MomentText(c) + r == PiecesText(DATE, c) + (PiecesText(more, c) + r);
    assert PiecesText(more, c) == ['T'] + PiecesText(more[1..], c);
    hide PiecesText, ParseLayout;
    SpaceFails(CLOCK, true, c, PiecesText(more, c) + r, loc);
    SpaceFails(CLOCK, false, c, PiecesText(more, c) + r, loc);
    SpaceFails(MINUTES, false, c, PiecesText(more, c) + r, loc);
  }

  lemma InOrder(s: string, loc: Zone)
    ensures FirstMatch(LAYOUTS, s, loc) ==
              FirstOf(ParseLayout(LAYOUTS[0], s, loc), ParseLayout(LAYOUTS[1], s, loc), ParseLayout(LAYOUTS[2], s, loc),
                      ParseLayout(LAYOUTS[3], s, loc), ParseLayout(LAYOUTS[4], s, loc), ParseLayout(LAYOUTS[5], s, loc),
                      ParseLayout(LAYOUTS[6], s, loc))
  {
    forall k | 0 <= k < 7
      ensures FirstMatch(LAYOUTS[k..], s, loc) ==
                match ParseLayout(LAYOUTS[k], s, loc)
                case Some(t) => Some(t)
                case None => FirstMatch(LAYOUTS[k + 1..], s, loc)
    {
      assert LAYOUTS[k..][0] == LAYOUTS[k] && LAYOUTS[k..][1..] == LAYOUTS[k + 1..];
    }
    assert LAYOUTS[0..] == LAYOUTS && FirstMatch(LAYOUTS[7..], s, loc) == None;
    hide ParseLayout;
  }

  function FirstOf(a: Option<int>, b: Option<int>, c: Option<int>, d: Option<int>, e: Option<int>, f: Option<int>,
                   g: Option<int>): Option<int> {
    if a.Some? then a else if b.Some? then b else if c.Some? then c else if d.Some? then d
    else if e.Some? then e else if f.Some? then f else g
  }

  /** What the first matching layout makes of a date, a 'T', a clock, and what follows it. */
  lemma FirstMatchIs(c: Civil, nano: nat, r: string, tail: string, loc: Zone)
    requires ValidCivil(c) && FourDigitYear(c) && nano < SECOND
    requires ReadPiece(Fraction, r, c.(nano := 0)) == Some((c.(nano := nano), tail))
    ensures FirstMatch(LAYOUTS, MomentText(c) + r, loc) == Settle(c.(nano := nano), tail, loc)
  {
    hide PiecesText, ParseLayout, ReadZone, WallOf, ReadPiece, FirstMatch;
    FullLayouts(c, nano, r, tail, loc);
    ShortFails(c, r, loc);
    SpacesFail(c, r, loc);
    InOrder(MomentText(c) + r, loc);
  }
}
