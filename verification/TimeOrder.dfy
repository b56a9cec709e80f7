/** Byte order is time order: the text of TimeFormatUTC, and of TimeFormatOffset in UTC, for the
    years 0 to 9999 (RFC 3339, section 5.1). */
module TimeOrder {
  import opened Wrappers
  import opened Calendar
  import opened TimeText
  import opened TimeReading
  import opened TimeTheorems

  /** How SQLite compares TEXT: byte by byte, a proper prefix first. */
  predicate Less(a: string, b: string) {
    if b == "" then false
    else if a == "" then true
    else a[0] < b[0] || (a[0] == b[0] && Less(a[1..], b[1..]))
  }

  lemma {:induction false} LessConcat(a: string, b: string, x: string, y: string)
    requires |a| == |b|
    ensures Less(a + x, b + y) <==> Less(a, b) || (a == b && Less(x, y))
  {
    if a == "" {
      assert a + x == x && b + y == y;
    } else {
      assert (a + x)[1..] == a[1..] + x && (b + y)[1..] == b[1..] + y;
      assert a == [a[0]] + a[1..] && b == [b[0]] + b[1..];
      LessConcat(a[1..], b[1..], x, y);
    }
  }

  /** Numbers written with as many digits each are ordered as their texts. */
  lemma {:induction false} DigitsInOrder(a: string, b: string)
    requires |a| == |b| && AllDigits(a) && AllDigits(b)
    ensures Less(a, b) <==> Value(a) < Value(b)
    ensures a == b <==> Value(a) == Value(b)
  {
    if a != "" {
      var n := |a| - 1;
      DigitsInOrder(a[..n], b[..n]);
      LessConcat(a[..n], b[..n], [a[n]], [b[n]]);
      assert a == a[..n] + [a[n]] && b == b[..n] + [b[n]];
      assert Less([a[n]], [b[n]]) <==> a[n] < b[n];
    }
  }

  /** The fields of a layout compared in turn. */
  predicate PiecesBefore(ps: seq<Piece>, c: Civil, e: Civil) {
    ps != [] &&
    match ps[0]
    case Part(f) => FieldOf(f, c) < FieldOf(f, e) || (FieldOf(f, c) == FieldOf(f, e) && PiecesBefore(ps[1..], c, e))
    case _ => PiecesBefore(ps[1..], c, e)
  }

  predicate PiecesEqual(ps: seq<Piece>, c: Civil, e: Civil) {
    ps == [] ||
    ((ps[0].Part? ==> FieldOf(ps[0].f, c) == FieldOf(ps[0].f, e)) && PiecesEqual(ps[1..], c, e))
  }

  predicate Writable(c: Civil) { ValidCivil(c) && FourDigitYear(c) }

  lemma FieldsInOrder(f: Field, c: Civil, e: Civil)
    requires Writable(c) && Writable(e)
    ensures var x, y := IntText(FieldOf(f, c), Width(f)), IntText(FieldOf(f, e), Width(f));
            && |x| == |y| == Width(f)
            && (Less(x, y) <==> FieldOf(f, c) < FieldOf(f, e)) && (x == y <==> FieldOf(f, c) == FieldOf(f, e))
  {
    assert DaysIn(c.year, c.month) <= 31 && DaysIn(e.year, e.month) <= 31;
    FieldText(f, FieldOf(f, c));
    FieldText(f, FieldOf(f, e));
    hide IntText, ValidDate;
    DigitsInOrder(IntText(FieldOf(f, c), Width(f)), IntText(FieldOf(f, e), Width(f)));
  }

  lemma {:induction false} PiecesInOrder(ps: seq<Piece>, c: Civil, e: Civil)
    requires Writable(c) && Writable(e) && Plain(ps)
    ensures var x, y := PiecesText(ps, c), PiecesText(ps, e);
            && |x| == |y| && (Less(x, y) <==> PiecesBefore(ps, c, e)) && (x == y <==> PiecesEqual(ps, c, e))
  {
    if ps != [] {
      PiecesInOrder(ps[1..], c, e);
      var h, k := PieceText(ps[0], c), PieceText(ps[0], e);
      if ps[0].Part? { FieldsInOrder(ps[0].f, c, e); }
      var x, y := PiecesText(ps[1..], c), PiecesText(ps[1..], e);
      assert |h| == |k|;
      LessConcat(h, k, x, y);
      hide Writable, IntText;
      assert h + x == k + y ==> h == k && x == y by { assert (h + x)[..|h|] == h && (k + y)[..|k|] == k;
        assert (h + x)[|h|..] == x && (k + y)[|k|..] == y; }
      assert ps[0].Lit? ==> !Less(h, k);
    }
  }

  function Span(ps: seq<Piece>): nat {
    if ps == [] then 0 else (if ps[0].Part? then Width(ps[0].f) else 1) + Span(ps[1..])
  }

  lemma OnePiece(p: Piece, rest: seq<Piece>, c: Civil, e: Civil)
    ensures Span([p] + rest) == (if p.Part? then Width(p.f) else 1) + Span(rest)
    ensures p.Lit? ==> (PiecesBefore([p] + rest, c, e) <==> PiecesBefore(rest, c, e)) &&
                       (PiecesEqual([p] + rest, c, e) <==> PiecesEqual(rest, c, e))
    ensures p.Part? ==>
              && (PiecesBefore([p] + rest, c, e) <==>
                    || FieldOf(p.f, c) < FieldOf(p.f, e)
                    || (FieldOf(p.f, c) == FieldOf(p.f, e) && PiecesBefore(rest, c, e)))
              && (PiecesEqual([p] + rest, c, e) <==> FieldOf(p.f, c) == FieldOf(p.f, e) && PiecesEqual(rest, c, e))
  {
    assert ([p] + rest)[1..] == rest;
  }

  /** The wall clock with its nanoseconds cleared. */
  function Floor(c: Civil): Civil { c.(nano := 0) }

  lemma MomentBefore(c: Civil, e: Civil)
    ensures PiecesBefore(MOMENT, c, e) <==> Earlier(Floor(c), Floor(e))
    ensures PiecesEqual(MOMENT, c, e) <==> Floor(c) == Floor(e)
    ensures Span(MOMENT) == 19
  {
    var second: seq<Piece> := [Part(Second)] + [];
    var minute := [Part(Minute)] + ([Lit(':')] + second);
    var hour := [Part(Hour)] + ([Lit(':')] + minute);
    var day := [Part(Day)] + ([Lit('T')] + hour);
    var month := [Part(Month)] + ([Lit('-')] + day);
    assert MOMENT == [Part(Year)] + ([Lit('-')] + month);
    OnePiece(Part(Second), [], c, e);
    OnePiece(Lit(':'), second, c, e);
    OnePiece(Part(Minute), [Lit(':')] + second, c, e);
    OnePiece(Lit(':'), minute, c, e);
    OnePiece(Part(Hour), [Lit(':')] + minute, c, e);
    OnePiece(Lit('T'), hour, c, e);
    OnePiece(Part(Day), [Lit('T')] + hour, c, e);
    OnePiece(Lit('-'), day, c, e);
    OnePiece(Part(Month), [Lit('-')] + day, c, e);
    OnePiece(Lit('-'), month, c, e);
    OnePiece(Part(Year), [Lit('-')] + month, c, e);
    assert Span([]) == 0 && PiecesEqual([], c, e) && !PiecesBefore([], c, e);
    hide PiecesBefore, PiecesEqual, Span;
  }

  lemma MomentsInOrder(c: Civil, e: Civil)
    requires Writable(c) && Writable(e)
    ensures var x, y := MomentText(c), MomentText(e);
            |x| == |y| && (Less(x, y) <==> Earlier(Floor(c), Floor(e))) && (x == y <==> Floor(c) == Floor(e))
  {
    PiecesInOrder(MOMENT, c, e);
    MomentBefore(c, e);
  }

  lemma FractionsInOrder(c: Civil, e: Civil)
    requires Writable(c) && Writable(e)
    ensures var x, y := FractionText(c), FractionText(e);
            |x| == |y| == 10 && (Less(x, y) <==> c.nano < e.nano) && (x == y <==> c.nano == e.nano)
  {
    PaddedIs(c.nano, 9);
    PaddedIs(e.nano, 9);
    assert Pow10(9) == SECOND;
    hide Padded, ValidDate;
    DigitsInOrder(Padded(c.nano, 9), Padded(e.nano, 9));
    LessConcat(['.'], ['.'], Padded(c.nano, 9), Padded(e.nano, 9));
    assert FractionText(c)[1..] == Padded(c.nano, 9) && FractionText(e)[1..] == Padded(e.nano, 9);
  }

  lemma {:induction false} PiecesLength(ps: seq<Piece>, c: Civil)
    requires Writable(c) && Plain(ps)
    ensures |PiecesText(ps, c)| == Span(ps)
  {
    if ps != [] {
      if ps[0].Part? { FieldsInOrder(ps[0].f, c, c); }
      PiecesLength(ps[1..], c);
      hide Writable, IntText;
    }
  }

  lemma MomentLength(c: Civil)
    requires Writable(c)
    ensures |MomentText(c)| == 19
  {
    PiecesLength(MOMENT, c);
    MomentBefore(c, c);
  }

  lemma UtcTextIs(t: int, zone: Zone)
    ensures var c := Shown(t, FormatUTC, zone);
            ValidCivil(c) && FormatText(t, FormatUTC, zone) == MomentText(c) + (FractionText(c) + "Z") && WallOf(c) == t
  {
    TextIs(t, FormatUTC, zone);
    ShownIsWhole(t, FormatUTC, zone);
    hide MomentText, FractionText, FormatText, Shown, ValidDate, WallOf;
  }

  /** Byte order is time order: for instants whose year in UTC has four digits, TimeFormatUTC writes
      30 characters, and texts compare byte by byte exactly as their instants compare. */
  lemma ByteOrderIsTimeOrder(t: int, u: int, zone: Zone)
    requires FourDigitYear(Shown(t, FormatUTC, zone)) && FourDigitYear(Shown(u, FormatUTC, zone))
    ensures var x, y := FormatText(t, FormatUTC, zone), FormatText(u, FormatUTC, zone);
            |x| == |y| == 30 && (Less(x, y) <==> t < u) && (x == y <==> t == u)
  {
    var c, e := Shown(t, FormatUTC, zone), Shown(u, FormatUTC, zone);
    UtcTextIs(t, zone);
    UtcTextIs(u, zone);
    MomentsInOrder(c, e);
    FractionsInOrder(c, e);
    MomentLength(c);
    EarlierIsLess(c, e);
    EarlierBySteps(c, e);
    hide MomentText, FractionText, FormatText, Shown, ValidDate, WallOf, Earlier, Less;
    LessConcat(FractionText(c), FractionText(e), "Z", "Z");
    assert !Less("Z", "Z") by { NotBeforeItself("Z"); }
    LessConcat(MomentText(c), MomentText(e), FractionText(c) + "Z", FractionText(e) + "Z");
    SameParts(MomentText(c), MomentText(e), FractionText(c), FractionText(e));
  }

  lemma {:induction false} NotBeforeItself(a: string)
    ensures !Less(a, a)
  {
    if a != "" { NotBeforeItself(a[1..]); }
  }

  lemma SameParts(a: string, b: string, x: string, y: string)
    requires |a| == |b| && |x| == |y|
    ensures a + (x + "Z") == b + (y + "Z") <==> a == b && x == y
  {
    var s, r := a + (x + "Z"), b + (y + "Z");
    assert s[..|a|] == a && r[..|b|] == b && s[|a|..][..|x|] == x && r[|b|..][..|y|] == y;
  }

  lemma EarlierBySteps(c: Civil, e: Civil)
    ensures Earlier(c, e) <==> Earlier(Floor(c), Floor(e)) || (Floor(c) == Floor(e) && c.nano < e.nano)
    ensures c == e <==> Floor(c) == Floor(e) && c.nano == e.nano
  {}

  /** TimeFormatOffset writes the same text as TimeFormatUTC wherever the clock is UTC's. */
  lemma OffsetInUtc(t: int, zone: Zone)
    requires zone(Unix(t)) == 0
    ensures FormatText(t, FormatOffset, zone) == FormatText(t, FormatUTC, zone)
  {
    TextIs(t, FormatOffset, zone);
    TextIs(t, FormatUTC, zone);
    hide MomentText, FractionText, FormatText, ValidDate;
  }
}
