/** The point of the formats of driver/timefmt.go: what is written is read back as the same instant,
    exactly when it can be, and UTC text compares byte by byte as the instants do. */
module TimeTheorems {
  import opened Wrappers
  import opened Calendar
  import opened TimeText
  import opened TimeReading

  // ---- What is written -------------------------------------------------------------

  function FractionText(c: Civil): string { ['.'] + IntText(c.nano, 9) }

  lemma BodyText(c: Civil)
    ensures PiecesText(DATE + [Lit('T')] + CLOCK, c) == MomentText(c) + FractionText(c)
    ensures PiecesText(DATE + [Lit('T')] + CLOCK + [Lit('Z')], c) == MomentText(c) + (FractionText(c) + "Z")
  {
    FullLayout();
    TextSplit(MOMENT, [Fraction], c);
    TextSplit(MOMENT + [Fraction], [Lit('Z')], c);
    assert PiecesText([Fraction], c) == FractionText(c) by {
      assert [Fraction][1..] == [] && FractionText(c) + "" == FractionText(c);
    }
    assert PiecesText([Lit('Z')], c) == "Z" by { assert [Lit('Z')][1..] == []; }
    hide PiecesText, MomentText, FractionText;
    assert MomentText(c) + FractionText(c) + "Z" == MomentText(c) + (FractionText(c) + "Z");
  }

  function Ending(t: int, f: TimeFormat, zone: Zone): string {
    match f
    case FormatUTC => FractionText(Shown(t, f, zone)) + "Z"
    case FormatOffset => FractionText(Shown(t, f, zone)) + ZoneText(OffsetAt(t, f, zone))
    case FormatDatetime => ""
  }

  lemma WrittenText(f: TimeFormat, c: Civil)
    ensures Written(f).zone <==> f == FormatOffset
    ensures PiecesText(Written(f).pieces, c) == MomentText(c) +
              match f
              case FormatUTC => FractionText(c) + "Z"
              case FormatOffset => FractionText(c)
              case FormatDatetime => ""
  {
    BodyText(c);
    assert PiecesText(MOMENT, c) == MomentText(c) + "";
    hide PiecesText, MomentText, FractionText;
  }

  lemma TextIs(t: int, f: TimeFormat, zone: Zone)
    ensures ValidCivil(Shown(t, f, zone))
    ensures FormatText(t, f, zone) == MomentText(Shown(t, f, zone)) + Ending(t, f, zone)
  {
    ShownIsWhole(t, f, zone);
    var c := Shown(t, f, zone);
    WrittenText(f, c);
    hide Written, PiecesText, MomentText, ZoneText, ValidDate, Shown, FractionText, WallOf, OffsetAt;
    if f == FormatOffset {
      assert FormatText(t, f, zone) == MomentText(c) + FractionText(c) + ZoneText(OffsetAt(t, f, zone));
    } else {
      assert FormatText(t, f, zone) == PiecesText(Written(f).pieces, c) + "";
    }
  }

  // ---- Years that do not have four digits --------------------------------------------

  lemma LongYear(y: int, rest: string)
    requires !(0 <= y <= 9999) && rest != "" && rest[0] == '-'
    ensures ReadPieces([Part(Year), Lit('-')], IntText(y, 4) + rest, BLANK) == None
  {
    var s := IntText(y, 4) + rest;
    if y > 9999 {
      PaddedIs(y, 4);
      assert Pow10(4) == 10000;
      assert s[..4] == Padded(y, 4)[..4] && s[4] == Padded(y, 4)[4];
      assert ReadPieces([Lit('-')], s[4..], SetField(Year, BLANK, Value(s[..4]))) == None;
    } else {
      assert s[0] == '-';
    }
    assert [Part(Year), Lit('-')][1..] == [Lit('-')];
  }

  lemma NoLayoutReads(s: string, loc: Zone)
    requires ReadPieces([Part(Year), Lit('-')], s, BLANK) == None
    ensures FirstMatch(LAYOUTS, s, loc) == None
  {
    forall k | 0 <= k < 7 ensures ParseLayout(LAYOUTS[k], s, loc) == None {
      var ps := LAYOUTS[k].pieces;
      assert ps == [Part(Year), Lit('-')] + ps[2..];
      ReadSplit([Part(Year), Lit('-')], ps[2..], s, BLANK);
    }
    hide ParseLayout, ReadPieces;
    NoneMatches(LAYOUTS, s, loc);
  }

  lemma {:induction false} NoneMatches(ls: seq<Layout>, s: string, loc: Zone)
    requires forall k :: 0 <= k < |ls| ==> ParseLayout(ls[k], s, loc) == None
    ensures FirstMatch(ls, s, loc) == None
  {
    if ls != [] { NoneMatches(ls[1..], s, loc); }
  }

  lemma YearFails(c: Civil, r: string, loc: Zone)
    requires ValidCivil(c) && !FourDigitYear(c)
    ensures FirstMatch(LAYOUTS, MomentText(c) + r, loc) == None
  {
    assert MOMENT == [Part(Year)] + MOMENT[1..] && MOMENT[1..] == [Lit('-')] + MOMENT[2..];
    var rest := PiecesText(MOMENT[1..], c) + r;
    assert PiecesText(MOMENT[1..], c) == ['-'] + PiecesText(MOMENT[2..], c);
    assert MomentText(c) + r == IntText(c.year, 4) + rest;
    LongYear(c.year, rest);
    hide ReadPieces;
    NoLayoutReads(MomentText(c) + r, loc);
  }

  // ---- Round trips -----------------------------------------------------------------

  lemma BodyReads(c: Civil, tail: string, loc: Zone)
    requires ValidCivil(c) && !DigitFirst(tail)
    ensures FirstMatch(LAYOUTS, MomentText(c) + (FractionText(c) + tail), loc) ==
              if FourDigitYear(c) then Settle(c, tail, loc) else None
  {
    if FourDigitYear(c) {
      ReadsFraction(c.nano, tail, c.(nano := 0));
      hide MomentText, FirstMatch, ReadPiece, ValidDate, WallOf, Settle, Padded;
      FirstMatchIs(c, c.nano, FractionText(c) + tail, tail, loc);
    } else {
      YearFails(c, FractionText(c) + tail, loc);
    }
  }

  lemma CutZ(body: string, loc: Zone)
    ensures ParseText(body + "Z", loc) == FirstMatch(LAYOUTS, body, UTC)
  {
    assert (body + "Z")[..|body|] == body;
    hide FirstMatch;
  }

  /** TimeFormatUTC: whoever reads it, the instant comes back, exactly when the year in UTC has four
      digits; any other year is not read at all. */
  lemma UtcRoundTrip(t: int, zone: Zone, loc: Zone)
    ensures ParseText(FormatText(t, FormatUTC, zone), loc) ==
              if FourDigitYear(Shown(t, FormatUTC, zone)) then Some(t) else None
  {
    var c := Shown(t, FormatUTC, zone);
    TextIs(t, FormatUTC, zone);
    ShownIsWhole(t, FormatUTC, zone);
    hide FormatText, MomentText, FractionText, ValidDate, Shown, FirstMatch, ParseText, WallOf;
    var body := MomentText(c) + (FractionText(c) + "");
    assert FormatText(t, FormatUTC, zone) == body + "Z";
    CutZ(body, loc);
    BodyReads(c, "", UTC);
  }

  lemma TwoDigits(s: string)
    requires |s| == 2 && AllDigits(s)
    ensures GetNum(s, true) == Some((Value(s), ""))
  {
    assert s[..2] == s && s[2..] == "";
    hide Value;
  }

  lemma ReadsSix(s: string, h: string, m: string)
    requires |s| == 6 && s[3] == ':' && h == s[1..3] && m == s[4..6] && (s[0] == '+' || s[0] == '-')
    requires AllDigits(h) && AllDigits(m) && Value(m) < 60
    ensures var minutes: int := Value(h) * 60 + Value(m);
            ReadZone(s) == if Value(h) > 24 then None
                           else Some((if s[0] == '-' then -(minutes * 60) else minutes * 60, ""))
  {
    TwoDigits(h);
    TwoDigits(m);
    hide GetNum, Value, AllDigits;
    assert s[6..] == "";
  }

  lemma ReadsSigned(sign: char, h: string, m: string)
    requires (sign == '+' || sign == '-') && AllDigits(h) && AllDigits(m) && |h| >= 2 && |m| == 2 && Value(m) < 60
    ensures var s := [sign] + h + [':'] + m;
            var minutes: int := Value(h) * 60 + Value(m);
            && !DigitFirst(s) && s[|s| - 1] != 'Z'
            && ReadZone(s) == if |h| > 2 || Value(h) > 24 then None
                              else Some((if sign == '-' then -(minutes * 60) else minutes * 60, ""))
  {
    var s := [sign] + h + [':'] + m;
    assert s[|s| - 1] == m[1];
    if |h| > 2 {
      assert s[3] == h[2];
    } else {
      assert s[1..3] == h && s[4..6] == m;
      ReadsSix(s, h, m);
    }
    hide ReadZone, Value;
  }

  lemma MinutesOf(offset: int)
    ensures var zone := OffsetMinutes(offset);
            var m := if zone < 0 then -zone else zone;
            && m == m / 60 * 60 + m % 60 && 0 <= m % 60 < 60
            && (m / 60 > 24 <==> !(-90000 < offset < 90000))
  {}

  lemma TwoDigitText(n: nat)
    ensures var s := IntText(n, 2); AllDigits(s) && Value(s) == n && |s| >= 2 && (|s| == 2 <==> n < 100)
  {
    PaddedIs(n, 2);
    assert Pow10(2) == 100;
  }

  /** A zone that is not UTC is written with a sign and a colon; it is read back to the minute, if
      it is not of 25 hours or more. */
  lemma ZoneReads(offset: int)
    requires offset != 0
    ensures var s := ZoneText(offset);
            && s != "" && !DigitFirst(s) && s[|s| - 1] != 'Z'
            && ReadZone(s) == if -90000 < offset < 90000 then Some((OffsetMinutes(offset) * 60, "")) else None
  {
    var zone := OffsetMinutes(offset);
    var m := if zone < 0 then -zone else zone;
    MinutesOf(offset);
    hide OffsetMinutes, ReadZone, Value, AllDigits, DigitFirst, IntText;
    TwoDigitText(m / 60);
    TwoDigitText(m % 60);
    ReadsSigned(if zone < 0 then '-' else '+', IntText(m / 60, 2), IntText(m % 60, 2));
  }

  lemma NotZ(s: string, loc: Zone)
    requires s != "" && s[|s| - 1] != 'Z'
    ensures ParseText(s, loc) == FirstMatch(LAYOUTS, s, loc)
  {}

  lemma OffsetReadsUtc(t: int, zone: Zone, loc: Zone)
    requires zone(Unix(t)) == 0
    ensures ParseText(FormatText(t, FormatOffset, zone), loc) ==
              if FourDigitYear(Shown(t, FormatOffset, zone)) then Some(t) else None
  {
    var c := Shown(t, FormatOffset, zone);
    TextIs(t, FormatOffset, zone);
    ShownIsWhole(t, FormatOffset, zone);
    EmptyZone();
    hide FormatText, MomentText, FractionText, ValidDate, Shown, FirstMatch, ParseText, WallOf, ReadZone;
    var body := MomentText(c) + (FractionText(c) + "");
    assert FormatText(t, FormatOffset, zone) == body + "Z";
    CutZ(body, loc);
    BodyReads(c, "", UTC);
  }

  lemma OffsetReadsLocal(t: int, zone: Zone, loc: Zone)
    requires zone(Unix(t)) != 0
    ensures var c := Shown(t, FormatOffset, zone);
            ValidCivil(c) && ParseText(FormatText(t, FormatOffset, zone), loc) ==
              if FourDigitYear(c) then Settle(c, ZoneText(zone(Unix(t))), loc) else None
  {
    var c := Shown(t, FormatOffset, zone);
    var tail := ZoneText(zone(Unix(t)));
    TextIs(t, FormatOffset, zone);
    ZoneReads(zone(Unix(t)));
    hide ZoneText, FormatText, MomentText, FractionText, ValidDate, Shown, FirstMatch, ParseText, Settle, ReadZone;
    var s := MomentText(c) + (FractionText(c) + tail);
    assert s[|s| - 1] == tail[|tail| - 1];
    NotZ(s, loc);
    BodyReads(c, tail, loc);
  }

  lemma SettlesOffset(t: int, c: Civil, offset: int, loc: Zone)
    requires ValidCivil(c) && WallOf(c) == t + Nanos(offset) && offset != 0
    ensures Settle(c, ZoneText(offset), loc) ==
              if -90000 < offset < 90000 then Some(t + Nanos(offset - OffsetMinutes(offset) * 60)) else None
  {
    ZoneReads(offset);
    hide ZoneText, ReadZone, ValidDate, WallOf, OffsetMinutes;
  }

  /** TimeFormatOffset, whoever reads it: seconds of the offset are lost, offsets of 25 hours or more
      and years without four digits are not read. */
  lemma OffsetReadsAs(t: int, zone: Zone, loc: Zone)
    ensures var offset := zone(Unix(t));
            ParseText(FormatText(t, FormatOffset, zone), loc) ==
              if FourDigitYear(Shown(t, FormatOffset, zone)) && -90000 < offset < 90000
              then Some(t + Nanos(offset - OffsetMinutes(offset) * 60)) else None
  {
    var offset := zone(Unix(t));
    hide ParseText, FormatText, Shown, ZoneText, ValidDate, WallOf, Settle;
    if offset == 0 {
      OffsetReadsUtc(t, zone, loc);
    } else {
      OffsetReadsLocal(t, zone, loc);
      ShownIsWhole(t, FormatOffset, zone);
      SettlesOffset(t, Shown(t, FormatOffset, zone), offset, loc);
    }
  }

  lemma EmptyZone()
    ensures ReadZone("") == None
  {}

  /** TimeFormatOffset round-trips exactly for zones of whole minutes and less than 25 hours, while
      the year in the zone has four digits. */
  lemma OffsetRoundTrip(t: int, zone: Zone, loc: Zone)
    ensures var offset := zone(Unix(t));
            ParseText(FormatText(t, FormatOffset, zone), loc) == Some(t) <==>
              FourDigitYear(Shown(t, FormatOffset, zone)) && -90000 < offset < 90000 && offset % 60 == 0
  {
    OffsetReadsAs(t, zone, loc);
    hide FormatText, ParseText, Shown;
  }

  lemma DatetimeReads(t: int, zone: Zone)
    ensures var c := Shown(t, FormatDatetime, zone);
            ValidCivil(c) && ParseText(FormatText(t, FormatDatetime, zone), zone) ==
              if FourDigitYear(c) then Some(NaiveInstant(WallOf(c.(nano := 0)), zone)) else None
  {
    var c := Shown(t, FormatDatetime, zone);
    var s := MomentText(c) + "";
    TextIs(t, FormatDatetime, zone);
    LastIsDigit(c);
    EmptyZone();
    assert ReadPiece(Fraction, "", c.(nano := 0)) == Some((c.(nano := 0), ""));
    hide FormatText, MomentText, ValidDate, Shown, FirstMatch, ParseText, ReadZone, ReadPiece, WallOf, NaiveInstant;
    assert s == MomentText(c);
    NotZ(s, zone);
    if FourDigitYear(c) { FirstMatchIs(c, 0, "", "", zone); } else { YearFails(c, "", zone); }
  }

  /** TimeFormatDatetime has no zone: it round-trips in the location it was written in, exactly when
      there is no fraction of a second to lose and the location's clock shows the time only once, or
      Go picks the right one of two. */
  lemma DatetimeRoundTrip(t: int, zone: Zone)
    ensures var local := Unix(t) + zone(Unix(t));
            ParseText(FormatText(t, FormatDatetime, zone), zone) == Some(t) <==>
              && FourDigitYear(Shown(t, FormatDatetime, zone)) && Nano(t) == 0
              && zone(local - zone(local)) == zone(Unix(t))
  {
    DatetimeReads(t, zone);
    ShownIsWhole(t, FormatDatetime, zone);
    WholeSeconds(t, Shown(t, FormatDatetime, zone), zone);
    hide FormatText, ValidDate, Shown, ParseText, WallOf, NaiveInstant;
    assert t == Nanos(Unix(t)) + Nano(t);
  }

  lemma WholeSeconds(t: int, c: Civil, zone: Zone)
    requires ValidCivil(c) && WallOf(c) == t + Nanos(zone(Unix(t)))
    ensures var local := Unix(t) + zone(Unix(t));
            c.nano == Nano(t) && NaiveInstant(WallOf(c.(nano := 0)), zone) == Nanos(local - zone(local - zone(local)))
  {
    hide DayNumber, ValidDate;
    var local := Unix(t) + zone(Unix(t));
    assert WallOf(c.(nano := 0)) == WallOf(c) - c.nano;
    assert t == Nanos(Unix(t)) + Nano(t);
    assert WallOf(c.(nano := 0)) == Nanos(local);
  }

  lemma LastIsDigit(c: Civil)
    requires ValidCivil(c)
    ensures var s := MomentText(c); s != "" && s[|s| - 1] != 'Z'
  {
    assert MOMENT == MOMENT[..10] + [Part(Second)];
    TextSplit(MOMENT[..10], [Part(Second)], c);
    assert [Part(Second)][1..] == [];
    PaddedIs(c.second, 2);
    assert PiecesText([Part(Second)], c) == Padded(c.second, 2);
  }
}
