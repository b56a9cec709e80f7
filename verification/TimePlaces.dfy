/** What is where in a timestamp's text, character by character, for what is written and for what is
    read: the layouts of driver/timefmt.go without the layouts. */
module TimePlaces {
  import opened Wrappers
  import opened Calendar
  import opened TimeText
  import opened TimeReading
  import opened TimeTheorems
  import opened TimeForms
  import TimeOrder

  // ---- Places ----------------------------------------------------------------------------

  /** From i up to j there are digits, and they write the number n. */
  predicate Digits(s: string, i: int, j: int, n: int) {
    0 <= i <= j <= |s| && AllDigits(s[i..j]) && Value(s[i..j]) == n
  }

  /** yyyy-mm-dd */
  predicate DateAt(s: string, c: Civil) {
    && |s| >= 10 && Digits(s, 0, 4, c.year) && s[4] == '-' && Digits(s, 5, 7, c.month) && s[7] == '-'
    && Digits(s, 8, 10, c.day)
  }

  /** hh:mm, after the date and a separator. */
  predicate ClockAt(s: string, c: Civil) {
    |s| >= 16 && Digits(s, 11, 13, c.hour) && s[13] == ':' && Digits(s, 14, 16, c.minute)
  }

  /** :ss, after that. */
  predicate SecondAt(s: string, c: Civil) { |s| >= 19 && s[16] == ':' && Digits(s, 17, 19, c.second) }

  /** A period and nine digits, after that. */
  predicate NanoAt(s: string, c: Civil) { |s| >= 29 && s[19] == '.' && Digits(s, 20, 29, c.nano) }

  /** From i to the end: Z for UTC; elsewhere a sign, the hours, a colon and the minutes. */
  predicate OffsetFrom(s: string, i: nat, offset: int) {
    if offset == 0 then |s| == i + 1 && s[i] == 'Z'
    else
      var minutes := if offset < 0 then -offset / 60 else offset / 60;
      && |s| == i + 6 && s[i] == (if offset <= -60 then '-' else '+')
      && Digits(s, i + 1, i + 3, minutes / 60) && s[i + 3] == ':' && Digits(s, i + 4, i + 6, minutes % 60)
  }

  // ---- Digits ----------------------------------------------------------------------------

  lemma {:induction false} ValueBelow(s: string)
    requires AllDigits(s)
    ensures Value(s) < Pow10(|s|)
  {
    if s != "" { ValueBelow(s[..|s| - 1]); }
  }

  /** Digits are the text of the number they write. */
  lemma SameText(s: string, width: nat)
    requires AllDigits(s) && |s| == width >= 1
    ensures IntText(Value(s), width) == s
  {
    ValueBelow(s);
    PaddedIs(Value(s), width);
    TimeOrder.DigitsInOrder(Padded(Value(s), width), s);
  }

  lemma OnePiece(p: Piece, rest: seq<Piece>, c: Civil)
    ensures PiecesText([p] + rest, c) == PieceText(p, c) + PiecesText(rest, c)
  {
    assert ([p] + rest)[1..] == rest;
  }

  function DateJoined(y: string, m: string, d: string): string { y + (['-'] + (m + (['-'] + d))) }

  function ClockJoined(h: string, m: string): string { h + ([':'] + m) }

  lemma DateText(c: Civil)
    ensures PiecesText(DATE, c) == DateJoined(IntText(c.year, 4), IntText(c.month, 2), IntText(c.day, 2))
  {
    var day: seq<Piece> := [Part(Day)] + [];
    var month := [Part(Month)] + ([Lit('-')] + day);
    assert DATE == [Part(Year)] + ([Lit('-')] + month);
    OnePiece(Part(Day), [], c);
    OnePiece(Lit('-'), day, c);
    OnePiece(Part(Month), [Lit('-')] + day, c);
    OnePiece(Lit('-'), month, c);
    OnePiece(Part(Year), [Lit('-')] + month, c);
    assert PiecesText([], c) == "" && IntText(c.day, 2) + "" == IntText(c.day, 2);
    hide PiecesText, IntText;
  }

  lemma MinutesText(c: Civil)
    ensures PiecesText(MINUTES, c) == ClockJoined(IntText(c.hour, 2), IntText(c.minute, 2))
  {
    var minute: seq<Piece> := [Part(Minute)] + [];
    assert MINUTES == [Part(Hour)] + ([Lit(':')] + minute);
    OnePiece(Part(Minute), [], c);
    OnePiece(Lit(':'), minute, c);
    OnePiece(Part(Hour), [Lit(':')] + minute, c);
    assert PiecesText([], c) == "" && IntText(c.minute, 2) + "" == IntText(c.minute, 2);
    hide PiecesText, IntText;
  }

  lemma SecondsText(c: Civil)
    ensures PiecesText(SECONDS, c) == PiecesText(MINUTES, c) + ([':'] + IntText(c.second, 2))
  {
    var second: seq<Piece> := [Part(Second)] + [];
    assert SECONDS == MINUTES + ([Lit(':')] + second);
    TextSplit(MINUTES, [Lit(':')] + second, c);
    OnePiece(Lit(':'), second, c);
    OnePiece(Part(Second), [], c);
    assert PiecesText([], c) == "" && IntText(c.second, 2) + "" == IntText(c.second, 2);
    hide PiecesText, IntText;
  }

  lemma MomentJoined(c: Civil)
    ensures MomentText(c) == PiecesText(DATE, c) + (['T'] + PiecesText(SECONDS, c))
  {
    assert MOMENT == DATE + ([Lit('T')] + SECONDS);
    TextSplit(DATE, [Lit('T')] + SECONDS, c);
    OnePiece(Lit('T'), SECONDS, c);
    hide PiecesText;
  }

  // ---- From places to pieces ---------------------------------------------------------------

  lemma CutDate(s: string)
    requires |s| >= 10 && s[4] == '-' && s[7] == '-'
    ensures s[..10] == DateJoined(s[0..4], s[5..7], s[8..10])
  {}

  lemma CutClock(s: string)
    requires |s| >= 16 && s[13] == ':'
    ensures s[11..16] == ClockJoined(s[11..13], s[14..16])
  {}

  lemma DateAtIs(s: string, c: Civil)
    requires DateAt(s, c)
    ensures PiecesText(DATE, c) == s[..10] && FourDigitYear(c)
  {
    assert Pow10(4) == 10000;
    hide PiecesText, IntText, Value, Pow10, AllDigits, DateJoined;
    DateText(c);
    SameText(s[0..4], 4);
    SameText(s[5..7], 2);
    SameText(s[8..10], 2);
    ValueBelow(s[0..4]);
    CutDate(s);
  }

  lemma ClockAtIs(s: string, c: Civil)
    requires ClockAt(s, c)
    ensures PiecesText(MINUTES, c) == s[11..16]
  {
    hide PiecesText, IntText, Value, AllDigits, ClockJoined;
    MinutesText(c);
    SameText(s[11..13], 2);
    SameText(s[14..16], 2);
    CutClock(s);
  }

  lemma SecondAtIs(s: string, c: Civil)
    requires ClockAt(s, c) && SecondAt(s, c)
    ensures PiecesText(SECONDS, c) == s[11..19]
  {
    ClockAtIs(s, c);
    SecondsText(c);
    SameText(s[17..19], 2);
    assert s[11..19] == s[11..16] + ([':'] + s[17..19]);
    hide PiecesText, IntText, Value;
  }

  // ---- From pieces to places ---------------------------------------------------------------

  lemma SliceDate(y: string, m: string, d: string, r: string)
    requires |y| == 4 && |m| == |d| == 2
    ensures var s := DateJoined(y, m, d) + r;
            && |s| >= 10 && s[0..4] == y && s[4] == '-' && s[5..7] == m && s[7] == '-' && s[8..10] == d && s[10..] == r
  {
    var s := DateJoined(y, m, d) + r;
    assert s == y + (['-'] + m + ['-'] + d + r);
    assert s[5..] == m + (['-'] + d + r);
    assert s[8..] == d + r;
    assert s[5..7] == s[5..][..2] && s[8..10] == s[8..][..2];
  }

  lemma DateShape(c: Civil, r: string)
    requires ValidCivil(c) && FourDigitYear(c)
    ensures var s := PiecesText(DATE, c) + r; DateAt(s, c) && s[10..] == r && |PiecesText(DATE, c)| == 10
  {
    assert DaysIn(c.year, c.month) <= 31;
    DateText(c);
    FieldText(Year, c.year);
    FieldText(Month, c.month);
    FieldText(Day, c.day);
    hide PiecesText, IntText, ValidCivil, AllDigits, Value;
    SliceDate(IntText(c.year, 4), IntText(c.month, 2), IntText(c.day, 2), r);
    assert |DateJoined(IntText(c.year, 4), IntText(c.month, 2), IntText(c.day, 2))| == 10;
    hide DateJoined;
  }

  lemma SliceClock(date: string, sep: char, h: string, m: string, n: string, r: string)
    requires |date| == 10 && |h| == |m| == |n| == 2
    ensures var s := date + ([sep] + (ClockJoined(h, m) + ([':'] + n))) + r;
            && |s| >= 19 && s[..10] == date && s[10] == sep && s[11..13] == h && s[13] == ':' && s[14..16] == m
            && s[16] == ':' && s[17..19] == n && s[19..] == r
  {
    var s := date + ([sep] + (ClockJoined(h, m) + ([':'] + n))) + r;
    assert s[11..] == h + ([':'] + m + [':'] + n + r);
    assert s[14..] == m + ([':'] + n + r);
    assert s[17..] == n + r;
    assert s[11..13] == s[11..][..2] && s[14..16] == s[14..][..2] && s[17..19] == s[17..][..2];
  }

  lemma SecondsShape(date: string, sep: char, c: Civil, r: string)
    requires |date| == 10 && ValidCivil(c)
    ensures var s := date + ([sep] + PiecesText(SECONDS, c)) + r;
            |s| >= 19 && s[..10] == date && s[10] == sep && ClockAt(s, c) && SecondAt(s, c) && s[19..] == r
  {
    SecondsText(c);
    MinutesText(c);
    FieldText(Hour, c.hour);
    FieldText(Minute, c.minute);
    FieldText(Second, c.second);
    hide PiecesText, IntText, ValidCivil, AllDigits, Value, ClockJoined;
    SliceClock(date, sep, IntText(c.hour, 2), IntText(c.minute, 2), IntText(c.second, 2), r);
  }

  /** The date and clock of everything that is written. */
  lemma MomentShape(c: Civil, r: string)
    requires ValidCivil(c) && FourDigitYear(c)
    ensures var s := MomentText(c) + r;
            |s| >= 19 && DateAt(s, c) && s[10] == 'T' && ClockAt(s, c) && SecondAt(s, c) && s[19..] == r
  {
    var date := PiecesText(DATE, c);
    hide PiecesText, DateAt, ClockAt, SecondAt, MomentText, ValidCivil;
    MomentJoined(c);
    DateShape(c, ['T'] + PiecesText(SECONDS, c) + r);
    SecondsShape(date, 'T', c, r);
    assert MomentText(c) + r == date + (['T'] + PiecesText(SECONDS, c) + r);
    assert MomentText(c) + r == date + (['T'] + PiecesText(SECONDS, c)) + r;
  }

  // ---- What is written ---------------------------------------------------------------------

  lemma ShownIs(t: int, f: TimeFormat, zone: Zone, c: Civil)
    requires ValidCivil(c) && WallOf(c) == t + (if f == FormatUTC then 0 else zone(t / 1_000_000_000)) * 1_000_000_000
    ensures Shown(t, f, zone) == c
  {
    hide CivilOf, WallOf, ValidCivil;
    assert t + Nanos(OffsetAt(t, f, zone)) == WallOf(c);
    CivilOfWall(c);
  }

  lemma NanoShape(s: string, c: Civil, tail: string)
    requires ValidCivil(c) && |s| >= 19 && s[19..] == FractionText(c) + tail
    ensures NanoAt(s, c) && s[29..] == tail
  {
    PaddedIs(c.nano, 9);
    assert Pow10(9) == SECOND;
    var p := IntText(c.nano, 9);
    assert |p| == 9 && s[19..] == ['.'] + p + tail;
    assert s[20..29] == s[19..][1..10] == p;
    assert s[29..] == s[19..][10..];
    hide IntText, ValidCivil;
  }

  /** TimeFormatUTC: yyyy-mm-ddThh:mm:ss.nnnnnnnnnZ of the instant in UTC. */
  lemma WrittenUtc(t: int, zone: Zone, c: Civil)
    requires ValidCivil(c) && 0 <= c.year <= 9999 && WallOf(c) == t
    ensures var s := FormatText(t, FormatUTC, zone);
            && |s| == 30 && DateAt(s, c) && s[10] == 'T' && ClockAt(s, c) && SecondAt(s, c) && NanoAt(s, c)
            && s[29] == 'Z'
  {
    ShownIs(t, FormatUTC, zone, c);
    TextIs(t, FormatUTC, zone);
    hide FormatText, MomentText, Shown, WallOf, ValidCivil, DateAt, ClockAt, SecondAt, NanoAt, FractionText;
    var s := FormatText(t, FormatUTC, zone);
    MomentShape(c, FractionText(c) + "Z");
    NanoShape(s, c, "Z");
    assert |s| == 29 + |s[29..]| && s[29] == s[29..][0] by { LongEnough(s, c); }
  }

  lemma LongEnough(s: string, c: Civil)
    requires NanoAt(s, c)
    ensures |s| >= 29
  {}

  /** TimeFormatDatetime: yyyy-mm-ddThh:mm:ss of the clock on the location's wall. */
  lemma WrittenDatetime(t: int, zone: Zone, c: Civil)
    requires ValidCivil(c) && 0 <= c.year <= 9999 && WallOf(c) == t + zone(t / 1_000_000_000) * 1_000_000_000
    ensures var s := FormatText(t, FormatDatetime, zone);
            |s| == 19 && DateAt(s, c) && s[10] == 'T' && ClockAt(s, c) && SecondAt(s, c)
  {
    ShownIs(t, FormatDatetime, zone, c);
    TextIs(t, FormatDatetime, zone);
    hide FormatText, MomentText, Shown, WallOf, ValidCivil, DateAt, ClockAt, SecondAt;
    MomentShape(c, "");
  }

  lemma SliceZone(s: string, i: nat, sign: char, h: string, m: string)
    requires i <= |s| && |h| == |m| == 2 && s[i..] == [sign] + h + [':'] + m
    ensures |s| == i + 6 && s[i] == sign && s[i + 1..i + 3] == h && s[i + 3] == ':' && s[i + 4..i + 6] == m
  {
    var z := s[i..];
    assert s[i] == z[0] && s[i + 3] == z[3] && s[i + 1..i + 3] == z[1..3] && s[i + 4..i + 6] == z[4..6];
  }

  lemma WholeMinutes(offset: int)
    requires -360000 < offset < 360000
    ensures var zone := OffsetMinutes(offset);
            && (if zone < 0 then -zone else zone) == (if offset < 0 then -offset / 60 else offset / 60) < 6000
            && (zone < 0 <==> offset <= -60)
  {}

  lemma ZoneShape(s: string, i: nat, offset: int)
    requires i <= |s| && s[i..] == ZoneText(offset) && -360000 < offset < 360000
    ensures OffsetFrom(s, i, offset)
  {
    if offset != 0 {
      WholeMinutes(offset);
      var minutes := if offset < 0 then -offset / 60 else offset / 60;
      var h, m := IntText(minutes / 60, 2), IntText(minutes % 60, 2);
      FieldText(Hour, minutes / 60);
      FieldText(Minute, minutes % 60);
      hide IntText, OffsetMinutes, AllDigits, Value;
      SliceZone(s, i, if offset <= -60 then '-' else '+', h, m);
    } else {
      assert s[i] == s[i..][0];
    }
  }

  /** TimeFormatOffset: the same with a fraction and the location's offset, Z where it is UTC's. */
  lemma WrittenOffset(t: int, zone: Zone, c: Civil)
    requires ValidCivil(c) && 0 <= c.year <= 9999 && WallOf(c) == t + zone(t / 1_000_000_000) * 1_000_000_000
    requires -360000 < zone(t / 1_000_000_000) < 360000
    ensures var s := FormatText(t, FormatOffset, zone);
            && |s| >= 29 && DateAt(s, c) && s[10] == 'T' && ClockAt(s, c) && SecondAt(s, c) && NanoAt(s, c)
            && OffsetFrom(s, 29, zone(t / 1_000_000_000))
  {
    var offset := zone(t / 1_000_000_000);
    ShownIs(t, FormatOffset, zone, c);
    TextIs(t, FormatOffset, zone);
    assert OffsetAt(t, FormatOffset, zone) == offset;
    hide FormatText, MomentText, Shown, WallOf, ValidCivil, DateAt, ClockAt, SecondAt, NanoAt, FractionText, ZoneText,
         OffsetFrom, OffsetAt;
    var s := FormatText(t, FormatOffset, zone);
    MomentShape(c, FractionText(c) + ZoneText(offset));
    NanoShape(s, c, ZoneText(offset));
    LongEnough(s, c);
    ZoneShape(s, 29, offset);
  }

  // ---- What is read ------------------------------------------------------------------------

  lemma NoZ(s: string, loc: Zone)
    requires s != "" && IsDigit(s[|s| - 1])
    ensures ParseText(s, loc) == FirstMatch(LAYOUTS, s, loc)
  {
    hide FirstMatch;
  }

  lemma LastDigit(s: string, i: int, j: int, n: int)
    requires Digits(s, i, j, n) && i < j == |s|
    ensures s != "" && IsDigit(s[|s| - 1])
  {
    assert s[i..j][j - i - 1] == s[|s| - 1];
  }

  /** yyyy-mm-dd is read as that day's midnight in the reader's location. */
  lemma DateIsRead(s: string, c: Civil, loc: Zone)
    requires |s| == 10 && DateAt(s, c) && ValidCivil(c) && c.hour == c.minute == c.second == c.nano == 0
    ensures ParseText(s, loc) == Some(NaiveInstant(WallOf(c), loc))
  {
    LastDigit(s, 8, 10, c.day);
    hide Digits, DateAt, ValidCivil, FirstMatch, PiecesText, NaiveInstant, WallOf, ParseText;
    DateAtIs(s, c);
    assert s[..10] == s;
    NoZ(s, loc);
    DateForm(c, loc);
  }

  lemma CutMinutes(s: string)
    requires |s| == 16
    ensures s == s[..10] + ([s[10]] + s[11..16])
  {}

  /** yyyy-mm-dd hh:mm, with a T or a space, is that minute in the reader's location. */
  lemma MinutesAreRead(s: string, c: Civil, loc: Zone)
    requires |s| == 16 && DateAt(s, c) && (s[10] == 'T' || s[10] == ' ') && ClockAt(s, c)
    requires ValidCivil(c) && c.second == c.nano == 0
    ensures ParseText(s, loc) == Some(NaiveInstant(WallOf(c), loc))
  {
    LastDigit(s, 14, 16, c.minute);
    hide Digits, DateAt, ClockAt, ValidCivil, FirstMatch, PiecesText, NaiveInstant, WallOf, ParseText;
    DateAtIs(s, c);
    ClockAtIs(s, c);
    CutMinutes(s);
    NoZ(s, loc);
    MinutesForm(c, loc);
  }

  /** A fraction that the text may have after its seconds, and its nanoseconds. */
  predicate FractionIs(s: string, nano: int) {
    if s == "" then nano == 0
    else
      && |s| >= 2 && (s[0] == '.' || s[0] == ',') && AllDigits(s[1..])
      && var used := if |s| > 10 then 9 else |s| - 1;
         AllDigits(s[1..][..used]) && nano == Value(s[1..][..used]) * Pow10(9 - used)
  }

  /** What follows it: nothing, or a sign and an offset. */
  datatype Offset = Local | Signed(minus: bool, hours: nat, minutes: nat)

  predicate OffsetIs(s: string, o: Offset) {
    match o
    case Local => s == ""
    case Signed(minus, h, m) =>
      |s| == 6 && s[0] == (if minus then '-' else '+') && Digits(s, 1, 3, h) && s[3] == ':' && Digits(s, 4, 6, m)
  }

  /** The instant of a clock at an offset; offsets of more than 24 hours or 60 minutes are not read. */
  function InstantOf(c: Civil, o: Offset, loc: Zone): Option<int>
    requires ValidCivil(c)
  {
    match o
    case Local => Some(NaiveInstant(WallOf(c), loc))
    case Signed(minus, h, m) =>
      if h > 24 || m > 60 then None
      else if minus then Some(WallOf(c) + (h * 3600 + m * 60) * 1_000_000_000)
      else Some(WallOf(c) - (h * 3600 + m * 60) * 1_000_000_000)
  }

  lemma SettlesAs(c: Civil, tail: string, o: Offset, loc: Zone)
    requires ValidCivil(c) && OffsetIs(tail, o)
    ensures Settle(c, tail, loc) == InstantOf(c, o, loc) && !DigitFirst(tail)
    ensures tail == "" || (tail[0] != '.' && tail[0] != ',')
  {
    hide WallOf, ValidCivil, NaiveInstant;
    if o.Signed? {
      assert GetNum(tail[1..3], true) == Some((o.hours, "")) by { TwoAre(tail, 1, o.hours); }
      assert GetNum(tail[4..6], true) == Some((o.minutes, "")) by { TwoAre(tail, 4, o.minutes); }
      assert tail[6..] == "";
      hide GetNum, Digits;
    }
  }

  lemma TwoAre(s: string, i: nat, n: nat)
    requires Digits(s, i, i + 2, n)
    ensures GetNum(s[i..i + 2], true) == Some((n, ""))
  {
    var t := s[i..i + 2];
    assert t[..2] == t && t[2..] == "";
    hide Value;
  }

  lemma FractionReads(frac: string, nano: int, tail: string, c: Civil)
    requires FractionIs(frac, nano) && !DigitFirst(tail) && (tail == "" || (tail[0] != '.' && tail[0] != ','))
    ensures ReadPiece(Fraction, frac + tail, c) == Some((c.(nano := nano), tail)) || (frac == "" && c.nano != 0)
  {
    hide Value, Pow10;
    if frac == "" {
      assert frac + tail == tail;
    } else {
      ReadsAnyFraction(frac[1..], frac[0], tail, c);
      assert frac == [frac[0]] + frac[1..];
    }
  }

  lemma TIsRead(c: Civil, frac: string, tail: string, o: Offset, loc: Zone)
    requires ValidCivil(c) && FourDigitYear(c) && FractionIs(frac, c.nano) && OffsetIs(tail, o)
    ensures FirstMatch(LAYOUTS, MomentText(c) + (frac + tail), loc) == InstantOf(c, o, loc)
  {
    SettlesAs(c, tail, o, loc);
    FractionReads(frac, c.nano, tail, c.(nano := 0));
    assert c.(nano := 0).(nano := c.nano) == c && 0 <= c.nano < SECOND;
    hide ValidCivil, FirstMatch, ReadPiece, Settle, InstantOf, OffsetIs, FractionIs, MomentText, DigitFirst;
    FirstMatchIs(c, c.nano, frac + tail, tail, loc);
  }

  lemma EitherIsRead(s: string, c: Civil, frac: string, tail: string, o: Offset, loc: Zone)
    requires ValidCivil(c) && FourDigitYear(c) && FractionIs(frac, c.nano) && OffsetIs(tail, o)
    requires |s| >= 19 && PiecesText(DATE, c) == s[..10] && PiecesText(SECONDS, c) == s[11..19]
    requires s[19..] == frac + tail
    requires (s[10] == 'T' || s[10] == ' ') && s[11] != ' '
    ensures FirstMatch(LAYOUTS, s, loc) == InstantOf(c, o, loc)
  {
    hide ValidCivil, FirstMatch, PiecesText, InstantOf, OffsetIs, FractionIs, MomentText;
    TIsRead(c, frac, tail, o, loc);
    MomentJoined(c);
    var more := s[11..];
    assert s == s[..10] + ([s[10]] + more) && more == s[11..19] + s[19..];
    assert MomentText(c) + (frac + tail) == s[..10] + (['T'] + more);
    BothSeparators(c, more, loc);
  }

  lemma HourFirst(s: string, c: Civil)
    requires ClockAt(s, c)
    ensures s[11] != ' '
  {
    assert s[11] == s[11..13][0];
  }

  /** yyyy-mm-dd hh:mm:ss with a T or a space, any fraction, and an offset or none: its instant. */
  lemma SecondsAreRead(s: string, k: nat, c: Civil, o: Offset, loc: Zone)
    requires 19 <= k <= |s| && DateAt(s, c) && (s[10] == 'T' || s[10] == ' ') && ClockAt(s, c) && SecondAt(s, c)
    requires FractionIs(s[19..k], c.nano) && OffsetIs(s[k..], o) && ValidCivil(c)
    ensures FirstMatch(LAYOUTS, s, loc) == InstantOf(c, o, loc)
  {
    hide Digits, ValidCivil, FirstMatch, PiecesText, InstantOf, OffsetIs, FractionIs;
    DateAtIs(s, c);
    SecondAtIs(s, c);
    HourFirst(s, c);
    assert s[19..] == s[19..k] + s[k..];
    EitherIsRead(s, c, s[19..k], s[k..], o, loc);
  }

  /** Whole texts: as they are, or in UTC with a Z at the end. */
  lemma TextIsRead(s: string, k: nat, c: Civil, o: Offset, loc: Zone)
    requires 19 <= k <= |s| && DateAt(s, c) && (s[10] == 'T' || s[10] == ' ') && ClockAt(s, c) && SecondAt(s, c)
    requires FractionIs(s[19..k], c.nano) && OffsetIs(s[k..], o) && ValidCivil(c)
    ensures ParseText(s, loc) == InstantOf(c, o, loc)
    ensures o.Local? ==> ParseText(s + "Z", loc) == Some(WallOf(c))
  {
    hide Digits, DateAt, ClockAt, ValidCivil, FirstMatch, InstantOf, FractionIs, AllDigits;
    SecondsAreRead(s, k, c, o, loc);
    EndsInDigit(s, k, c, o);
    NoZ(s, loc);
    CutZ(s, loc);
    if o.Local? {
      SecondsAreRead(s, k, c, o, UTC);
      assert InstantOf(c, o, UTC) == Some(WallOf(c)) by { AtUtc(c); }
    }
  }

  lemma AtUtc(c: Civil)
    requires ValidCivil(c)
    ensures InstantOf(c, Local, UTC) == Some(WallOf(c))
  {
    hide WallOf, ValidCivil;
  }

  lemma EndsInDigit(s: string, k: nat, c: Civil, o: Offset)
    requires 19 <= k <= |s| && SecondAt(s, c) && FractionIs(s[19..k], c.nano) && OffsetIs(s[k..], o)
    ensures s != "" && IsDigit(s[|s| - 1])
  {
    hide Value, Pow10;
    if k < |s| {
      assert s[k..][4..6][1] == s[|s| - 1];
    } else if k > 19 {
      assert s[19..k][1..][k - 21] == s[|s| - 1];
    } else {
      assert s[17..19][1] == s[|s| - 1];
    }
  }

  // ---- What is not read --------------------------------------------------------------------

  /** Pieces that come after a date do not change it. */
  lemma {:induction false} DateStays(ps: seq<Piece>, s: string, c: Civil)
    requires forall p :: p in ps ==> p != Part(Year) && p != Part(Month) && p != Part(Day)
    ensures match ReadPieces(ps, s, c)
            case None => true
            case Some((d, _)) => d.year == c.year && d.month == c.month && d.day == c.day
  {
    if ps != [] {
      match ReadPiece(ps[0], s, c)
      case Some((d, rest)) =>
        assert ps[0] in ps && forall p :: p in ps[1..] ==> p in ps;
        DateStays(ps[1..], rest, d);
      case None =>
    }
    hide ReadNumber, GetNum;
  }

  lemma LayoutAfterDate(k: nat)
    requires k < 7
    ensures var ps := LAYOUTS[k].pieces;
            |ps| >= 5 && ps[..5] == DATE && ps == DATE + ps[5..] &&
            forall p :: p in ps[5..] ==> p != Part(Year) && p != Part(Month) && p != Part(Day)
  {}

  lemma NumberThenDash(f: Field, s: string, n: nat, rest: string, c: Civil)
    requires ReadNumber(f, s) == Some((n, ['-'] + rest))
    ensures ReadPieces([Part(f), Lit('-')], s, c) == if InRange(f, n) then Some((SetField(f, c, n), rest)) else None
  {
    var dash: seq<Piece> := [Lit('-')];
    assert [Part(f), Lit('-')][1..] == dash && dash[1..] == [] && (['-'] + rest)[1..] == rest;
    assert forall d :: ReadPieces(dash, ['-'] + rest, d) == ReadPieces([], rest, d) == Some((d, rest));
    hide ReadNumber;
  }

  lemma NumberAt(f: Field, s: string, i: nat, n: int)
    requires f == Year || f == Month || f == Day
    requires Digits(s, i, i + Width(f), n)
    ensures n >= 0 && ReadNumber(f, s[i..]) == Some((n, s[i + Width(f)..]))
  {
    var w := Width(f);
    assert s[i..][..w] == s[i..i + w] && s[i..][w..] == s[i + w..];
    assert s[i..][0] == s[i..i + w][0] && s[i..][1] == s[i..i + w][1];
    hide Value;
  }

  /** The date of a text, wherever it is read at all. */
  lemma DateReads(s: string, c: Civil)
    requires DateAt(s, c)
    ensures match ReadPieces(DATE, s, BLANK)
            case None => true
            case Some((d, _)) => d.year == c.year && d.month == c.month && d.day == c.day
  {
    var d: seq<Piece> := [Part(Day)];
    assert DATE == [Part(Year), Lit('-')] + ([Part(Month), Lit('-')] + d);
    assert s[0..] == s && s[4..] == ['-'] + s[5..] && s[7..] == ['-'] + s[8..] && d[1..] == [];
    NumberAt(Year, s, 0, c.year);
    NumberAt(Month, s, 5, c.month);
    NumberAt(Day, s, 8, c.day);
    hide ReadNumber, Digits;
    NumberThenDash(Year, s, c.year, s[5..], BLANK);
    NumberThenDash(Month, s[5..], c.month, s[8..], BLANK.(year := c.year));
    ReadSplit([Part(Year), Lit('-')], [Part(Month), Lit('-')] + d, s, BLANK);
    ReadSplit([Part(Month), Lit('-')], d, s[5..], BLANK.(year := c.year));
  }

  /** A date that is not in the calendar is read by no layout, whatever follows it. */
  lemma NoSuchDate(s: string, c: Civil, loc: Zone)
    requires DateAt(s, c) && !ValidDate(c.year, c.month, c.day)
    ensures ParseText(s, loc) == None
  {
    NoSuchDateIn(s, c, loc);
    if |s| > 10 && s[|s| - 1] == 'Z' {
      PrefixHas(s, |s| - 1, c);
      NoSuchDateIn(s[..|s| - 1], c, UTC);
    } else {
      EndsWithDay(s, c);
    }
    hide FirstMatch, DateAt, ValidDate;
  }

  lemma PrefixHas(s: string, n: nat, c: Civil)
    requires DateAt(s, c) && 10 <= n <= |s|
    ensures DateAt(s[..n], c)
  {
    var t := s[..n];
    assert t[0..4] == s[0..4] && t[5..7] == s[5..7] && t[8..10] == s[8..10];
    hide Value;
  }

  lemma EndsWithDay(s: string, c: Civil)
    requires DateAt(s, c)
    ensures |s| == 10 ==> s[|s| - 1] != 'Z'
  {
    assert s[8..10][1] == s[9];
    hide Value;
  }

  lemma NoSuchDateIn(s: string, c: Civil, loc: Zone)
    requires DateAt(s, c) && !ValidDate(c.year, c.month, c.day)
    ensures FirstMatch(LAYOUTS, s, loc) == None
  {
    DateReads(s, c);
    hide DateAt, ReadPieces, ValidDate, NaiveInstant, WallOf, ReadZone;
    forall k | 0 <= k < 7 ensures ParseLayout(LAYOUTS[k], s, loc) == None {
      LayoutAfterDate(k);
      var ps := LAYOUTS[k].pieces;
      ReadSplit(DATE, ps[5..], s, BLANK);
      match ReadPieces(DATE, s, BLANK)
      case Some((d, rest)) => DateStays(ps[5..], rest, d);
      case None =>
    }
    hide ParseLayout;
    NoneMatches(LAYOUTS, s, loc);
  }
}
