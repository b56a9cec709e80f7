/** The other forms that parseTimeString of driver/timefmt.go reads: either separator, a fraction of
    any length, no seconds, no clock. */
module TimeForms {
  import opened Wrappers
  import opened Calendar
  import opened TimeText
  import opened TimeReading

  // ---- Either separator -----------------------------------------------------------------

  /** A layout with a space reads after a space what the one with a 'T' reads after a 'T'. */
  lemma SpaceIsT(ps: seq<Piece>, zone: bool, c: Civil, more: string, loc: Zone)
    requires ValidCivil(c) && FourDigitYear(c) && (more == "" || more[0] != ' ')
    ensures ParseLayout(Layout(DATE + [Lit(' ')] + ps, zone), PiecesText(DATE, c) + ([' '] + more), loc) ==
            ParseLayout(Layout(DATE + [Lit('T')] + ps, zone), PiecesText(DATE, c) + (['T'] + more), loc)
  {
    assert DATE + [Lit(' ')] + ps == DATE + ([Lit(' ')] + ps);
    assert DATE + [Lit('T')] + ps == DATE + ([Lit('T')] + ps);
    AfterDate([Lit(' ')] + ps, c, [' '] + more);
    AfterDate([Lit('T')] + ps, c, ['T'] + more);
    var d := Civil(c.year, c.month, c.day, 0, 0, 0, 0);
    OverSeparator(' ', ps, more, d);
    OverSeparator('T', ps, more, d);
    hide PiecesText, ReadPieces, ReadZone, ValidDate, WallOf, NaiveInstant;
  }

  lemma OverSeparator(sep: char, ps: seq<Piece>, more: string, d: Civil)
    requires (sep == 'T' || sep == ' ') && (more == "" || more[0] != ' ')
    ensures ReadPieces([Lit(sep)] + ps, [sep] + more, d) == ReadPieces(ps, more, d)
  {
    assert ([Lit(sep)] + ps)[1..] == ps && ([sep] + more)[1..] == more;
    assert SkipSpaces(more) == more;
  }

  /** No layout with a 'T' reads a space. */
  lemma TFails(ps: seq<Piece>, zone: bool, c: Civil, rest: string, loc: Zone)
    requires ValidCivil(c) && FourDigitYear(c) && (rest == "" || rest[0] != 'T')
    ensures ParseLayout(Layout(DATE + [Lit('T')] + ps, zone), PiecesText(DATE, c) + rest, loc) == None
  {
    assert DATE + [Lit('T')] + ps == DATE + ([Lit('T')] + ps);
    AfterDate([Lit('T')] + ps, c, rest);
  }

  lemma DateFails(c: Civil, rest: string, loc: Zone)
    requires ValidCivil(c) && FourDigitYear(c) && rest != ""
    ensures ParseLayout(Layout(DATE, false), PiecesText(DATE, c) + rest, loc) == None
  {
    AfterDate([], c, rest);
    assert DATE + [] == DATE;
    hide PiecesText;
  }

  /** Both separators are read alike: whatever follows a date and a 'T', the text with a space in its
      place is read as the same instant, or like it by no layout. */
  lemma BothSeparators(c: Civil, more: string, loc: Zone)
    requires ValidCivil(c) && FourDigitYear(c) && (more == "" || more[0] != ' ')
    ensures FirstMatch(LAYOUTS, PiecesText(DATE, c) + ([' '] + more), loc) ==
            FirstMatch(LAYOUTS, PiecesText(DATE, c) + (['T'] + more), loc)
  {
    var s, t := PiecesText(DATE, c) + ([' '] + more), PiecesText(DATE, c) + (['T'] + more);
    hide PiecesText, ParseLayout, FirstMatch;
    InOrder(s, loc);
    InOrder(t, loc);
    SpaceIsT(CLOCK, true, c, more, loc);
    SpaceIsT(CLOCK, false, c, more, loc);
    SpaceIsT(MINUTES, false, c, more, loc);
    TFails(CLOCK, true, c, [' '] + more, loc);
    TFails(CLOCK, false, c, [' '] + more, loc);
    TFails(MINUTES, false, c, [' '] + more, loc);
    SpaceFails(CLOCK, true, c, ['T'] + more, loc);
    SpaceFails(CLOCK, false, c, ['T'] + more, loc);
    SpaceFails(MINUTES, false, c, ['T'] + more, loc);
    DateFails(c, [' '] + more, loc);
    DateFails(c, ['T'] + more, loc);
  }

  // ---- Fractions ---------------------------------------------------------------------------

  lemma {:induction false} ScaleIs(n: nat, zeros: nat)
    ensures Scale(n, zeros) == n * Pow10(zeros)
  {
    if zeros > 0 { ScaleIs(n, zeros - 1); }
  }

  /** A fraction of any number of digits, after a period or a comma, is the number it writes; digits
      past the ninth are dropped. */
  lemma ReadsAnyFraction(digits: string, mark: char, rest: string, c: Civil)
    requires digits != "" && AllDigits(digits) && (mark == '.' || mark == ',') && !DigitFirst(rest)
    ensures var used := if |digits| > 9 then 9 else |digits|;
            AllDigits(digits[..used]) &&
            ReadPiece(Fraction, [mark] + digits + rest, c) ==
              Some((c.(nano := Value(digits[..used]) * Pow10(9 - used)), rest))
  {
    var s := [mark] + digits + rest;
    var used := if |digits| > 9 then 9 else |digits|;
    assert s[1..] == digits + rest;
    RunOf(digits, rest);
    assert s[1..1 + used] == digits[..used] && s[1 + |digits|..] == rest;
    ScaleIs(Value(digits[..used]), 9 - used);
    hide Value, Scale, Pow10;
  }

  /** An hour may have one digit; the month, the day, the minute and the second have two. */
  lemma OneDigit(f: Field, d: char, rest: string)
    requires IsDigit(d) && !DigitFirst(rest) && f != Year
    ensures ReadNumber(f, [d] + rest) == if f == Hour then Some((Value([d]), rest)) else None
  {
    assert ([d] + rest)[..1] == [d] && ([d] + rest)[1..] == rest;
    assert rest != "" ==> ([d] + rest)[1] == rest[0];
    hide Value;
  }

  // ---- Without seconds, without a clock ------------------------------------------------------

  lemma MinutesRead(c: Civil, d: Civil)
    requires ValidCivil(c) && FourDigitYear(c)
    ensures ReadPieces(MINUTES, PiecesText(MINUTES, c), d) == Some((d.(hour := c.hour, minute := c.minute), ""))
    ensures ReadPieces(CLOCK, PiecesText(MINUTES, c), d) == None
  {
    assert PiecesText(MINUTES, c) + "" == PiecesText(MINUTES, c);
    ReadsPieces(MINUTES, c, d, "");
    assert MINUTES[0] == Part(Hour) && MINUTES[2] == Part(Minute);
    assert Fill(MINUTES, c, d) == d.(hour := c.hour, minute := c.minute);
    var tail := [Lit(':'), Part(Second)] + [Fraction];
    assert CLOCK == MINUTES + tail;
    ReadSplit(MINUTES, tail, PiecesText(MINUTES, c), d);
    assert ReadPieces(tail, "", d.(hour := c.hour, minute := c.minute)) == None;
    hide ReadPieces, PiecesText, Fill;
  }

  lemma AfterT(ps: seq<Piece>, c: Civil, more: string)
    requires ValidCivil(c) && FourDigitYear(c) && (more == "" || more[0] != ' ')
    ensures ReadPieces(DATE + [Lit('T')] + ps, PiecesText(DATE, c) + (['T'] + more), BLANK) ==
              ReadPieces(ps, more, Civil(c.year, c.month, c.day, 0, 0, 0, 0))
  {
    assert DATE + [Lit('T')] + ps == DATE + ([Lit('T')] + ps);
    AfterDate([Lit('T')] + ps, c, ['T'] + more);
    OverSeparator('T', ps, more, Civil(c.year, c.month, c.day, 0, 0, 0, 0));
    hide PiecesText, ReadPieces;
  }

  /** What the layouts with a 'T' make of a date and a clock without seconds. */
  lemma MinutesLayouts(c: Civil, loc: Zone)
    requires ValidCivil(c) && FourDigitYear(c) && c.second == 0 && c.nano == 0
    ensures var more := PiecesText(MINUTES, c);
            var s := PiecesText(DATE, c) + (['T'] + more);
            && more != "" && more[0] != ' '
            && ParseLayout(Layout(DATE + [Lit('T')] + CLOCK, true), s, loc) == None
            && ParseLayout(Layout(DATE + [Lit('T')] + CLOCK, false), s, loc) == None
            && ParseLayout(Layout(DATE + [Lit('T')] + MINUTES, false), s, loc) == Some(NaiveInstant(WallOf(c), loc))
  {
    var more := PiecesText(MINUTES, c);
    var day := Civil(c.year, c.month, c.day, 0, 0, 0, 0);
    assert more != "" && more[0] != ' ' by { FieldText(Hour, c.hour); }
    hide PiecesText, ReadPieces, ReadZone, WallOf, NaiveInstant;
    MinutesRead(c, day);
    AfterT(CLOCK, c, more);
    AfterT(MINUTES, c, more);
    assert day.(hour := c.hour, minute := c.minute) == c;
  }

  /** A date and a clock without seconds is that minute in the reader's location. */
  lemma MinutesForm(c: Civil, loc: Zone)
    requires ValidCivil(c) && FourDigitYear(c) && c.second == 0 && c.nano == 0
    ensures FirstMatch(LAYOUTS, PiecesText(DATE, c) + (['T'] + PiecesText(MINUTES, c)), loc) ==
              Some(NaiveInstant(WallOf(c), loc))
    ensures FirstMatch(LAYOUTS, PiecesText(DATE, c) + ([' '] + PiecesText(MINUTES, c)), loc) ==
              Some(NaiveInstant(WallOf(c), loc))
  {
    hide PiecesText, ParseLayout, FirstMatch, WallOf, NaiveInstant;
    var more := PiecesText(MINUTES, c);
    MinutesLayouts(c, loc);
    InOrder(PiecesText(DATE, c) + (['T'] + more), loc);
    SpaceFails(CLOCK, true, c, ['T'] + more, loc);
    SpaceFails(CLOCK, false, c, ['T'] + more, loc);
    BothSeparators(c, more, loc);
  }

  lemma NoClock(zone: bool, ps: seq<Piece>, c: Civil, loc: Zone)
    requires ValidCivil(c) && FourDigitYear(c) && ps != [] && ps[0] == Part(Hour)
    ensures ParseLayout(Layout(DATE + [Lit(' ')] + ps, zone), PiecesText(DATE, c) + "", loc) == None
  {
    assert DATE + [Lit(' ')] + ps == DATE + ([Lit(' ')] + ps);
    AfterDate([Lit(' ')] + ps, c, "");
    var d := Civil(c.year, c.month, c.day, 0, 0, 0, 0);
    assert ([Lit(' ')] + ps)[1..] == ps;
    assert ReadPieces([Lit(' ')] + ps, "", d) == ReadPieces(ps, "", d) == None;
    hide PiecesText, ReadPieces;
  }

  /** A date alone is its midnight in the reader's location. */
  lemma DateForm(c: Civil, loc: Zone)
    requires ValidCivil(c) && FourDigitYear(c) && c == Civil(c.year, c.month, c.day, 0, 0, 0, 0)
    ensures FirstMatch(LAYOUTS, PiecesText(DATE, c), loc) == Some(NaiveInstant(WallOf(c), loc))
  {
    var s := PiecesText(DATE, c) + "";
    assert s == PiecesText(DATE, c);
    InOrder(s, loc);
    TFails(CLOCK, true, c, "", loc);
    TFails(CLOCK, false, c, "", loc);
    TFails(MINUTES, false, c, "", loc);
    NoClock(true, CLOCK, c, loc);
    NoClock(false, CLOCK, c, loc);
    NoClock(false, MINUTES, c, loc);
    AfterDate([], c, "");
    assert DATE + [] == DATE;
    assert ReadPieces([], "", c) == Some((c, ""));
    hide PiecesText, ReadPieces, FirstMatch, WallOf, NaiveInstant;
  }

  // ---- The origin --------------------------------------------------------------------------

  /** Days are counted from 1 January 1970, over leap days and through a year that is one only
      every 400 years. */
  lemma Origin()
    ensures DayNumber(1970, 1, 1) == 0
    ensures DayNumber(1969, 12, 31) == -1
    ensures DayNumber(2000, 2, 29) == 11016 && DayNumber(2000, 3, 1) == 11017
    ensures DayNumber(1900, 3, 1) == DayNumber(1900, 2, 28) + 1
    ensures DayNumber(2024, 1, 2) == 19724
  {
    MonthStarts(1969);
    MonthStarts(1970);
    MonthStarts(2000);
    MonthStarts(1900);
    MonthStarts(2024);
    hide MonthStart;
  }

  /** A month runs to the first of the next, and has the days the calendar gives it: 29 in a February
      every fourth year, but not in a hundredth year that is no four hundredth. */
  lemma MonthLengths(y: int, m: int)
    requires 1 <= m <= 12
    ensures (if m < 12 then DayNumber(y, m + 1, 1) else DayNumber(y + 1, 1, 1)) - DayNumber(y, m, 1) ==
              if m in {4, 6, 9, 11} then 30
              else if m != 2 then 31
              else if y % 400 == 0 || (y % 4 == 0 && y % 100 != 0) then 29 else 28
    ensures forall d :: ValidDate(y, m, d) ==> DayNumber(y, m, d) == DayNumber(y, m, 1) + d - 1
  {
    MonthStarts(y);
    MonthStarts(y + 1);
    YearStartStep(y);
    hide YearStart;
  }

  /** A day has 24 hours of 60 minutes of 60 seconds of 10^9 nanoseconds. */
  lemma WallCounts(c: Civil)
    requires ValidCivil(c)
    ensures WallOf(c) ==
              (((DayNumber(c.year, c.month, c.day) * 24 + c.hour) * 60 + c.minute) * 60 + c.second) * 1_000_000_000
              + c.nano
  {
    hide DayNumber, DaysIn;
  }
}
