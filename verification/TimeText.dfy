/** Timestamps as text: formatTimeString and parseTimeString of driver/timefmt.go, with as much of
    Go's time.Format and time.ParseInLocation as its layouts use.  An instant is a count of
    nanoseconds since 1 January 1970, 00:00 UTC. */
module TimeText {
  import opened Wrappers
  import opened Calendar

  /** A location: its offset from UTC, in seconds, at each second of Unix time. */
  type Zone = int -> int

  const UTC: Zone := (s: int) => 0

  datatype Field = Year | Month | Day | Hour | Minute | Second

  /** A piece of a layout.  `Fraction` is ".000000000" in a layout that is written and
      ".999999999" in one that is read. */
  datatype Piece = Lit(c: char) | Part(f: Field) | Fraction

  /** `zone` ends the layout: "Z07:00" in one that is written, "-07:00" in one that is read. */
  datatype Layout = Layout(pieces: seq<Piece>, zone: bool)

  const DATE := [Part(Year), Lit('-'), Part(Month), Lit('-'), Part(Day)]
  const MINUTES := [Part(Hour), Lit(':'), Part(Minute)]
  const SECONDS := MINUTES + [Lit(':'), Part(Second)]
  const CLOCK := SECONDS + [Fraction]

  datatype TimeFormat = FormatOffset | FormatUTC | FormatDatetime

  function Written(f: TimeFormat): Layout {
    match f
    case FormatOffset => Layout(DATE + [Lit('T')] + CLOCK, true)
    case FormatUTC => Layout(DATE + [Lit('T')] + CLOCK + [Lit('Z')], false)
    case FormatDatetime => Layout(DATE + [Lit('T')] + SECONDS, false)
  }

  /** timeLayouts, in the order they are tried. */
  const LAYOUTS := [
    Layout(DATE + [Lit('T')] + CLOCK, true),
    Layout(DATE + [Lit(' ')] + CLOCK, true),
    Layout(DATE + [Lit('T')] + CLOCK, false),
    Layout(DATE + [Lit(' ')] + CLOCK, false),
    Layout(DATE + [Lit('T')] + MINUTES, false),
    Layout(DATE + [Lit(' ')] + MINUTES, false),
    Layout(DATE, false)]

  // ---- Writing ------------------------------------------------------------------

  function DigitChar(d: nat): char
    requires d < 10
  {
    '0' + d as char
  }

  /** The decimal digits of `n`, zeros first up to `width`. */
  function Padded(n: nat, width: nat): string {
    if n < 10 && width <= 1 then [DigitChar(n)]
    else Padded(n / 10, if width == 0 then 0 else width - 1) + [DigitChar(n % 10)]
  }

  /** Go's appendInt. */
  function IntText(x: int, width: nat): string {
    if x < 0 then ['-'] + Padded(-x, width) else Padded(x, width)
  }

  function FieldOf(f: Field, c: Civil): int {
    match f
    case Year => c.year case Month => c.month case Day => c.day
    case Hour => c.hour case Minute => c.minute case Second => c.second
  }

  function Width(f: Field): nat { if f == Year then 4 else 2 }

  function PieceText(p: Piece, c: Civil): string {
    match p
    case Lit(ch) => [ch]
    case Part(f) => IntText(FieldOf(f, c), Width(f))
    case Fraction => ['.'] + IntText(c.nano, 9)
  }

  function PiecesText(ps: seq<Piece>, c: Civil): string {
    if ps == [] then "" else PieceText(ps[0], c) + PiecesText(ps[1..], c)
  }

  /** Whole minutes of an offset: Go's division rounds towards zero. */
  function OffsetMinutes(offset: int): int {
    if offset < 0 then -(-offset / 60) else offset / 60
  }

  function ZoneText(offset: int): string {
    if offset == 0 then "Z"
    else
      var zone := OffsetMinutes(offset);
      var m := if zone < 0 then -zone else zone;
      [if zone < 0 then '-' else '+'] + IntText(m / 60, 2) + [':'] + IntText(m % 60, 2)
  }

  function OffsetAt(t: int, f: TimeFormat, zone: Zone): int {
    if f == FormatUTC then 0 else zone(Unix(t))
  }

  /** The wall clock that is shown: UTC's, or the location's. */
  function Shown(t: int, f: TimeFormat, zone: Zone): Civil { CivilOf(t + Nanos(OffsetAt(t, f, zone))) }

  lemma ShownIsWhole(t: int, f: TimeFormat, zone: Zone)
    ensures ValidCivil(Shown(t, f, zone))
    ensures WallOf(Shown(t, f, zone)) == t + Nanos(OffsetAt(t, f, zone))
  {
    CivilOfIsWhole(t + Nanos(OffsetAt(t, f, zone)));
    hide CivilOf, ValidCivil;
  }

  function FormatText(t: int, f: TimeFormat, zone: Zone): string {
    PiecesText(Written(f).pieces, Shown(t, f, zone)) +
    (if Written(f).zone then ZoneText(OffsetAt(t, f, zone)) else "")
  }

  // ---- Reading ------------------------------------------------------------------

  predicate IsDigit(c: char) { '0' <= c <= '9' }

  predicate AllDigits(s: string) { forall i :: 0 <= i < |s| ==> IsDigit(s[i]) }

  function Value(s: string): nat
    requires AllDigits(s)
  {
    if s == "" then 0 else Value(s[..|s| - 1]) * 10 + (s[|s| - 1] - '0') as nat
  }

  /** Go's getnum: two digits, or one where the layout does not fix two. */
  function GetNum(s: string, fixed: bool): Option<(nat, string)> {
    if |s| >= 2 && IsDigit(s[0]) && IsDigit(s[1]) then Some((Value(s[..2]), s[2..]))
    else if |s| >= 1 && IsDigit(s[0]) && !fixed then Some((Value(s[..1]), s[1..]))
    else None
  }

  function DigitRun(s: string): (n: nat)
    ensures n <= |s| && AllDigits(s[..n])
  {
    if s == "" || !IsDigit(s[0]) then 0 else 1 + DigitRun(s[1..])
  }

  function Scale(n: nat, zeros: nat): nat { if zeros == 0 then n else Scale(n, zeros - 1) * 10 }

  function SkipSpaces(s: string): string {
    if s != "" && s[0] == ' ' then SkipSpaces(s[1..]) else s
  }

  function SetField(f: Field, c: Civil, n: int): Civil {
    match f
    case Year => c.(year := n) case Month => c.(month := n) case Day => c.(day := n)
    case Hour => c.(hour := n) case Minute => c.(minute := n) case Second => c.(second := n)
  }

  /** What the layout's own field accepts; the day is checked against its month at the end. */
  predicate InRange(f: Field, n: int) {
    match f
    case Year => true case Month => 1 <= n <= 12 case Day => true
    case Hour => n < 24 case Minute => n < 60 case Second => n < 60
  }

  function ReadNumber(f: Field, s: string): Option<(nat, string)> {
    if f == Year then
      if |s| >= 4 && AllDigits(s[..4]) then Some((Value(s[..4]), s[4..])) else None
    else GetNum(s, f != Hour)
  }

  function ReadPiece(p: Piece, s: string, c: Civil): Option<(Civil, string)> {
    match p
    case Lit(ch) =>
      if ch == ' ' then (if s == "" || s[0] == ' ' then Some((c, SkipSpaces(s))) else None)
      else if s != "" && s[0] == ch then Some((c, s[1..]))
      else None
    case Part(f) =>
      (match ReadNumber(f, s)
       case Some((n, rest)) => if InRange(f, n) then Some((SetField(f, c, n), rest)) else None
       case None => None)
    case Fraction =>
      if |s| >= 2 && (s[0] == '.' || s[0] == ',') && IsDigit(s[1]) then
        var k := DigitRun(s[1..]);
        var used := if k > 9 then 9 else k;
        assert AllDigits(s[1..][..k][..used]) && s[1..][..k][..used] == s[1..1 + used];
        Some((c.(nano := Scale(Value(s[1..1 + used]), 9 - used)), s[1 + k..]))
      else Some((c, s))
  }

  function ReadPieces(ps: seq<Piece>, s: string, c: Civil): Option<(Civil, string)> {
    if ps == [] then Some((c, s))
    else match ReadPiece(ps[0], s, c)
      case Some((d, rest)) => ReadPieces(ps[1..], rest, d)
      case None => None
  }

  /** "-07:00": offsets of up to 24 hours and 60 minutes are read. */
  function ReadZone(s: string): Option<(int, string)> {
    if |s| < 6 || s[3] != ':' then None
    else match (GetNum(s[1..3], true), GetNum(s[4..6], true))
      case (Some((h, _)), Some((m, _))) =>
        if h > 24 || m > 60 || (s[0] != '+' && s[0] != '-') then None
        else var offset: int := (h * 60 + m) * 60; Some((if s[0] == '-' then -offset else offset, s[6..]))
      case _ => None
  }

  /** Go's time.Date in a location: the offset at the wall clock read as UTC, and if that leads
      elsewhere the offset there. */
  function NaiveInstant(wall: int, zone: Zone): int {
    var seconds := Unix(wall);
    wall - Nanos(zone(seconds - zone(seconds)))
  }

  const BLANK := Civil(0, 1, 1, 0, 0, 0, 0)

  function ParseLayout(l: Layout, s: string, zone: Zone): Option<int> {
    match ReadPieces(l.pieces, s, BLANK)
    case None => None
    case Some((c, rest)) =>
      if l.zone then
        match ReadZone(rest)
        case Some((offset, end)) =>
          if end == "" && ValidCivil(c) then Some(WallOf(c) - Nanos(offset)) else None
        case None => None
      else if rest == "" && ValidCivil(c) then Some(NaiveInstant(WallOf(c), zone))
      else None
  }

  function FirstMatch(ls: seq<Layout>, s: string, zone: Zone): Option<int> {
    if ls == [] then None
    else match ParseLayout(ls[0], s, zone)
      case Some(t) => Some(t)
      case None => FirstMatch(ls[1..], s, zone)
  }

  /** parseTimeString: a trailing Z is cut off and means UTC. */
  function ParseText(s: string, zone: Zone): Option<int> {
    if s != "" && s[|s| - 1] == 'Z' then FirstMatch(LAYOUTS, s[..|s| - 1], UTC)
    else FirstMatch(LAYOUTS, s, zone)
  }
}
