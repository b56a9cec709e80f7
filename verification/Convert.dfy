/** Go values as SQLite values and back: encodeValue and decodeValue of driver/convert.go. */
module Convert {
  import opened Wrappers
  import opened Calendar
  import opened TimeText
  import opened TimeReading
  import opened TimeTheorems
  import TimeInteger
  import Wire

  type Byte = Wire.Byte

  datatype Config = Config(loc: Zone, timeFormat: TimeFormat, integerTime: TimeInteger.IntegerTimeFormat)

  datatype Class = OtherClass | TimeClass | BoolClass

  /** What database/sql hands a driver; a []byte may be nil. */
  datatype GoValue =
    | Nil | Int(n: int) | Boolean(b: bool) | Float(bits: nat) | Str(s: seq<Byte>)
    | Blob(bytes: Option<seq<Byte>>) | Time(t: int)

  /** Go's text is bytes; the layouts' is ASCII. */
  function ToBytes(s: string): seq<Byte> { seq(|s|, i requires 0 <= i < |s| => s[i] as int % 256) }

  function ToText(b: seq<Byte>): string { seq(|b|, i requires 0 <= i < |b| => b[i] as char) }

  function EncodeValue(v: GoValue, cfg: Config): Wire.Value {
    match v
    case Nil => Wire.NullValue
    case Int(n) => Wire.IntValue(n)
    case Boolean(b) => Wire.IntValue(if b then 1 else 0)
    case Float(bits) => Wire.RealValue(bits)
    case Str(s) => Wire.TextValue(s)
    case Blob(None) => Wire.NullValue
    case Blob(Some(s)) => Wire.BlobValue(s)
    case Time(t) =>
      if cfg.integerTime != TimeInteger.NoFormat then Wire.IntValue(TimeInteger.FromTime(t, cfg.integerTime))
      else Wire.TextValue(ToBytes(FormatText(t, cfg.timeFormat, cfg.loc)))
  }

  function DecodeValue(v: Wire.Value, column: Class, cfg: Config): GoValue {
    match v
    case NullValue => Nil
    case IntValue(n) =>
      if column == TimeClass then Time(TimeInteger.ToTime(n, cfg.integerTime))
      else if column == BoolClass then Boolean(n != 0)
      else Int(n)
    case RealValue(bits) => Float(bits)
    case TextValue(s) =>
      if column == TimeClass then
        match ParseText(ToText(s), cfg.loc)
        case Some(t) => Time(t)
        case None => Str(s)
      else Str(s)
    case BlobValue(s) => Blob(Some(s))
  }

  // ---- The text of a time is ASCII -----------------------------------------------------

  predicate Ascii(s: string) { forall i :: 0 <= i < |s| ==> (s[i] as int) < 128 }

  lemma DigitsAscii(n: int, width: nat)
    ensures Ascii(IntText(n, width))
  {
    PaddedIs(if n < 0 then -n else n, width);
  }

  lemma {:induction false} PiecesAscii(ps: seq<Piece>, c: Civil)
    requires forall i :: 0 <= i < |ps| ==> ps[i].Lit? ==> (ps[i].c as int) < 128
    ensures Ascii(PiecesText(ps, c))
  {
    if ps != [] {
      PiecesAscii(ps[1..], c);
      match ps[0]
      case Lit(_) =>
      case Part(f) => DigitsAscii(FieldOf(f, c), Width(f));
      case Fraction => DigitsAscii(c.nano, 9);
    }
  }

  lemma ZoneAscii(offset: int)
    ensures Ascii(ZoneText(offset))
  {
    var m := OffsetMinutes(offset);
    var n := if m < 0 then -m else m;
    hide IntText, OffsetMinutes;
    DigitsAscii(n / 60, 2);
    DigitsAscii(n % 60, 2);
  }

  lemma LayoutAscii(f: TimeFormat)
    ensures var ps := Written(f).pieces; forall i :: 0 <= i < |ps| ==> ps[i].Lit? ==> (ps[i].c as int) < 128
  {}

  lemma FormatAscii(t: int, f: TimeFormat, zone: Zone)
    ensures Ascii(FormatText(t, f, zone))
  {
    LayoutAscii(f);
    hide PiecesText, Shown, OffsetAt, ZoneText, Written;
    PiecesAscii(Written(f).pieces, Shown(t, f, zone));
    ZoneAscii(OffsetAt(t, f, zone));
  }

  lemma TextOfBytes(s: string)
    requires Ascii(s)
    ensures ToText(ToBytes(s)) == s
  {}

  // ---- What survives ---------------------------------------------------------------------

  /** The instants that the configured form can hold. */
  predicate Keeps(t: int, cfg: Config) {
    if cfg.integerTime != TimeInteger.NoFormat then
      t % TimeInteger.Unit(cfg.integerTime) == 0 && TimeInteger.IsInt64(t / TimeInteger.Unit(cfg.integerTime))
    else
      FourDigitYear(Shown(t, cfg.timeFormat, cfg.loc)) &&
      match cfg.timeFormat
      case FormatUTC => true
      case FormatOffset => -90000 < cfg.loc(Unix(t)) < 90000 && cfg.loc(Unix(t)) % 60 == 0
      case FormatDatetime =>
        var local := Unix(t) + cfg.loc(Unix(t));
        Nano(t) == 0 && cfg.loc(local - cfg.loc(local)) == cfg.loc(Unix(t))
  }

  lemma TextKeeps(t: int, cfg: Config)
    requires cfg.integerTime == TimeInteger.NoFormat
    ensures ParseText(FormatText(t, cfg.timeFormat, cfg.loc), cfg.loc) == Some(t) <==> Keeps(t, cfg)
  {
    match cfg.timeFormat
    case FormatUTC => UtcRoundTrip(t, cfg.loc, cfg.loc); hide ParseText, FormatText, Shown;
    case FormatOffset => OffsetRoundTrip(t, cfg.loc, cfg.loc); hide ParseText, FormatText, Shown;
    case FormatDatetime => DatetimeRoundTrip(t, cfg.loc); hide ParseText, FormatText, Shown;
  }

  /** A time bound as an argument and read from a time-class column is the same instant exactly when
      the configured form can hold it. */
  lemma TimeSurvives(t: int, cfg: Config)
    ensures DecodeValue(EncodeValue(Time(t), cfg), TimeClass, cfg) == Time(t) <==> Keeps(t, cfg)
  {
    if cfg.integerTime != TimeInteger.NoFormat {
      TimeInteger.IntegerRoundTrip(t, cfg.integerTime);
      hide TimeInteger.FromTime, TimeInteger.ToTime, FormatText, ParseText, Shown;
    } else {
      TextKeeps(t, cfg);
      FormatAscii(t, cfg.timeFormat, cfg.loc);
      TextOfBytes(FormatText(t, cfg.timeFormat, cfg.loc));
      hide FormatText, ParseText, Ascii, ToText, ToBytes, Keeps;
    }
  }

  /** What comes back the value it was, by the class of the column. */
  predicate Survives(v: GoValue, column: Class, cfg: Config) {
    match v
    case Nil => true
    case Int(_) => column == OtherClass
    case Boolean(_) => column == BoolClass
    case Float(_) => true
    case Str(s) => column != TimeClass || ParseText(ToText(s), cfg.loc).None?
    case Blob(b) => b.Some?
    case Time(t) => column == TimeClass && Keeps(t, cfg)
  }

  lemma ValueSurvives(v: GoValue, column: Class, cfg: Config)
    ensures DecodeValue(EncodeValue(v, cfg), column, cfg) == v <==> Survives(v, column, cfg)
  {
    if v.Time? { TimeSurvives(v.t, cfg); }
    hide TimeInteger.FromTime, TimeInteger.ToTime, FormatText, ParseText, Keeps, ToBytes, ToText;
  }

  /** What is read from the storage classes, by the class of the column, whatever wrote it. */
  lemma ReadsStored(v: Wire.Value, column: Class, cfg: Config)
    // NULL, REAL and BLOB are themselves in every column: a REAL is never a time.
    ensures v.NullValue? ==> DecodeValue(v, column, cfg) == Nil
    ensures v.RealValue? ==> DecodeValue(v, column, cfg) == Float(v.bits)
    ensures v.BlobValue? ==> DecodeValue(v, column, cfg) == Blob(Some(v.bytes))
    // In a boolean column an integer is false exactly when it is 0.
    ensures v.IntValue? && column == BoolClass && v.n == 0 ==> DecodeValue(v, column, cfg) == Boolean(false)
    ensures v.IntValue? && column == BoolClass && v.n != 0 ==> DecodeValue(v, column, cfg) == Boolean(true)
    ensures v.IntValue? && column == OtherClass ==> DecodeValue(v, column, cfg) == Int(v.n)
    // In a time column it counts the configured units; without any, seconds up to a magnitude of
    // 10^12 and milliseconds above.
    ensures v.IntValue? && column == TimeClass && cfg.integerTime == TimeInteger.NoFormat ==>
              DecodeValue(v, column, cfg) ==
                Time(v.n * if -1_000_000_000_000 <= v.n <= 1_000_000_000_000 then 1_000_000_000 else 1_000_000)
    ensures v.IntValue? && column == TimeClass && cfg.integerTime == TimeInteger.UnixSeconds ==>
              DecodeValue(v, column, cfg) == Time(v.n * 1_000_000_000)
    ensures v.IntValue? && column == TimeClass && cfg.integerTime == TimeInteger.UnixMilli ==>
              DecodeValue(v, column, cfg) == Time(v.n * 1_000_000)
    ensures v.IntValue? && column == TimeClass && cfg.integerTime == TimeInteger.UnixMicro ==>
              DecodeValue(v, column, cfg) == Time(v.n * 1_000)
    ensures v.IntValue? && column == TimeClass && cfg.integerTime == TimeInteger.UnixNano ==>
              DecodeValue(v, column, cfg) == Time(v.n)
    // Text is itself, except in a time column when some layout reads it in the configured location.
    ensures v.TextValue? && column != TimeClass ==> DecodeValue(v, column, cfg) == Str(v.bytes)
    ensures v.TextValue? && column == TimeClass ==>
              DecodeValue(v, column, cfg) ==
                match ParseText(ToText(v.bytes), cfg.loc) { case Some(t) => Time(t) case None => Str(v.bytes) }
  {
    hide ParseText, ToText;
  }

  /** What is written for a value: its own storage class, a bool as 1 or 0, no value as NULL, and a time
      as the configured text or integer. */
  lemma WritesStored(v: GoValue, cfg: Config)
    ensures v == Nil || v == Blob(None) <==> EncodeValue(v, cfg).NullValue?
    ensures v.Int? ==> EncodeValue(v, cfg) == Wire.IntValue(v.n)
    ensures v == Boolean(true) ==> EncodeValue(v, cfg) == Wire.IntValue(1)
    ensures v == Boolean(false) ==> EncodeValue(v, cfg) == Wire.IntValue(0)
    ensures v.Float? ==> EncodeValue(v, cfg) == Wire.RealValue(v.bits)
    ensures v.Str? ==> EncodeValue(v, cfg) == Wire.TextValue(v.s)
    ensures v.Blob? && v.bytes.Some? ==> EncodeValue(v, cfg) == Wire.BlobValue(v.bytes.value)
    ensures v.Time? ==> if cfg.integerTime == TimeInteger.NoFormat then EncodeValue(v, cfg).TextValue?
                        else EncodeValue(v, cfg).IntValue?
  {
    hide FormatText;
  }
}
