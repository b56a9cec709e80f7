/** Timestamps as integers: integerFromTime and timeFromInteger of driver/timefmt.go. */
module TimeInteger {

  datatype IntegerTimeFormat = NoFormat | UnixSeconds | UnixMilli | UnixMicro | UnixNano

  /** Nanoseconds to a unit; without a format, integers are written as seconds. */
  function Unit(f: IntegerTimeFormat): nat {
    match f
    case NoFormat => 1_000_000_000
    case UnixSeconds => 1_000_000_000
    case UnixMilli => 1_000_000
    case UnixMicro => 1_000
    case UnixNano => 1
  }

  /** Go's int64 arithmetic. */
  function Wrap64(n: int): int { (n + 0x8000_0000_0000_0000) % 0x1_0000_0000_0000_0000 - 0x8000_0000_0000_0000 }

  predicate IsInt64(n: int) { -0x8000_0000_0000_0000 <= n < 0x8000_0000_0000_0000 }

  function FromTime(t: int, f: IntegerTimeFormat): int { Wrap64(t / Unit(f)) }

  /** Without a format a magnitude over 10^12 is taken for milliseconds. */
  function ToTime(v: int, f: IntegerTimeFormat): int {
    if f == NoFormat && (v > 1_000_000_000_000 || v < -1_000_000_000_000) then v * 1_000_000
    else v * Unit(f)
  }

  lemma WrapIs(n: int)
    ensures IsInt64(Wrap64(n)) && (Wrap64(n) == n <==> IsInt64(n))
  {}

  /** With an explicit format an instant comes back exactly when it is a whole number of units that
      an int64 holds. */
  lemma IntegerRoundTrip(t: int, f: IntegerTimeFormat)
    requires f != NoFormat
    ensures ToTime(FromTime(t, f), f) == t <==> t % Unit(f) == 0 && IsInt64(t / Unit(f))
  {
    WrapIs(t / Unit(f));
    hide Wrap64, IsInt64;
  }

  /** The heuristic reads a count of milliseconds as what it is exactly when its magnitude is over
      10^12, and a count of seconds exactly when it is not; nought is nought either way. */
  lemma HeuristicIsRight(v: int)
    ensures ToTime(v, NoFormat) == ToTime(v, UnixMilli) <==> v > 1_000_000_000_000 || v < -1_000_000_000_000 || v == 0
    ensures ToTime(v, NoFormat) == ToTime(v, UnixSeconds) <==> -1_000_000_000_000 <= v <= 1_000_000_000_000
  {}

  /** The units: an integer counts seconds, and a thousand of each smaller unit make one of the next. */
  lemma UnitsNest(v: int)
    ensures ToTime(v, UnixSeconds) == v * 1_000_000_000
    ensures ToTime(1000 * v, UnixMilli) == ToTime(v, UnixSeconds)
    ensures ToTime(1000 * v, UnixMicro) == ToTime(v, UnixMilli)
    ensures ToTime(1000 * v, UnixNano) == ToTime(v, UnixMicro)
  {}

  /** An instant is written as the last whole unit that is not after it, where an int64 holds that. */
  lemma WrittenBelow(t: int, f: IntegerTimeFormat)
    requires f != NoFormat && IsInt64(t / Unit(f))
    ensures ToTime(FromTime(t, f), f) <= t < ToTime(FromTime(t, f) + 1, f)
  {
    WrapIs(t / Unit(f));
    hide Wrap64, IsInt64;
  }
}
