// ISO-8601 date-times as the validators read them: `YYYY-MM-DD`, then
// optionally a separator (`T` or a space), a clock `HH:MM`, `HH:MM:SS`,
// `HH:MM:SS.fff` or `HH:MM:SS.ffffff`, and an optional UTC offset `+HH:MM`
// or `-HH:MM` (and `Z` where pandas reads it). The same reader stands for
// pandas' to_datetime and for datetime.fromisoformat on these spellings.
module Timestamps {
  import opened Wrappers
  import opened Strings
  import opened Calendar

  /** A point in time: a calendar date, microseconds since midnight and, when the text carried one, a UTC offset in minutes. */
  datatype Moment = Moment(date: Date, micros: nat, offset: Option<int>)

  const MicrosPerDay := 86400000000

  /** A moment as datetime builds it: a real date, a clock within the day, an offset within a day. */
  predicate WellFormed(m: Moment)
  {
    ValidDate(m.date) && m.date.year >= 1 && m.micros < MicrosPerDay
    && (m.offset.Some? ==> -1440 < m.offset.value < 1440)
  }

  /** Two digits at position i, as a number. */
  function Two(s: string, i: nat): Option<nat>
  {
    if i + 2 <= |s| && IsDigit(s[i]) && IsDigit(s[i + 1]) then Some(10 * DigitValue(s[i]) + DigitValue(s[i + 1])) else None
  }

  /** `YYYY-MM-DD` at the start of s, a real date of year 1 or later. */
  function DatePart(s: string): (r: Option<Date>)
    ensures r.Some? ==> ValidDate(r.value) && r.value.year >= 1
  {
    if |s| < 10 || s[4] != '-' || s[7] != '-' then None
    else match (Two(s, 0), Two(s, 2), Two(s, 5), Two(s, 8))
      case (Some(y1), Some(y2), Some(m), Some(d)) =>
        var date := Date(100 * y1 + y2, m, d);
        if ValidDate(date) && date.year >= 1 then Some(date) else None
      case _ => None
  }

  /** Exactly k digits as a number. */
  function DigitsAt(s: string, i: nat, k: nat): Option<nat>
  {
    if i + k <= |s| && AllDigits(s[i..i + k]) then Some(DigitsValue(s[i..i + k])) else None
  }

  /**
   * The clock at the start of c: its microseconds since midnight and how
   * many characters it took (5, 8, 12 or 15).
   */
  function Clock(c: string): (r: Option<(nat, nat)>)
    ensures r.Some? ==> r.value.0 < MicrosPerDay && r.value.1 <= |c|
  {
    if |c| < 5 || c[2] != ':' || Two(c, 0).None? || Two(c, 3).None? then None
    else
      var h, mi := Two(c, 0).value, Two(c, 3).value;
      if h > 23 || mi > 59 then None
      else
        var base := (h * 60 + mi) * 60000000;
        if |c| == 5 || c[5] != ':' then Some((base, 5))
        else if Two(c, 6).None? || Two(c, 6).value > 59 then None
        else
          var whole := base + Two(c, 6).value * 1000000;
          if |c| == 8 || c[8] != '.' then Some((whole, 8))
          else Fraction(c, whole)
  }

  /** `.ffffff` or `.fff` after the seconds, in microseconds added to `whole`. */
  function Fraction(c: string, whole: nat): (r: Option<(nat, nat)>)
    requires whole + 1000000 <= MicrosPerDay
    ensures r.Some? ==> r.value.0 < MicrosPerDay && r.value.1 <= |c|
  {
    if DigitsAt(c, 9, 6).Some? then
      DigitsValueBound(c[9..15]);
      Some((whole + DigitsAt(c, 9, 6).value, 15))
    else if DigitsAt(c, 9, 3).Some? then
      DigitsValueBound(c[9..12]);
      Some((whole + DigitsAt(c, 9, 3).value * 1000, 12))
    else None
  }

  /** What may follow the clock: nothing, `+HH:MM`, `-HH:MM`, or `Z` when allowed. `Some(None)` is a naive time. */
  function Offset(u: string, allowZ: bool): (r: Option<Option<int>>)
    ensures r.Some? && r.value.Some? ==> -1440 < r.value.value < 1440
    ensures u == "" ==> r == Some(None)
  {
    if u == [] then Some(None)
    else if allowZ && u == "Z" then Some(Some(0))
    else if |u| != 6 || (u[0] != '+' && u[0] != '-') || u[3] != ':' then None
    else match (Two(u, 1), Two(u, 4))
      case (Some(h), Some(mi)) =>
        if h > 23 || mi > 59 then None
        else Some(Some(if u[0] == '-' then -(h * 60 + mi) else h * 60 + mi))
      case _ => None
  }

  /** The reader: the whole of s must be taken. */
  function ParseIso(s: string, allowZ: bool): (r: Option<Moment>)
    ensures r.Some? ==> WellFormed(r.value)
  {
    match DatePart(s)
      case None => None
      case Some(d) =>
        if |s| == 10 then Some(Moment(d, 0, None))
        else if s[10] != 'T' && s[10] != ' ' then None
        else match Clock(s[11..])
          case None => None
          case Some((t, n)) =>
            match Offset(s[11 + n..], allowZ)
              case None => None
              case Some(off) => Some(Moment(d, t, off))
  }

  /** pd.to_datetime on text. */
  function PandasDatetime(s: string): Option<Moment>
  {
    ParseIso(s, true)
  }

  /** datetime.fromisoformat, which does not read `Z`. */
  function FromIsoFormat(s: string): Option<Moment>
  {
    ParseIso(s, false)
  }

  /** `s.replace('Z', '+00:00')`. */
  function ReplaceZ(s: string): (r: string)
    ensures 'Z' !in r
  {
    if s == [] then [] else (if s[0] == 'Z' then "+00:00" else [s[0]]) + ReplaceZ(s[1..])
  }

  /** Text without a `Z` is left as it is. */
  lemma {:induction false} ReplaceZNoZ(s: string)
    requires 'Z' !in s
    ensures ReplaceZ(s) == s
  {
    if s != [] {
      ReplaceZNoZ(s[1..]);
    }
  }

  /** `a <= b` between two naive date-times. */
  predicate NotLater(a: Moment, b: Moment)
  {
    if a.date == b.date then a.micros <= b.micros else NotAfter(a.date, b.date)
  }

  /** The year the reader takes is the number in the first four characters. */
  lemma ParsedYear(s: string, allowZ: bool)
    requires ParseIso(s, allowZ).Some?
    ensures |s| >= 10 && AllDigits(s[..4])
    ensures ParseIso(s, allowZ).value.date.year == 100 * Two(s, 0).value + Two(s, 2).value
  {
    assert forall k :: 0 <= k < 4 ==> s[..4][k] == s[k];
  }

  /** Text whose first character is not a digit is never read. */
  lemma NoLeadingDigit(s: string, allowZ: bool)
    requires s == [] || !IsDigit(s[0])
    ensures ParseIso(s, allowZ) == None
  {
  }

  /** The date-only spelling reads as midnight with no offset. */
  lemma DateOnly(d: Date, s: string, allowZ: bool)
    requires |s| == 10 && DatePart(s) == Some(d)
    ensures ParseIso(s, allowZ) == Some(Moment(d, 0, None))
  {
  }

  function SecondsOfDay(h: nat, mi: nat, sec: nat): nat
  {
    (h * 60 + mi) * 60000000 + sec * 1000000
  }

  /** `YYYY-MM-DD HH:MM:SS` with fields in range reads as that naive moment, with either separator. */
  lemma SecondsSpelling(s: string, allowZ: bool, d: Date, h: nat, mi: nat, sec: nat)
    requires |s| == 19 && DatePart(s) == Some(d) && (s[10] == 'T' || s[10] == ' ')
    requires s[13] == ':' && s[16] == ':'
    requires Two(s, 11) == Some(h) && Two(s, 14) == Some(mi) && Two(s, 17) == Some(sec)
    requires h <= 23 && mi <= 59 && sec <= 59
    ensures ParseIso(s, allowZ) == Some(Moment(d, SecondsOfDay(h, mi, sec), None))
  {
    var c := s[11..];
    assert |c| == 8 && c[2] == ':' && c[5] == ':';
    assert Two(c, 0) == Two(s, 11) && Two(c, 3) == Two(s, 14) && Two(c, 6) == Two(s, 17);
    assert Clock(c) == Some((SecondsOfDay(h, mi, sec), 8));
    assert s[19..] == [];
  }

  /** `Z` is read by pandas and refused by fromisoformat, which reads its replacement `+00:00` instead. */
  lemma ZuluSuffix(s: string, d: Date, t: nat, n: nat)
    requires |s| > 11 && DatePart(s) == Some(d) && (s[10] == 'T' || s[10] == ' ')
    requires Clock(s[11..]) == Some((t, n)) && s[11 + n..] == "Z"
    ensures PandasDatetime(s) == Some(Moment(d, t, Some(0)))
    ensures FromIsoFormat(s) == None
  {
  }

  /** Text `2024-01-15?HH:MM:00`, with `T` or a space between, as the example records write it. */
  lemma Jan15Stamp(s: string, allowZ: bool, h: nat, mi: nat)
    requires |s| == 19 && s[..10] == "2024-01-15" && (s[10] == 'T' || s[10] == ' ') && s[13] == ':' && s[16..] == ":00"
    requires Two(s, 11) == Some(h) && Two(s, 14) == Some(mi) && h <= 23 && mi <= 59
    ensures ParseIso(s, allowZ) == Some(Moment(Date(2024, 1, 15), SecondsOfDay(h, mi, 0), None))
  {
    assert s[0] == '2' && s[1] == '0' && s[2] == '2' && s[3] == '4' && s[4] == '-' by {
      assert s[..10][0] == s[0] && s[..10][1] == s[1] && s[..10][2] == s[2] && s[..10][3] == s[3] && s[..10][4] == s[4];
    }
    assert s[5] == '0' && s[6] == '1' && s[7] == '-' && s[8] == '1' && s[9] == '5' by {
      assert s[..10][5] == s[5] && s[..10][6] == s[6] && s[..10][7] == s[7] && s[..10][8] == s[8] && s[..10][9] == s[9];
    }
    assert s[16] == ':' && s[17] == '0' && s[18] == '0' by {
      assert s[16..][0] == s[16] && s[16..][1] == s[17] && s[16..][2] == s[18];
    }
    assert DatePart(s) == Some(Date(2024, 1, 15));
    SecondsSpelling(s, allowZ, Date(2024, 1, 15), h, mi, 0);
  }

  /** The ordinal of 1970-01-01, day 0 of the Unix epoch. */
  const EpochOrdinal := 719163

  const NanosPerDay := 86400000000000

  /** The instant a naive moment names, in nanoseconds since 1970-01-01 00:00 (a pandas Timestamp's `value`). */
  function EpochNanos(m: Moment): int
    requires 1 <= m.date.month <= 12
  {
    (Ordinal(m.date) - EpochOrdinal) * NanosPerDay + m.micros * 1000
  }

  /** 2^63: a Timestamp's nanosecond count is an int64, and its least value is reserved for NaT. */
  const Int64Bound := 0x8000_0000_0000_0000

  /**
   * pd.to_datetime on a number: the number counts nanoseconds since the
   * epoch. A float is cast to int64, dropping any fraction toward zero; a
   * count outside int64, or int64's least value (which is NaT), gives no
   * Timestamp.
   */
  function NumberNanos(x: real): (r: Option<int>)
    ensures r.Some? ==> -Int64Bound < r.value < Int64Bound
    ensures r.Some? ==> (r.value as real) <= x < (r.value as real) + 1.0 || (r.value as real) - 1.0 < x <= (r.value as real)
  {
    var n := if x >= 0.0 then x.Floor else -((-x).Floor);
    if -Int64Bound < n < Int64Bound then Some(n) else None
  }

  /** Naive moments compare as the instants they name. */
  lemma EpochOrder(a: Moment, b: Moment)
    requires ValidDate(a.date) && a.micros < MicrosPerDay
    requires ValidDate(b.date) && b.micros < MicrosPerDay
    ensures NotLater(a, b) <==> EpochNanos(a) <= EpochNanos(b)
  {
    OrdinalOrder(a.date, b.date);
    if a.date != b.date && NotAfter(a.date, b.date) {
      OrdinalBefore(a.date, b.date);
    } else if !NotAfter(a.date, b.date) {
      OrdinalBefore(b.date, a.date);
    }
  }

  /** The first instant of 2020, 1577836800 seconds after the epoch. */
  const Start2020 := Moment(Date(2020, 1, 1), 0, None)

  lemma Start2020Nanos()
    ensures EpochNanos(Start2020) == 1577836800000000000
  {
  }

  /** A moment's year is 2020 or later exactly when it is not before 2020-01-01 00:00. */
  lemma YearFrom2020(m: Moment)
    requires ValidDate(m.date) && m.micros < MicrosPerDay
    ensures m.date.year >= 2020 <==> EpochNanos(m) >= 1577836800000000000
  {
    Start2020Nanos();
    EpochOrder(Start2020, m);
  }
}
