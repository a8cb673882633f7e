// The part of `strptime` that the processors rely on, as Python's _strptime
// and pandas' array_strptime implement it: every directive becomes a regular
// expression with ordered alternatives, the expression is matched from the
// start with backtracking, the whole input must be consumed ("unconverted data
// remains" otherwise), and the captured fields must form a real date that a
// pandas Timestamp can hold.
module Strptime {
  import opened Wrappers
  import opened Strings
  import opened Calendar

  /** %d, %m, %y, %Y and a literal character. */
  datatype Directive = Day | Month | Year2 | Year4 | Lit(c: char)

  type Format = seq<Directive>

  const MonthDayYear2: Format := [Month, Lit('/'), Day, Lit('/'), Year2]       // %m/%d/%y
  const DayMonthYear2: Format := [Day, Lit('/'), Month, Lit('/'), Year2]       // %d/%m/%y
  const MonthDayYear4: Format := [Month, Lit('/'), Day, Lit('/'), Year4]       // %m/%d/%Y
  const DayMonthYear4: Format := [Day, Lit('/'), Month, Lit('/'), Year4]       // %d/%m/%Y
  const IsoDate: Format := [Year4, Lit('-'), Month, Lit('-'), Day]             // %Y-%m-%d
  const MonthDayYear4Dash: Format := [Month, Lit('-'), Day, Lit('-'), Year4]   // %m-%d-%Y
  const DayMonthYear4Dash: Format := [Day, Lit('-'), Month, Lit('-'), Year4]   // %d-%m-%Y

  /** One way a directive's regular expression can match: characters consumed and value captured. */
  datatype Alt = Alt(len: nat, value: int)

  /** The two-digit-year rule of POSIX strptime(): 00..68 are 2000..2068, 69..99 are 1969..1999. */
  function Year2Value(yy: int): (y: int)
    requires 0 <= yy <= 99
    ensures 1969 <= y <= 2068 && y % 100 == yy
  {
    if yy <= 68 then 2000 + yy else 1900 + yy
  }

  predicate NonZeroDigit(c: char) { '1' <= c <= '9' }

  /** `3[01]|[12]\d|0[1-9]|[1-9]| [1-9]`, alternatives in regular-expression order. */
  function DayAlternatives(s: string): (alts: seq<Alt>)
    ensures forall a :: a in alts ==> 1 <= a.len <= |s| && 1 <= a.value <= 31
  {
    (if |s| >= 2 && s[0] == '3' && (s[1] == '0' || s[1] == '1') then [Alt(2, 30 + DigitValue(s[1]))] else [])
    + (if |s| >= 2 && (s[0] == '1' || s[0] == '2') && IsDigit(s[1]) then [Alt(2, 10 * DigitValue(s[0]) + DigitValue(s[1]))] else [])
    + (if |s| >= 2 && s[0] == '0' && NonZeroDigit(s[1]) then [Alt(2, DigitValue(s[1]))] else [])
    + (if |s| >= 1 && NonZeroDigit(s[0]) then [Alt(1, DigitValue(s[0]))] else [])
    + (if |s| >= 2 && s[0] == ' ' && NonZeroDigit(s[1]) then [Alt(2, DigitValue(s[1]))] else [])
  }

  /** `1[0-2]|0[1-9]|[1-9]`. */
  function MonthAlternatives(s: string): (alts: seq<Alt>)
    ensures forall a :: a in alts ==> 1 <= a.len <= |s| && 1 <= a.value <= 12
  {
    (if |s| >= 2 && s[0] == '1' && (s[1] == '0' || s[1] == '1' || s[1] == '2') then [Alt(2, 10 + DigitValue(s[1]))] else [])
    + (if |s| >= 2 && s[0] == '0' && NonZeroDigit(s[1]) then [Alt(2, DigitValue(s[1]))] else [])
    + (if |s| >= 1 && NonZeroDigit(s[0]) then [Alt(1, DigitValue(s[0]))] else [])
  }

  /** `\d\d`, converted by the two-digit-year rule. */
  function Year2Alternatives(s: string): (alts: seq<Alt>)
    ensures forall a :: a in alts ==>
              a.len == 2 <= |s| && IsDigit(s[0]) && IsDigit(s[1]) && a.value == Year2Value(10 * DigitValue(s[0]) + DigitValue(s[1]))
  {
    if |s| >= 2 && IsDigit(s[0]) && IsDigit(s[1]) then [Alt(2, Year2Value(10 * DigitValue(s[0]) + DigitValue(s[1])))] else []
  }

  /** `\d\d\d\d`. */
  function Year4Alternatives(s: string): (alts: seq<Alt>)
    ensures forall a :: a in alts ==> a.len == 4 <= |s| && 0 <= a.value <= 9999
  {
    if |s| >= 4 && AllDigits(s[..4]) then DigitsValueBound(s[..4]); [Alt(4, DigitsValue(s[..4]))] else []
  }

  /** The values a directive can capture. */
  predicate InRange(x: Directive, v: int)
  {
    match x
    case Day => 1 <= v <= 31
    case Month => 1 <= v <= 12
    case Year2 => 1969 <= v <= 2068
    case Year4 => 0 <= v <= 9999
    case Lit(_) => true
  }

  function Alternatives(x: Directive, s: string): (alts: seq<Alt>)
    ensures forall a :: a in alts ==> 1 <= a.len <= |s| && InRange(x, a.value)
  {
    match x
    case Day => DayAlternatives(s)
    case Month => MonthAlternatives(s)
    case Year2 => Year2Alternatives(s)
    case Year4 => Year4Alternatives(s)
    case Lit(c) => if |s| >= 1 && s[0] == c then [Alt(1, 0)] else []
  }

  /** The captured fields; strptime's defaults stand where the format has no directive. */
  datatype Fields = Fields(year: int, month: int, day: int)

  const Defaults: Fields := Fields(1900, 1, 1)

  function Capture(x: Directive, v: int, f: Fields): Fields
  {
    match x
    case Day => f.(day := v)
    case Month => f.(month := v)
    case Year2 => f.(year := v)
    case Year4 => f.(year := v)
    case Lit(_) => f
  }

  /** What the captured fields can be, given which directives the format holds. */
  predicate FieldsInRange(fmt: Format, f: Fields)
  {
    (if Day in fmt then 1 <= f.day <= 31 else f.day == 1)
    && (if Month in fmt then 1 <= f.month <= 12 else f.month == 1)
    && (Year4 !in fmt ==> if Year2 in fmt then 1969 <= f.year <= 2068 else f.year == 1900)
  }

  lemma CaptureInRange(fmt: Format, v: int, f: Fields)
    requires fmt != [] && InRange(fmt[0], v) && FieldsInRange(fmt[1..], f)
    ensures FieldsInRange(fmt, Capture(fmt[0], v, f))
  {
    var x, rest := fmt[0], fmt[1..];
    assert fmt == [x] + rest;
    assert forall y :: y in fmt <==> y == x || y in rest;
  }

  /** The outcome of matching a format at the start of a string: no match, or the captured fields and the characters consumed. */
  datatype Matched = NoMatch | Matched(fields: Fields, len: nat)

  /** The first successful match of the format's expression at the start of s, in backtracking order. */
  function Match(fmt: Format, s: string): (r: Matched)
    decreases |fmt|, 1
    ensures r.Matched? ==> r.len <= |s|
  {
    if fmt == [] then Matched(Defaults, 0)
    else TryAlternatives(fmt, s, Alternatives(fmt[0], s))
  }

  /** Try the first directive's remaining alternatives in order; the first one the rest of the format accepts wins. */
  function TryAlternatives(fmt: Format, s: string, alts: seq<Alt>): (r: Matched)
    requires fmt != []
    requires forall a :: a in alts ==> a.len <= |s| && InRange(fmt[0], a.value)
    decreases |fmt|, 0, |alts|
    ensures r.Matched? ==> r.len <= |s|
  {
    if alts == [] then NoMatch
    else
      assert alts[0] in alts;
      var m := Match(fmt[1..], s[alts[0].len..]);
      if m.Matched? then Matched(Capture(fmt[0], alts[0].value, m.fields), alts[0].len + m.len)
      else TryAlternatives(fmt, s, alts[1..])
  }

  /** A match captures only values its directives allow, and the defaults where the format has no directive. */
  lemma {:induction false} MatchInRange(fmt: Format, s: string)
    decreases |fmt|, 1
    ensures Match(fmt, s).Matched? ==> FieldsInRange(fmt, Match(fmt, s).fields)
  {
    if fmt != [] {
      TryInRange(fmt, s, Alternatives(fmt[0], s));
    }
  }

  lemma {:induction false} TryInRange(fmt: Format, s: string, alts: seq<Alt>)
    requires fmt != []
    requires forall a :: a in alts ==> a.len <= |s| && InRange(fmt[0], a.value)
    decreases |fmt|, 0, |alts|
    ensures TryAlternatives(fmt, s, alts).Matched? ==> FieldsInRange(fmt, TryAlternatives(fmt, s, alts).fields)
  {
    if alts != [] {
      assert alts[0] in alts;
      var r := Match(fmt[1..], s[alts[0].len..]);
      MatchInRange(fmt[1..], s[alts[0].len..]);
      if r.Matched? {
        CaptureInRange(fmt, alts[0].value, r.fields);
      } else {
        TryInRange(fmt, s, alts[1..]);
      }
    }
  }

  /**
   * pandas.to_datetime(s, format = fmt) reduced to its date; None where pandas
   * raises (no match, unconverted data remains, day out of range for the
   * month, or out of Timestamp bounds).
   */
  function Parse(fmt: Format, s: string): (r: Option<Date>)
    ensures r.Some? ==> ValidDate(r.value) && InTimestampRange(r.value)
    ensures r.Some? && Year2 in fmt && Year4 !in fmt ==> YearWithin(r.value, 1969, 2068)
  {
    var m := Match(fmt, s);
    if m.NoMatch? then None
    else
      MatchInRange(fmt, s);
      var d := Date(m.fields.year, m.fields.month, m.fields.day);
      if m.len == |s| && ValidDate(d) && InTimestampRange(d) then Some(d) else None
  }

  // ---------------------------------------------------------------------
  // Rendering: the inverse direction, as the bank data writes its dates
  // (month and day without leading zeros, %y and %Y zero-padded).

  function Natural(x: int): nat { if x < 0 then 0 else x }

  function RenderOne(x: Directive, d: Date): string
  {
    match x
    case Day => NatToString(Natural(d.day))
    case Month => NatToString(Natural(d.month))
    case Year2 => PadZeros(d.year % 100, 2)
    case Year4 => PadZeros(Natural(d.year), 4)
    case Lit(c) => [c]
  }

  function Render(fmt: Format, d: Date): string
  {
    if fmt == [] then [] else RenderOne(fmt[0], d) + Render(fmt[1..], d)
  }

  /** Every numeric directive is followed by the end of the format or by a literal that is not a digit. */
  predicate Separated(fmt: Format)
  {
    forall i :: 0 <= i < |fmt| - 1 && !fmt[i].Lit? ==> fmt[i + 1].Lit? && !IsDigit(fmt[i + 1].c)
  }

  /** d's fields fit the directives of fmt. */
  predicate Representable(fmt: Format, d: Date)
  {
    (Day in fmt ==> 1 <= d.day <= 31) && (Month in fmt ==> 1 <= d.month <= 12)
    && (Year2 in fmt ==> 1969 <= d.year <= 2068) && (Year4 in fmt ==> 0 <= d.year <= 9999)
  }

  function FieldValue(x: Directive, d: Date): int
  {
    match x
    case Day => d.day
    case Month => d.month
    case Year2 => d.year
    case Year4 => d.year
    case Lit(_) => 0
  }

  /** The fields a match of Render(fmt, d) captures. */
  function Expected(fmt: Format, d: Date): Fields
  {
    Fields(if Year2 in fmt || Year4 in fmt then d.year else 1900,
           if Month in fmt then d.month else 1,
           if Day in fmt then d.day else 1)
  }

  /** A rendered value followed by a non-digit is matched, first of all alternatives, as itself. */
  lemma FirstAlternativeRendered(x: Directive, d: Date, t: string)
    requires Representable([x], d)
    requires !x.Lit? ==> t == [] || !IsDigit(t[0])
    ensures var alts := Alternatives(x, RenderOne(x, d) + t);
      |alts| > 0 && alts[0] == Alt(|RenderOne(x, d)|, FieldValue(x, d))
  {
    assert x in [x];
    match x
    case Day => FirstDayAlternative(d.day, t);
    case Month => FirstMonthAlternative(d.month, t);
    case Year2 => FirstYear2Alternative(d.year, t);
    case Year4 => FirstYear4Alternative(d.year, t);
    case Lit(c) =>
  }

  lemma FirstYear2Alternative(y: int, t: string)
    requires 1969 <= y <= 2068
    ensures var u := PadZeros(y % 100, 2); var alts := Year2Alternatives(u + t);
      |alts| > 0 && alts[0] == Alt(2, y)
  {
    var yy := y % 100;
    if y >= 2000 {
      assert yy == y - 2000;
    } else {
      assert yy == y - 1900;
    }
    assert Year2Value(yy) == y;
    var u := PadZeros(yy, 2);
    var s := u + t;
    assert Pow10(2) == 100;
    assert |u| == 2;
    assert s[0] == u[0] && s[1] == u[1];
    assert DigitsValue(u) == 10 * DigitValue(u[0]) + DigitValue(u[1]) by {
      assert u[..1] == [u[0]] && u[..1][..0] == [];
    }
  }

  lemma FirstYear4Alternative(y: int, t: string)
    requires 0 <= y <= 9999
    ensures var u := PadZeros(Natural(y), 4); var alts := Year4Alternatives(u + t);
      |alts| > 0 && alts[0] == Alt(4, y)
  {
    var u := PadZeros(Natural(y), 4);
    assert |u| == 4;
    assert (u + t)[..4] == u;
  }

  lemma FirstDayAlternative(v: int, t: string)
    requires 1 <= v <= 31
    requires t == [] || !IsDigit(t[0])
    ensures var u := NatToString(Natural(v)); var alts := DayAlternatives(u + t);
      |alts| > 0 && alts[0] == Alt(|u|, v)
  {
    DigitPrefix(v, t);
  }

  lemma FirstMonthAlternative(v: int, t: string)
    requires 1 <= v <= 12
    requires t == [] || !IsDigit(t[0])
    ensures var u := NatToString(Natural(v)); var alts := MonthAlternatives(u + t);
      |alts| > 0 && alts[0] == Alt(|u|, v)
  {
    DigitPrefix(v, t);
  }

  /** The characters of an unpadded number from 1 to 31 followed by a non-digit. */
  lemma DigitPrefix(v: int, t: string)
    requires 1 <= v <= 31
    requires t == [] || !IsDigit(t[0])
    ensures var s := NatToString(Natural(v)) + t;
      if v < 10 then |s| >= 1 && s[0] == DigitChar(v) && (|s| == 1 || !IsDigit(s[1]))
      else |s| >= 2 && s[0] == DigitChar(v / 10) && s[1] == DigitChar(v % 10) && |NatToString(Natural(v))| == 2
  {
    if v >= 10 {
      assert NatToString(v) == NatToString(v / 10) + [DigitChar(v % 10)];
      assert NatToString(v / 10) == [DigitChar(v / 10)];
    }
  }

  lemma {:induction false} MatchRender(fmt: Format, d: Date, t: string)
    requires Separated(fmt) && Representable(fmt, d)
    requires t == [] || !IsDigit(t[0])
    ensures Match(fmt, Render(fmt, d) + t) == Matched(Expected(fmt, d), |Render(fmt, d)|)
  {
    if fmt == [] {
      assert Expected(fmt, d) == Defaults;
    } else {
      SplitFormat(fmt, d);
      assert Render(fmt, d) + t == RenderOne(fmt[0], d) + (Render(fmt[1..], d) + t);
      MatchRender(fmt[1..], d, t);
      MatchCons(fmt, d, t);
    }
  }

  /** The inductive step of MatchRender: the first directive's text is its first alternative, and the tail matches what follows it. */
  lemma MatchCons(fmt: Format, d: Date, t: string)
    requires fmt != [] && Separated(fmt) && Representable([fmt[0]], d)
    requires t == [] || !IsDigit(t[0])
    requires var w := Render(fmt[1..], d); Match(fmt[1..], w + t) == Matched(Expected(fmt[1..], d), |w|)
    ensures var u, w := RenderOne(fmt[0], d), Render(fmt[1..], d);
      Match(fmt, u + (w + t)) == Matched(Expected(fmt, d), |u| + |w|)
  {
    var u, w := RenderOne(fmt[0], d), Render(fmt[1..], d);
    var s := u + (w + t);
    NextIsNotDigit(fmt, d, t);
    FirstAlternativeRendered(fmt[0], d, w + t);
    assert s[|u|..] == w + t;
    FirstAlternativeWins(fmt, s, Alt(|u|, FieldValue(fmt[0], d)), Matched(Expected(fmt[1..], d), |w|));
    CaptureExpected(fmt, d);
  }

  /** When the first alternative leaves a suffix the rest of the format matches, the format matches with that alternative. */
  lemma FirstAlternativeWins(fmt: Format, s: string, a: Alt, m: Matched)
    requires fmt != [] && a.len <= |s|
    requires var alts := Alternatives(fmt[0], s); |alts| > 0 && alts[0] == a
    requires m.Matched? && Match(fmt[1..], s[a.len..]) == m
    ensures Match(fmt, s) == Matched(Capture(fmt[0], a.value, m.fields), a.len + m.len)
  {
  }


  /** The tail of a separated, representable format is separated and representable. */
  lemma SplitFormat(fmt: Format, d: Date)
    requires fmt != [] && Separated(fmt) && Representable(fmt, d)
    ensures Separated(fmt[1..]) && Representable(fmt[1..], d) && Representable([fmt[0]], d)
    ensures Render(fmt, d) == RenderOne(fmt[0], d) + Render(fmt[1..], d)
  {
    var x, rest := fmt[0], fmt[1..];
    assert fmt == [x] + rest;
    forall i | 0 <= i < |rest| - 1 && !rest[i].Lit?
      ensures rest[i + 1].Lit? && !IsDigit(rest[i + 1].c)
    {
      assert rest[i] == fmt[i + 1] && rest[i + 1] == fmt[i + 2];
    }
    assert forall y :: y in rest ==> y in fmt;
  }

  /** What follows a rendered numeric directive never starts with a digit. */
  lemma NextIsNotDigit(fmt: Format, d: Date, t: string)
    requires fmt != [] && Separated(fmt)
    requires t == [] || !IsDigit(t[0])
    ensures var w := Render(fmt[1..], d); !fmt[0].Lit? ==> w + t == [] || !IsDigit((w + t)[0])
  {
    var rest := fmt[1..];
    var w := Render(rest, d);
    if !fmt[0].Lit? && rest != [] {
      assert fmt[1].Lit? && !IsDigit(fmt[1].c);
      assert w == [rest[0].c] + Render(rest[1..], d);
      assert (w + t)[0] == rest[0].c;
    } else if rest == [] {
      assert w + t == t;
    }
  }

  /** Capturing the first directive's rendered value on top of the tail's fields gives the whole format's fields. */
  lemma CaptureExpected(fmt: Format, d: Date)
    requires fmt != [] && Representable([fmt[0]], d)
    ensures Capture(fmt[0], FieldValue(fmt[0], d), Expected(fmt[1..], d)) == Expected(fmt, d)
  {
    var x, rest := fmt[0], fmt[1..];
    assert fmt == [x] + rest;
    assert forall y :: y in fmt <==> y == x || y in rest;
    assert x in [x];
  }

  /** The round trip: parsing what a date renders to gives the date back. */
  lemma ParseRender(fmt: Format, d: Date)
    requires Separated(fmt) && Day in fmt && Month in fmt && (Year2 in fmt || Year4 in fmt)
    requires Representable(fmt, d) && ValidDate(d) && InTimestampRange(d)
    ensures Parse(fmt, Render(fmt, d)) == Some(d)
  {
    MatchRender(fmt, d, []);
    assert Render(fmt, d) + [] == Render(fmt, d);
  }

  /** A format whose renderings parse back: separated, naming a day, a month and a year. */
  predicate RoundTrips(f: Format)
  {
    Separated(f) && Day in f && Month in f && (Year2 in f || Year4 in f)
  }

  lemma FiveDirectives(f: Format)
    requires |f| == 5 && f[1].Lit? && f[3].Lit? && !IsDigit(f[1].c) && !IsDigit(f[3].c)
    requires Day in f && Month in f && (Year2 in f || Year4 in f)
    ensures RoundTrips(f)
  {
  }

  /** The seven formats the processors use all round-trip. */
  lemma NamedFormats()
    ensures RoundTrips(MonthDayYear2) && RoundTrips(DayMonthYear2) && RoundTrips(MonthDayYear4) && RoundTrips(DayMonthYear4)
    ensures RoundTrips(IsoDate) && RoundTrips(MonthDayYear4Dash) && RoundTrips(DayMonthYear4Dash)
  {
    FiveDirectives(MonthDayYear2);
    FiveDirectives(DayMonthYear2);
    FiveDirectives(MonthDayYear4);
    FiveDirectives(DayMonthYear4);
    FiveDirectives(IsoDate);
    FiveDirectives(MonthDayYear4Dash);
    FiveDirectives(DayMonthYear4Dash);
  }

  // ---------------------------------------------------------------------
  // With %y as the last directive and the only year directive, the year is
  // decided by the last two characters of the input.

  predicate Year2Last(fmt: Format)
  {
    |fmt| >= 1 && fmt[|fmt| - 1] == Year2 && Year2 !in fmt[..|fmt| - 1] && Year4 !in fmt
  }

  function YearOfLastTwo(s: string, n: nat): int
    requires 2 <= n <= |s| && IsDigit(s[n - 2]) && IsDigit(s[n - 1])
  {
    Year2Value(10 * DigitValue(s[n - 2]) + DigitValue(s[n - 1]))
  }

  predicate YearFromLastTwo(s: string, m: Matched)
  {
    m.Matched? && 2 <= m.len <= |s| && IsDigit(s[m.len - 2]) && IsDigit(s[m.len - 1]) && m.fields.year == YearOfLastTwo(s, m.len)
  }

  lemma {:induction false} MatchYear2Last(fmt: Format, s: string)
    requires Year2Last(fmt)
    ensures Match(fmt, s).Matched? ==> YearFromLastTwo(s, Match(fmt, s))
    decreases |fmt|, 1
  {
    TryYear2Last(fmt, s, Alternatives(fmt[0], s));
  }

  lemma {:induction false} TryYear2Last(fmt: Format, s: string, alts: seq<Alt>)
    requires Year2Last(fmt)
    requires forall a :: a in alts ==> a in Alternatives(fmt[0], s) && a.len <= |s| && InRange(fmt[0], a.value)
    ensures TryAlternatives(fmt, s, alts).Matched? ==> YearFromLastTwo(s, TryAlternatives(fmt, s, alts))
    decreases |fmt|, 0, |alts|
  {
    if alts != [] {
      var a := alts[0];
      assert a in alts;
      var rest := fmt[1..];
      if fmt[0] == Year2 {
        assert rest == [];
      } else {
        Year2LastTail(fmt);
        MatchYear2Last(rest, s[a.len..]);
        var m := Match(rest, s[a.len..]);
        if m.Matched? {
          LastTwoShifted(s, a.len, m);
        } else {
          TryYear2Last(fmt, s, alts[1..]);
        }
      }
    }
  }

  /** Dropping a first directive other than %y keeps %y last and alone. */
  lemma Year2LastTail(fmt: Format)
    requires Year2Last(fmt) && fmt[0] != Year2
    ensures Year2Last(fmt[1..]) && fmt[0] != Year4
  {
    var rest := fmt[1..];
    assert |fmt| > 1;
    assert fmt[..|fmt| - 1] == [fmt[0]] + rest[..|rest| - 1];
    assert fmt == [fmt[0]] + rest;
    assert fmt[0] in fmt;
  }

  /** The last two characters a match of a suffix consumed are the last two of what the whole match consumed. */
  lemma LastTwoShifted(s: string, k: nat, m: Matched)
    requires k <= |s| && YearFromLastTwo(s[k..], m)
    ensures YearFromLastTwo(s, m.(len := k + m.len))
  {
    assert s[k..][m.len - 2] == s[k + m.len - 2];
    assert s[k..][m.len - 1] == s[k + m.len - 1];
  }

  /** A successful %m/%d/%y or %d/%m/%y parse takes its year from the last two characters of the input. */
  lemma ParseYearFromLastTwo(fmt: Format, s: string)
    requires fmt == MonthDayYear2 || fmt == DayMonthYear2
    ensures Parse(fmt, s).Some? ==>
              |s| >= 2 && IsDigit(s[|s| - 2]) && IsDigit(s[|s| - 1]) && Parse(fmt, s).value.year == YearOfLastTwo(s, |s|)
  {
    assert fmt[..4] == fmt[..|fmt| - 1];
    assert Year2 !in fmt[..4] && Year4 !in fmt;
    MatchYear2Last(fmt, s);
  }

  // ---------------------------------------------------------------------
  // Single steps of the matcher, for evaluating it on concrete inputs.

  /** A literal that is not the next character makes the match fail. */
  lemma LiteralMismatch(fmt: Format, s: string)
    requires fmt != [] && fmt[0].Lit? && (s == [] || s[0] != fmt[0].c)
    ensures Match(fmt, s) == NoMatch
  {
  }

  /** An alternative the rest of the format rejects is skipped. */
  lemma SkipAlternative(fmt: Format, s: string, alts: seq<Alt>)
    requires fmt != [] && alts != []
    requires forall a :: a in alts ==> a.len <= |s| && InRange(fmt[0], a.value)
    requires Match(fmt[1..], s[alts[0].len..]) == NoMatch
    ensures TryAlternatives(fmt, s, alts) == TryAlternatives(fmt, s, alts[1..])
  {
  }

  /** A literal '/' that is the next character is consumed, so the match fails when the rest fails there. */
  lemma SlashFirst(fmt: Format, s: string)
    requires |fmt| >= 2 && fmt[0] == Lit('/') && s != [] && s[0] == '/'
    requires Match(fmt[1..], s[1..]) == NoMatch
    ensures Match(fmt, s) == NoMatch
  {
    SkipAlternative(fmt, s, Alternatives(fmt[0], s));
  }

  /** %m followed by '/' fails on two digits that are not a month from 10 to 12: %m can then only take the first digit, and a digit is not '/'. */
  lemma MonthThenSlashMisses(fmt: Format, s: string)
    requires |fmt| >= 2 && fmt[0] == Month && fmt[1] == Lit('/')
    requires |s| >= 2 && NonZeroDigit(s[0]) && IsDigit(s[1]) && !(s[0] == '1' && '0' <= s[1] <= '2')
    ensures Match(fmt, s) == NoMatch
  {
    var alts := MonthAlternatives(s);
    assert alts == [Alt(1, DigitValue(s[0]))];
    LiteralMismatch(fmt[1..], s[1..]);
    SkipAlternative(fmt, s, alts);
  }

  // ---------------------------------------------------------------------
  // Literals of the format must appear in what it matches.

  lemma {:induction false} MatchLiteralOccurs(fmt: Format, s: string, c: char)
    requires Lit(c) in fmt
    ensures Match(fmt, s).Matched? ==> c in s
    decreases |fmt|, 1
  {
    TryLiteralOccurs(fmt, s, c, Alternatives(fmt[0], s));
  }

  lemma {:induction false} TryLiteralOccurs(fmt: Format, s: string, c: char, alts: seq<Alt>)
    requires Lit(c) in fmt
    requires forall a :: a in alts ==> a in Alternatives(fmt[0], s) && a.len <= |s| && InRange(fmt[0], a.value)
    ensures TryAlternatives(fmt, s, alts).Matched? ==> c in s
    decreases |fmt|, 0, |alts|
  {
    if alts != [] {
      var a := alts[0];
      assert a in alts;
      if fmt[0] == Lit(c) {
        assert s[0] == c;
      } else {
        assert fmt == [fmt[0]] + fmt[1..];
        assert Lit(c) in fmt[1..];
        MatchLiteralOccurs(fmt[1..], s[a.len..], c);
        if Match(fmt[1..], s[a.len..]).NoMatch? {
          TryLiteralOccurs(fmt, s, c, alts[1..]);
        } else {
          var k :| 0 <= k < |s[a.len..]| && s[a.len..][k] == c;
          assert s[a.len + k] == c;
        }
      }
    }
  }

  /** A format with a literal the input lacks never parses it. */
  lemma ParseNeedsLiteral(fmt: Format, s: string, c: char)
    requires Lit(c) in fmt && c !in s
    ensures Parse(fmt, s) == None
  {
    MatchLiteralOccurs(fmt, s, c);
  }

  /** A rendering holds only digits and the format's own literals: any other character is absent from it. */
  lemma {:induction false} RenderChars(fmt: Format, d: Date, c: char)
    requires !IsDigit(c) && Lit(c) !in fmt
    ensures c !in Render(fmt, d)
  {
    if fmt != [] {
      var u, w := RenderOne(fmt[0], d), Render(fmt[1..], d);
      assert Render(fmt, d) == u + w;
      assert forall k :: 0 <= k < |fmt[1..]| ==> fmt[1..][k] == fmt[k + 1];
      RenderChars(fmt[1..], d, c);
      if !fmt[0].Lit? {
        RenderOneDigits(fmt[0], d);
        assert forall k :: 0 <= k < |u| ==> u[k] != c;
      }
    }
  }

  // ---------------------------------------------------------------------
  // The shape of renderings of the five-directive formats.

  /** A rendered numeric directive is a non-empty run of digits. */
  lemma RenderOneDigits(x: Directive, d: Date)
    requires !x.Lit?
    ensures |RenderOne(x, d)| >= 1 && AllDigits(RenderOne(x, d))
  {
  }

  lemma RenderFrom(fmt: Format, i: nat, d: Date)
    requires i < |fmt|
    ensures Render(fmt[i..], d) == RenderOne(fmt[i], d) + Render(fmt[i + 1..], d)
  {
    assert fmt[i..][0] == fmt[i] && fmt[i..][1..] == fmt[i + 1..];
  }

  lemma RenderFiveParts(fmt: Format, d: Date)
    requires |fmt| == 5
    ensures Render(fmt, d) == RenderOne(fmt[0], d) + (RenderOne(fmt[1], d) + (RenderOne(fmt[2], d) + (RenderOne(fmt[3], d) + RenderOne(fmt[4], d))))
  {
    assert fmt[0..] == fmt && fmt[5..] == [];
    RenderFrom(fmt, 0, d);
    RenderFrom(fmt, 1, d);
    RenderFrom(fmt, 2, d);
    RenderFrom(fmt, 3, d);
    RenderFrom(fmt, 4, d);
    assert RenderOne(fmt[4], d) + Render([], d) == RenderOne(fmt[4], d);
  }

  /** A rendering of a format with numbers at both ends starts and ends with a digit, so str.strip() leaves it alone. */
  lemma RenderFive(fmt: Format, d: Date)
    requires |fmt| == 5 && !fmt[0].Lit? && !fmt[4].Lit?
    ensures var s := Render(fmt, d); |s| >= 2 && IsDigit(s[0]) && IsDigit(s[|s| - 1]) && Strip(s) == s
  {
    RenderFiveParts(fmt, d);
    RenderOneDigits(fmt[0], d);
    RenderOneDigits(fmt[4], d);
    var s := Render(fmt, d);
    var first, last := RenderOne(fmt[0], d), RenderOne(fmt[4], d);
    assert s[0] == first[0];
    assert s[|s| - 1] == last[|last| - 1];
    StripUnchanged(s);
  }

  /** A format without a four-digit year renders a date and the same date a century later alike. */
  lemma {:induction false} RenderCentury(fmt: Format, d: Date)
    requires Year4 !in fmt
    ensures Render(fmt, d.(year := d.year + 100)) == Render(fmt, d)
  {
    if fmt != [] {
      assert (d.year + 100) % 100 == d.year % 100;
      assert Year4 !in fmt[1..] by {
        assert forall x :: x in fmt[1..] ==> x in fmt;
      }
      RenderCentury(fmt[1..], d);
    }
  }

  /** Two zero-padded digits at the end of a string spell their number. */
  lemma PaddedLastTwo(pre: string, yy: nat)
    requires yy < 100
    ensures var s := pre + PadZeros(yy, 2);
      |s| >= 2 && IsDigit(s[|s| - 2]) && IsDigit(s[|s| - 1]) && 10 * DigitValue(s[|s| - 2]) + DigitValue(s[|s| - 1]) == yy
  {
    var u := PadZeros(yy, 2);
    assert Pow10(2) == 100;
    assert |u| == 2 && AllDigits(u);
    var s := pre + u;
    assert s[|s| - 2] == u[0] && s[|s| - 1] == u[1];
    assert IsDigit(u[0]) && IsDigit(u[1]);
    assert DigitsValue(u) == 10 * DigitValue(u[0]) + DigitValue(u[1]) by {
      assert u[..1] == [u[0]] && u[..1][..0] == [];
    }
  }

  /** The last two characters of a rendering ending in %y spell the year modulo 100. */
  lemma RenderYear2Last(fmt: Format, d: Date)
    requires |fmt| == 5 && fmt[4] == Year2
    ensures var s := Render(fmt, d);
      |s| >= 2 && IsDigit(s[|s| - 2]) && IsDigit(s[|s| - 1]) && YearOfLastTwo(s, |s|) == Year2Value(d.year % 100)
  {
    RenderFiveParts(fmt, d);
    var p0, p1, p2, p3 := RenderOne(fmt[0], d), RenderOne(fmt[1], d), RenderOne(fmt[2], d), RenderOne(fmt[3], d);
    var u := PadZeros(d.year % 100, 2);
    PaddedLastTwo(p3, d.year % 100);
    LastTwoKept(p2, p3 + u);
    LastTwoKept(p1, p2 + (p3 + u));
    LastTwoKept(p0, p1 + (p2 + (p3 + u)));
  }

  lemma LastTwoKept(u: string, v: string)
    requires |v| >= 2
    ensures (u + v)[|u + v| - 2] == v[|v| - 2] && (u + v)[|u + v| - 1] == v[|v| - 1]
  {
  }
}
