// The shape every date normaliser shares: try an ordered list of formats and
// return the first parse that the role's year window accepts, optionally
// moving a two-digit-year result above 2020 back by a century first.
module DatePolicy {
  import opened Wrappers
  import opened Calendar
  import opened Strings
  import opened Strptime

  datatype Window = AnyYear | Years(lo: int, hi: int)

  predicate Accepts(w: Window, d: Date)
  {
    match w
    case AnyYear => true
    case Years(lo, hi) => lo <= d.year <= hi
  }

  /** fmt.endswith('/%y') */
  predicate EndsSlashYear2(fmt: Format)
  {
    |fmt| >= 2 && fmt[|fmt| - 2] == Lit('/') && fmt[|fmt| - 1] == Year2
  }

  /**
   * The parse under one format. With `shift`, a result of a format ending in
   * "/%y" whose year is above 2020 is replaced by the same day a century
   * earlier; a replacement pandas would refuse counts as a failed attempt.
   */
  function Candidate(fmt: Format, s: string, shift: bool): (r: Option<Date>)
    ensures r.Some? ==> ValidDate(r.value) && InTimestampRange(r.value)
  {
    match Parse(fmt, s)
    case None => None
    case Some(d) =>
      if shift && EndsSlashYear2(fmt) && d.year > 2020 then
        var e := MinusCentury(d);
        if ValidDate(e) && InTimestampRange(e) then Some(e) else None
      else Some(d)
  }

  /** The attempt with this format returns a date the window accepts. */
  predicate Hit(fmt: Format, s: string, w: Window, shift: bool)
  {
    Candidate(fmt, s, shift).Some? && Accepts(w, Candidate(fmt, s, shift).value)
  }

  /** The loop over the formats with its early return; None when no attempt is accepted. */
  function FirstAccepted(fmts: seq<Format>, s: string, w: Window, shift: bool): (r: Option<Date>)
    ensures r.Some? ==> ValidDate(r.value) && Accepts(w, r.value)
  {
    if fmts == [] then None
    else if Hit(fmts[0], s, w, shift) then Candidate(fmts[0], s, shift)
    else FirstAccepted(fmts[1..], s, w, shift)
  }

  /** The result is the attempt at the first accepted position. */
  lemma {:induction false} FirstAcceptedAt(fmts: seq<Format>, s: string, w: Window, shift: bool, i: nat)
    requires i < |fmts| && Hit(fmts[i], s, w, shift)
    requires forall j :: 0 <= j < i ==> !Hit(fmts[j], s, w, shift)
    ensures FirstAccepted(fmts, s, w, shift) == Candidate(fmts[i], s, shift)
  {
    if i > 0 {
      assert !Hit(fmts[0], s, w, shift);
      FirstAcceptedAt(fmts[1..], s, w, shift, i - 1);
    }
  }

  /** None exactly when no attempt is accepted. */
  lemma {:induction false} FirstAcceptedNone(fmts: seq<Format>, s: string, w: Window, shift: bool)
    ensures FirstAccepted(fmts, s, w, shift).None? <==> forall i :: 0 <= i < |fmts| ==> !Hit(fmts[i], s, w, shift)
  {
    if fmts != [] {
      FirstAcceptedNone(fmts[1..], s, w, shift);
      assert forall i :: 1 <= i < |fmts| ==> fmts[i] == fmts[1..][i - 1];
    }
  }

  /** A result comes from an accepted attempt none of whose predecessors was accepted. */
  lemma {:induction false} FirstAcceptedSome(fmts: seq<Format>, s: string, w: Window, shift: bool)
    requires FirstAccepted(fmts, s, w, shift).Some?
    ensures exists i :: 0 <= i < |fmts| && Hit(fmts[i], s, w, shift)
                        && Candidate(fmts[i], s, shift) == FirstAccepted(fmts, s, w, shift)
                        && forall j :: 0 <= j < i ==> !Hit(fmts[j], s, w, shift)
  {
    if Hit(fmts[0], s, w, shift) {
      assert Hit(fmts[0], s, w, shift) && Candidate(fmts[0], s, shift) == FirstAccepted(fmts, s, w, shift);
    } else {
      FirstAcceptedSome(fmts[1..], s, w, shift);
      var i :| 0 <= i < |fmts[1..]| && Hit(fmts[1..][i], s, w, shift)
        && Candidate(fmts[1..][i], s, shift) == FirstAccepted(fmts[1..], s, w, shift)
        && forall j :: 0 <= j < i ==> !Hit(fmts[1..][j], s, w, shift);
      assert forall j :: 1 <= j < i + 1 ==> fmts[j] == fmts[1..][j - 1];
      assert Hit(fmts[i + 1], s, w, shift);
    }
  }

  /** Shifting only ever touches a two-digit year above 2020, so for %m/%d/%y and %d/%m/%y it never fails. */
  lemma ShiftNeverFails(fmt: Format, s: string)
    requires fmt == MonthDayYear2 || fmt == DayMonthYear2
    ensures Candidate(fmt, s, true).Some? <==> Parse(fmt, s).Some?
    ensures Parse(fmt, s).Some? ==> var d := Parse(fmt, s).value;
      Candidate(fmt, s, true).value == if d.year > 2020 then MinusCentury(d) else d
  {
    if Parse(fmt, s).Some? {
      var d := Parse(fmt, s).value;
      assert Year2 in fmt && Year4 !in fmt;
      if d.year > 2020 {
        MinusCenturyValid(d);
      }
    }
  }

  /** After the shift, a two-digit-year result lies in 1921..2020. */
  lemma ShiftedYearRange(fmt: Format, s: string)
    requires fmt == MonthDayYear2 || fmt == DayMonthYear2
    ensures Candidate(fmt, s, true).Some? ==> YearWithin(Candidate(fmt, s, true).value, 1921, 2020)
  {
    ShiftNeverFails(fmt, s);
  }

  /** A date written in the first format comes back when the window takes it and the shift leaves it alone. */
  lemma FirstFormatRoundTrip(fmts: seq<Format>, d: Date, w: Window, shift: bool)
    requires fmts != [] && RoundTrips(fmts[0]) && Representable(fmts[0], d) && ValidDate(d) && InTimestampRange(d)
    requires Accepts(w, d) && !(shift && EndsSlashYear2(fmts[0]) && d.year > 2020)
    ensures FirstAccepted(fmts, Render(fmts[0], d), w, shift) == Some(d)
  {
    ParseRender(fmts[0], d);
  }

  /**
   * With a window inside 1969..2020, the century shift changes no outcome:
   * a two-digit-year parse above 2020 is outside the window before the shift
   * and, at 1921..1968, outside it after.
   */
  lemma ShiftOutsideWindow(fmt: Format, s: string, w: Window)
    requires w.Years? && 1968 < w.lo && w.hi <= 2020
    requires EndsSlashYear2(fmt) ==> Year4 !in fmt
    ensures Hit(fmt, s, w, true) <==> Hit(fmt, s, w, false)
    ensures Hit(fmt, s, w, false) ==> Candidate(fmt, s, true) == Candidate(fmt, s, false)
  {
    if Parse(fmt, s).Some? && EndsSlashYear2(fmt) {
      assert Year2 in fmt by {
        assert fmt[|fmt| - 1] == Year2;
      }
    }
  }

  /** The whole format loop: shifting or not gives the same result under such a window. */
  lemma {:induction false} ShiftNeverRescues(fmts: seq<Format>, s: string, w: Window)
    requires w.Years? && 1968 < w.lo && w.hi <= 2020
    requires forall i :: 0 <= i < |fmts| ==> EndsSlashYear2(fmts[i]) ==> Year4 !in fmts[i]
    ensures FirstAccepted(fmts, s, w, true) == FirstAccepted(fmts, s, w, false)
  {
    if fmts != [] {
      ShiftOutsideWindow(fmts[0], s, w);
      assert forall i :: 0 <= i < |fmts[1..]| ==> fmts[1..][i] == fmts[i + 1];
      ShiftNeverRescues(fmts[1..], s, w);
    }
  }

  /** A date above 2020 written in a first format ending "/%y" comes back a century earlier when the window takes that. */
  lemma ShiftedFirstFormat(fmts: seq<Format>, d: Date, w: Window)
    requires fmts != [] && RoundTrips(fmts[0]) && Representable(fmts[0], d) && ValidDate(d) && InTimestampRange(d)
    requires EndsSlashYear2(fmts[0]) && d.year > 2020
    requires ValidDate(MinusCentury(d)) && InTimestampRange(MinusCentury(d)) && Accepts(w, MinusCentury(d))
    ensures FirstAccepted(fmts, Render(fmts[0], d), w, true) == Some(MinusCentury(d))
  {
    ParseRender(fmts[0], d);
  }

  // ---------------------------------------------------------------------
  // pandas' NaT.

  /** The strings pandas reads as NaT before trying any format. */
  const NatStrings: set<string> := {"NaT", "nat", "NAT", "nan", "NaN", "NAN"}

  /** Text pd.to_datetime turns into NaT, with or without a format, instead of raising. */
  predicate NaTText(s: string)
  {
    s == "" || s in NatStrings
  }

  /** Text that starts with a digit is never one of those. */
  lemma DigitLedNotNaT(s: string)
    requires s != [] && IsDigit(s[0])
    ensures !NaTText(s)
  {
  }

  /** A rendering in a format that starts with a directive begins with a digit, so it is never a NaT spelling. */
  lemma RenderedNotNaTText(fmt: Format, d: Date)
    requires fmt != [] && !fmt[0].Lit?
    ensures !NaTText(Render(fmt, d))
  {
    RenderOneDigits(fmt[0], d);
    var s := Render(fmt, d);
    assert s[0] == RenderOne(fmt[0], d)[0] && IsDigit(s[0]);
    DigitLedNotNaT(s);
  }

  /**
   * What a pandas date conversion hands on: a date, NaT (whose `.date()` is
   * NaT again, and which is not None), or None after an exception.
   */
  datatype PandasDate = Parsed(date: Date) | NaT | NoDate

  /** A conversion that cannot produce NaT: a date or None. */
  function DayOrNone(o: Option<Date>): (r: PandasDate)
    ensures !r.NaT? && (r.Parsed? <==> o.Some?) && (o.Some? ==> r.date == o.value)
  {
    if o.Some? then Parsed(o.value) else NoDate
  }

  /** A converted date as a query parameter; NaT and None have no date. */
  function DateOf(r: PandasDate): (o: Option<Date>)
    ensures o.Some? <==> r.Parsed?
    ensures o.Some? ==> o.value == r.date
  {
    if r.Parsed? then Some(r.date) else None
  }
}
