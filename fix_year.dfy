// src/fix_year_processor.py: one two-digit-year format per date column, no
// window, a century shift for years above 2020, and the rows-stored ceiling
// loop of src/robust_date_processor.py.
module FixYear {
  import opened Wrappers
  import opened Strings
  import opened Calendar
  import opened Strptime
  import opened DatePolicy
  import opened Cells
  import opened Sink
  import opened Ingest
  import opened EnhancedProcessor
  import opened RobustDate

  /** pandas' NaT: NaN, the empty string and the NaT spellings convert to it instead of raising. */
  predicate NaTInput(c: Cell)
  {
    c.Missing? || (c.Text? && NaTText(c.s))
  }

  /**
   * fix_two_digit_year: pandas' parse of the cell as it is (no strip and no
   * guard for blank input); a year above 2020 is moved back a century, and
   * a replacement pandas refuses, like a failed parse, gives None. NaN and
   * blank input give NaT, whose year compares as NaN and so is never moved.
   * A number cell fails to parse.
   */
  function FixTwoDigitYear(c: Cell, fmt: Format): (r: PandasDate)
    ensures r.NaT? <==> NaTInput(c)
    ensures r.Parsed? ==> ValidDate(r.date) && InTimestampRange(r.date)
    ensures r.Parsed? && TwoDigitYearFormat(fmt) ==> YearWithin(r.date, 1921, 2020)
  {
    if NaTInput(c) then NaT
    else if !c.Text? then NoDate
    else match Parse(fmt, c.s)
      case None => NoDate
      case Some(d) =>
        if d.year > 2020 then
          var e := MinusCentury(d);
          if ValidDate(e) && InTimestampRange(e) then Parsed(e) else NoDate
        else Parsed(d)
  }

  function FixedTransactionDate(c: Cell): PandasDate
  {
    FixTwoDigitYear(c, MonthDayYear2)
  }

  function FixedDob(c: Cell): PandasDate
  {
    FixTwoDigitYear(c, DayMonthYear2)
  }

  /**
   * One iteration of main's row loop. NaT is truthy, so a NaT transaction
   * date passes `if not trans_date`; a NaT in either date reaches the
   * INSERT, where the database refuses the text 'NaT', and the row's
   * `except` skips it, unless an earlier step raised first, which skips it
   * too. Without NaT the loop is robust_date_processor's with these two
   * conversions.
   */
  function FixPlanWith(row: Row): Plan
  {
    if TransactionDateColumn in row && CustomerDobColumn in row
       && (FixedTransactionDate(row[TransactionDateColumn]).NaT? || FixedDob(row[CustomerDobColumn]).NaT?)
    then Skip(Silent)
    else RobustPlanWith(row, c => DateOf(FixedTransactionDate(c)), c => DateOf(FixedDob(c)), FloatOf)
  }

  function FixPlanner(): Row -> Plan
  {
    row => FixPlanWith(row)
  }

  /** Like every skip of robust_date_processor's loop, every skip here is silent. */
  lemma FixOnlySilent(row: Row)
    ensures FixPlanWith(row).Skip? ==> FixPlanWith(row) == Skip(Silent)
  {
  }

  /**
   * A row is stored exactly when robust_date_processor's loop would store it
   * with these conversions and neither date is NaT; the birth date then goes
   * in as the shifted date or, when it did not parse, as NULL.
   */
  lemma FixInsertWhen(row: Row)
    ensures FixPlanWith(row).Insert? <==>
      && TransactionDateColumn in row && CustomerDobColumn in row && BalanceColumn in row && AmountColumn in row && HasIdColumns(row)
      && FixedTransactionDate(row[TransactionDateColumn]).Parsed? && !FixedDob(row[CustomerDobColumn]).NaT?
      && FloatOf(row[BalanceColumn]).Some? && FloatOf(row[AmountColumn]).Some?
    ensures FixPlanWith(row).Insert? ==>
      FixPlanWith(row).r.customerDob == (if FixedDob(row[CustomerDobColumn]).NoDate? then SqlNull else SqlDate(FixedDob(row[CustomerDobColumn]).date))
  {
    if TransactionDateColumn in row && CustomerDobColumn in row {
      RobustInsertWhen(row, c => DateOf(FixedTransactionDate(c)), c => DateOf(FixedDob(c)), FloatOf);
    }
  }

  /** A blank birth date, which robust_date_processor's guard turns into NULL, is NaT here, so the row is never stored. */
  lemma BlankDobNeverStored(row: Row)
    requires CustomerDobColumn in row && (row[CustomerDobColumn].Missing? || row[CustomerDobColumn] == Text(""))
    ensures FixPlanWith(row) == Skip(Silent)
  {
  }

  /** For the two two-digit-year formats the conversion of text that is not a NaT spelling is the shifted candidate parse, and it fails only when the parse does. */
  lemma FixIsShiftedCandidate(s: string, fmt: Format)
    requires fmt == MonthDayYear2 || fmt == DayMonthYear2
    ensures NaTInput(Text(s)) ==> FixTwoDigitYear(Text(s), fmt) == NaT
    ensures !NaTInput(Text(s)) ==> DateOf(FixTwoDigitYear(Text(s), fmt)) == Candidate(fmt, s, true)
    ensures !NaTInput(Text(s)) ==> (FixTwoDigitYear(Text(s), fmt).Parsed? <==> Parse(fmt, s).Some?)
  {
    ShiftNeverFails(fmt, s);
  }

  /** Without a window the result still lies in 1921..2020: %y reads 1969..2068 and the shift moves 2021..2068 to 1921..1968. */
  lemma FixedYearRange(c: Cell, fmt: Format)
    requires fmt == MonthDayYear2 || fmt == DayMonthYear2
    ensures FixTwoDigitYear(c, fmt).Parsed? ==> YearWithin(FixTwoDigitYear(c, fmt).date, 1921, 2020)
  {
    if c.Text? && !NaTInput(c) {
      FixIsShiftedCandidate(c.s, fmt);
      ShiftedYearRange(fmt, c.s);
    }
  }

  /** A format that round-trips, starts with a directive, and has a two-digit year and no four-digit one. */
  predicate TwoDigitYearFormat(fmt: Format)
  {
    RoundTrips(fmt) && !fmt[0].Lit? && Year2 in fmt && Year4 !in fmt
  }

  /** A rendering of such a format starts with a digit, so it is never one of pandas' NaT spellings. */
  lemma RenderedNotNaT(fmt: Format, d: Date)
    requires TwoDigitYearFormat(fmt)
    ensures !NaTInput(Text(Render(fmt, d)))
  {
    RenderedNotNaTText(fmt, d);
  }

  lemma TwoDigitYearFormats()
    ensures TwoDigitYearFormat(MonthDayYear2) && TwoDigitYearFormat(DayMonthYear2)
  {
    NamedFormats();
  }

  /** Every date of 1921..2020 written with a two-digit year comes back. */
  lemma FixRoundTrip(fmt: Format, d: Date)
    requires TwoDigitYearFormat(fmt)
    requires ValidDate(d) && YearWithin(d, 1921, 2020)
    ensures FixTwoDigitYear(Text(Render(fmt, d)), fmt) == Parsed(d)
  {
    RenderedNotNaT(fmt, d);
    if d.year >= 1969 {
      ParseRender(fmt, d);
    } else {
      FixEarlyRoundTrip(fmt, d);
    }
  }

  /** 1921..1968: the text is that of the date a century later, which %y reads and the shift moves back. */
  lemma FixEarlyRoundTrip(fmt: Format, d: Date)
    requires TwoDigitYearFormat(fmt)
    requires ValidDate(d) && YearWithin(d, 1921, 1968)
    ensures FixTwoDigitYear(Text(Render(fmt, d)), fmt) == Parsed(d)
  {
    RenderedNotNaT(fmt, d);
    var e := d.(year := d.year + 100);
    PlusCenturyValid(d);
    assert Render(fmt, d) == Render(fmt, e) by {
      RenderCentury(fmt, d);
    }
    assert Parse(fmt, Render(fmt, e)) == Some(e) by {
      ParseRender(fmt, e);
    }
    assert e.year > 2020 && MinusCentury(e) == d;
  }

  lemma FixExamples()
    ensures FixedTransactionDate(Text("2/8/16")) == Parsed(Date(2016, 2, 8))
    ensures FixedDob(Text("15/10/63")) == Parsed(Date(1963, 10, 15))
  {
    TwoDigitYearFormats();
    EnhancedProcessor.RenderedFeb8();
    FixRoundTrip(MonthDayYear2, Date(2016, 2, 8));
    RenderedOct15In63();
    RenderCentury(DayMonthYear2, Date(1963, 10, 15));
    FixRoundTrip(DayMonthYear2, Date(1963, 10, 15));
  }

  /** Empty text and NaN give NaT, never a date and never None: there is no guard in front of the parse. */
  lemma FixBlank(c: Cell, fmt: Format)
    requires c.Missing? || c == Text("")
    ensures FixTwoDigitYear(c, fmt) == NaT && DateOf(FixTwoDigitYear(c, fmt)) == None
  {
  }

  /** No directive matches the empty string. */
  lemma EmptyNoParse(fmt: Format)
    requires fmt != []
    ensures Parse(fmt, "").None?
  {
    var alts := Alternatives(fmt[0], "");
    assert alts == [];
    assert TryAlternatives(fmt, "", alts) == NoMatch;
    assert Match(fmt, "") == NoMatch;
  }
}
