// src/minimal_processor.py: one three-format conversion with the window
// 2000..2020 for both date columns and no fallback, rows that fail any step
// skipped without a counter, and a rows-seen ceiling before each chunk.
module Minimal {
  import opened Wrappers
  import opened Strings
  import opened Calendar
  import opened Strptime
  import opened DatePolicy
  import opened Cells
  import opened Sink
  import opened Ingest
  import opened Chunks
  import opened ChunkLoops
  import opened EnhancedProcessor
  import opened EnhancedProcessorFixed
  import opened RobustDate

  /** convert_date_smart's formats, in order. */
  const SmartFormats: seq<Format> := [MonthDayYear2, DayMonthYear2, IsoDate]

  /** convert_date_smart: `pd.isna(x) or not x` gives None; otherwise the first parse of the stripped text with a year in 2000..2020. */
  function ConvertDateSmart(c: Cell): (r: Option<Date>)
    ensures NaOrFalsy(c) ==> r == None
    ensures r.Some? ==> ValidDate(r.value) && YearWithin(r.value, 2000, 2020)
  {
    if NaOrFalsy(c) then None else FirstAccepted(SmartFormats, Strip(Str(c)), Years(2000, 2020), false)
  }

  /**
   * One iteration of the row loop: a missing column raises, a missing
   * transaction date and a failed float() lead to `continue`; the birth
   * date goes in as NULL when it did not convert, gender, location and
   * time fall back to "U", "Unknown" and "000000" when NaN.
   */
  function MinimalPlanWith(row: Row, date: Cell -> Option<Date>, number: NumberConversion): Plan
  {
    if TransactionDateColumn !in row || CustomerDobColumn !in row then Skip(Silent)
    else if date(row[TransactionDateColumn]).None? then Skip(Silent)
    else if BalanceColumn !in row || AmountColumn !in row then Skip(Silent)
    else
      var balance := number(row[BalanceColumn]);
      var amount := number(row[AmountColumn]);
      if balance.None? || amount.None? || !HasIdColumns(row) then Skip(Silent)
      else Insert(TxnRow(
        SqlText(Str(row[TransactionIdColumn])), SqlText(Str(row[CustomerIdColumn])),
        DobParam(date(row[CustomerDobColumn])), SqlText(GenderOf(row[GenderColumn])),
        SqlText(TextOr(row[LocationColumn], "Unknown")), SqlFloat(balance.value),
        SqlDate(date(row[TransactionDateColumn]).value), SqlText(TextOr(row[TransactionTimeColumn], "000000")), SqlFloat(amount.value)))
  }

  function MinimalPlanner(): Row -> Plan
  {
    row => MinimalPlanWith(row, ConvertDateSmart, FloatOf)
  }

  /** A row is inserted exactly when its columns exist, its transaction date converts and both numbers convert; the birth date is never replaced by a default. */
  lemma MinimalInsertWhen(row: Row, date: Cell -> Option<Date>, number: NumberConversion)
    ensures MinimalPlanWith(row, date, number).Insert? <==>
      && TransactionDateColumn in row && CustomerDobColumn in row && BalanceColumn in row && AmountColumn in row && HasIdColumns(row)
      && date(row[TransactionDateColumn]).Some? && number(row[BalanceColumn]).Some? && number(row[AmountColumn]).Some?
    ensures MinimalPlanWith(row, date, number).Skip? ==> MinimalPlanWith(row, date, number) == Skip(Silent)
    ensures MinimalPlanWith(row, date, number).Insert? ==> var r := MinimalPlanWith(row, date, number).r;
      && (date(row[CustomerDobColumn]).None? ==> r.customerDob == SqlNull)
      && (row[GenderColumn].Missing? ==> r.custGender == SqlText("U"))
      && (row[LocationColumn].Missing? ==> r.custLocation == SqlText("Unknown"))
      && (row[TransactionTimeColumn].Missing? ==> r.transactionTime == SqlText("000000"))
  {
  }

  /** No error counter exists: every row is stored or silently skipped. */
  lemma MinimalChunkAccounting(rows: seq<Row>, accepts: TxnRow -> bool)
    ensures var t := TallyOf(rows, MinimalPlanner(), accepts, Silent);
      t.dateErrors == 0 && t.numericErrors == 0 && t.otherErrors == 0
      && t.stored + t.silent == |rows| && t.stored == |Inserted(rows, MinimalPlanner(), accepts)|
  {
    var plan := MinimalPlanner();
    TallyTotal(rows, plan, accepts, Silent);
    StoredIsInserted(rows, plan, accepts, Silent);
    forall i | 0 <= i < |rows|
      ensures plan(rows[i]).Skip? ==> plan(rows[i]) == Skip(Silent)
    {
      MinimalInsertWhen(rows[i], ConvertDateSmart, FloatOf);
    }
    OnlySilentCounters(rows, plan, accepts);
  }

  const MinimalChunkSize := 100000
  const MinimalLimit := 300000

  /**
   * The top-level loop: a connection that does not answer makes connect()
   * raise into the outer handler; otherwise chunks are stored and
   * committed while fewer than MinimalLimit rows have been seen, then the
   * connection is closed.
   */
  method MinimalRun(conn: Connection, rows: seq<Row>) returns (totalProcessed: nat, totalStored: nat)
    requires conn.pending == []
    modifies conn
    ensures !conn.live ==> totalProcessed == 0 && totalStored == 0 && unchanged(conn)
    ensures conn.live ==> var chunks := Split(rows, MinimalChunkSize); var k := Reached(Sizes(chunks), MinimalLimit);
      && totalProcessed == (if |rows| < MinimalLimit then |rows| else MinimalLimit)
      && totalStored == TotalStored(chunks[..k], MinimalPlanner(), conn.accepts, Silent)
      && conn.committed == old(conn.committed) + TotalInserted(chunks[..k], MinimalPlanner(), conn.accepts)
      && conn.commits == old(conn.commits) + k && conn.pending == [] && conn.closed
  {
    if !conn.live {
      return 0, 0;
    }
    var k;
    k, totalProcessed, totalStored := SeenLoop(conn, Split(rows, MinimalChunkSize), MinimalPlanner(), Silent, MinimalLimit);
    RowsRead(rows, MinimalChunkSize, 3);
    conn.Close();
  }

  // ---------------------------------------------------------------------
  // The conversion on the file's own spellings.

  /** Any date of 2000..2020 written month first with a two-digit year comes back. */
  lemma SmartRoundTrip(d: Date)
    requires ValidDate(d) && 2000 <= d.year <= 2020
    ensures ConvertDateSmart(Text(Render(MonthDayYear2, d))) == Some(d)
  {
    assert Strip(Render(MonthDayYear2, d)) == Render(MonthDayYear2, d) && Render(MonthDayYear2, d) != "" by {
      RenderFive(MonthDayYear2, d);
    }
    assert RoundTrips(MonthDayYear2) by {
      NamedFormats();
    }
    SmartOfText(Render(MonthDayYear2, d));
    FirstFormatRoundTrip(SmartFormats, d, Years(2000, 2020), false);
  }

  lemma SmartOfText(s: string)
    requires Strip(s) == s && s != ""
    ensures ConvertDateSmart(Text(s)) == FirstAccepted(SmartFormats, s, Years(2000, 2020), false)
  {
  }

  lemma SmartExample()
    ensures ConvertDateSmart(Text("2/8/16")) == Some(Date(2016, 2, 8))
  {
    RenderedFeb8();
    SmartRoundTrip(Date(2016, 2, 8));
  }

  /**
   * The 2000..2020 window is applied to birth dates as well: a birth date of
   * 1969..1999 written day first with a two-digit year is never converted,
   * so it is inserted as NULL.
   */
  lemma TwentiethCenturyDobLost(d: Date)
    requires ValidDate(d) && 1969 <= d.year <= 1999
    ensures ConvertDateSmart(Text(Render(DayMonthYear2, d))) == None
  {
    EarlyYear2Rendering(DayMonthYear2, d);
    EarlyTextMisses(Render(DayMonthYear2, d));
  }

  lemma DobExampleLost()
    ensures ConvertDateSmart(Text("26/11/96")) == None
  {
    RenderedNov26();
    TwentiethCenturyDobLost(Date(1996, 11, 26));
  }

  /** Text without a dash whose last two digits %y reads as a year before 2000 passes none of the formats. */
  lemma EarlyTextMisses(s: string)
    requires Strip(s) == s && s != "" && '-' !in s
    requires |s| >= 2 && IsDigit(s[|s| - 2]) && IsDigit(s[|s| - 1]) && YearOfLastTwo(s, |s|) < 2000
    ensures ConvertDateSmart(Text(s)) == None
  {
    SmartFormatsMiss(s);
  }

  lemma SmartFormatsMiss(s: string)
    requires '-' !in s
    requires |s| >= 2 && IsDigit(s[|s| - 2]) && IsDigit(s[|s| - 1]) && YearOfLastTwo(s, |s|) < 2000
    ensures FirstAccepted(SmartFormats, s, Years(2000, 2020), false) == None
  {
    var w := Years(2000, 2020);
    SlashYear2Outside(MonthDayYear2, s, w);
    SlashYear2Outside(DayMonthYear2, s, w);
    DashedMisses(IsoDate, s, w);
    FirstAcceptedNone(SmartFormats, s, w, false);
  }

  /** A two-digit-year format reads the year from the last two characters, so a year outside the window is never accepted. */
  lemma SlashYear2Outside(fmt: Format, s: string, w: Window)
    requires fmt == MonthDayYear2 || fmt == DayMonthYear2
    requires |s| >= 2 && IsDigit(s[|s| - 2]) && IsDigit(s[|s| - 1])
    requires w.Years? && !(w.lo <= YearOfLastTwo(s, |s|) <= w.hi)
    ensures !Hit(fmt, s, w, false)
  {
    ParseYearFromLastTwo(fmt, s);
  }

  /** What a 1969..1999 date looks like rendered with a two-digit year last and no dash. */
  lemma EarlyYear2Rendering(fmt: Format, d: Date)
    requires |fmt| == 5 && !fmt[0].Lit? && fmt[4] == Year2 && Lit('-') !in fmt
    requires 1969 <= d.year <= 1999
    ensures var s := Render(fmt, d);
      && Strip(s) == s && s != "" && '-' !in s
      && |s| >= 2 && IsDigit(s[|s| - 2]) && IsDigit(s[|s| - 1]) && YearOfLastTwo(s, |s|) == d.year
  {
    RenderFive(fmt, d);
    RenderYear2Last(fmt, d);
    RenderChars(fmt, d, '-');
    TwentiethCentury(d.year);
  }

  /** A year of 1969..1999 written with two digits reads back as itself. */
  lemma TwentiethCentury(y: int)
    requires 1969 <= y <= 1999
    ensures 0 <= y % 100 <= 99 && Year2Value(y % 100) == y
  {
    assert y % 100 == y - 1900;
  }

  lemma SmartBlank(c: Cell)
    requires c.Missing? || c == Text("")
    ensures ConvertDateSmart(c) == None
  {
  }
}
