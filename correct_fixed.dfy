// src/correct_fixed_processor.py: one format per date column with a year
// window and no fallback, a bare float() for the numbers, a commit after
// every chunk, and a rows-seen ceiling checked before each chunk.
module CorrectFixed {
  import opened Wrappers
  import opened Strings
  import opened Calendar
  import opened Strptime
  import opened DatePolicy
  import opened Cells
  import opened PyFloat
  import opened Sink
  import opened Ingest
  import opened Chunks
  import opened ChunkLoops
  import opened EnhancedProcessor

  /** A single-format conversion: `pd.isna(x) or not x` gives None; otherwise the parse of the stripped text if its year is in the window. */
  function OneFormat(c: Cell, fmt: Format, w: Window): (r: Option<Date>)
    ensures NaOrFalsy(c) ==> r == None
    ensures r.Some? ==> ValidDate(r.value) && Accepts(w, r.value)
  {
    if NaOrFalsy(c) then None else FirstAccepted([fmt], Strip(Str(c)), w, false)
  }

  /** convert_transaction_date: %m/%d/%y with years 2000..2020. */
  function TransactionDate(c: Cell): Option<Date>
  {
    OneFormat(c, MonthDayYear2, Years(2000, 2020))
  }

  /** convert_customer_dob: %d/%m/%y with years 1900..2010. */
  function CustomerDob(c: Cell): Option<Date>
  {
    OneFormat(c, DayMonthYear2, Years(1900, 2010))
  }

  /**
   * One iteration of process_chunk for given conversions. A missing date or
   * id column raises into the outer handler (an other error); a missing
   * number column raises inside the numeric try (a numeric error). Nothing
   * checks the ids: str() of a missing id is "nan".
   */
  function CorrectPlanWith(row: Row, td: Cell -> Option<Date>, dob: Cell -> Option<Date>, number: NumberConversion): Plan
  {
    if TransactionDateColumn !in row then Skip(OtherError(true))
    else if td(row[TransactionDateColumn]).None? then Skip(DateError)
    else if CustomerDobColumn !in row then Skip(OtherError(true))
    else if BalanceColumn !in row || AmountColumn !in row then Skip(NumericError)
    else
      var balance := number(row[BalanceColumn]);
      var amount := number(row[AmountColumn]);
      if balance.None? || amount.None? then Skip(NumericError)
      else if !HasIdColumns(row) then Skip(OtherError(true))
      else Insert(TxnRow(
        SqlText(Str(row[TransactionIdColumn])), SqlText(Str(row[CustomerIdColumn])),
        SqlDate(dob(row[CustomerDobColumn]).GetOr(DefaultDob)), SqlText(GenderOf(row[GenderColumn])),
        SqlText(TextOr(row[LocationColumn], "Unknown")), SqlFloat(balance.value),
        SqlDate(td(row[TransactionDateColumn]).value), SqlText(TextOr(row[TransactionTimeColumn], "000000")), SqlFloat(amount.value)))
  }

  function CorrectPlanner(): Row -> Plan
  {
    row => CorrectPlanWith(row, TransactionDate, CustomerDob, FloatOf)
  }

  /** Every row of a chunk is counted exactly once: stored plus the three error counters is the chunk's size. */
  lemma CorrectChunkAccounting(rows: seq<Row>, accepts: TxnRow -> bool)
    ensures var t := TallyOf(rows, CorrectPlanner(), accepts, OtherError(true));
      t.silent == 0 && t.stored + t.dateErrors + t.numericErrors + t.otherErrors == |rows|
      && t.stored == |Inserted(rows, CorrectPlanner(), accepts)|
  {
    var plan := CorrectPlanner();
    TallyTotal(rows, plan, accepts, OtherError(true));
    StoredIsInserted(rows, plan, accepts, OtherError(true));
    forall i | 0 <= i < |rows|
      ensures plan(rows[i]) != Skip(Silent)
    {
      CorrectNeverSilent(rows[i], TransactionDate, CustomerDob, FloatOf);
    }
    NothingSilent(rows, plan, accepts, OtherError(true));
  }

  lemma CorrectNeverSilent(row: Row, td: Cell -> Option<Date>, dob: Cell -> Option<Date>, number: NumberConversion)
    ensures CorrectPlanWith(row, td, dob, number) != Skip(Silent)
  {
  }

  /** The checks run date first, then numbers, then the remaining columns; a row with every column whose date and numbers convert is inserted. */
  lemma CorrectInsertWhen(row: Row, td: Cell -> Option<Date>, dob: Cell -> Option<Date>, number: NumberConversion)
    ensures CorrectPlanWith(row, td, dob, number).Insert? <==>
      && TransactionDateColumn in row && CustomerDobColumn in row && BalanceColumn in row && AmountColumn in row && HasIdColumns(row)
      && td(row[TransactionDateColumn]).Some? && number(row[BalanceColumn]).Some? && number(row[AmountColumn]).Some?
    ensures TransactionDateColumn in row && td(row[TransactionDateColumn]).None? ==> CorrectPlanWith(row, td, dob, number) == Skip(DateError)
  {
  }

  /** The defaults of an inserted row: a birth date that does not convert becomes 1900-01-01, and missing gender, location and time become "U", "Unknown" and "000000". */
  lemma CorrectDefaults(row: Row, td: Cell -> Option<Date>, dob: Cell -> Option<Date>, number: NumberConversion)
    requires CorrectPlanWith(row, td, dob, number).Insert?
    ensures var r := CorrectPlanWith(row, td, dob, number).r;
      && CustomerDobColumn in row && HasIdColumns(row)
      && (dob(row[CustomerDobColumn]).None? ==> r.customerDob == SqlDate(DefaultDob))
      && (row[GenderColumn].Missing? ==> r.custGender == SqlText("U"))
      && (row[LocationColumn].Missing? ==> r.custLocation == SqlText("Unknown"))
      && (row[TransactionTimeColumn].Missing? ==> r.transactionTime == SqlText("000000"))
      && r.transactionId == SqlText(Str(row[TransactionIdColumn]))
  {
  }

  /** A row whose date converts and whose columns exist but whose amount does not convert is a numeric error. */
  lemma AmountFailureWith(row: Row, td: Cell -> Option<Date>, dob: Cell -> Option<Date>, number: NumberConversion)
    requires TransactionDateColumn in row && td(row[TransactionDateColumn]).Some?
    requires CustomerDobColumn in row && BalanceColumn in row && AmountColumn in row && number(row[AmountColumn]).None?
    ensures CorrectPlanWith(row, td, dob, number) == Skip(NumericError)
  {
  }

  lemma CommaCell(c: Cell)
    requires c.Text? && ',' in Strip(c.s)
    ensures FloatOf(c) == None
  {
    CommaRejected(c.s);
  }

  /** float() is applied without removing separators, so an amount written "25,000" makes its row a numeric error. */
  lemma CommaAmountIsNumericError(row: Row)
    requires TransactionDateColumn in row && TransactionDate(row[TransactionDateColumn]).Some?
    requires CustomerDobColumn in row && BalanceColumn in row && AmountColumn in row
    requires row[AmountColumn].Text? && ',' in Strip(row[AmountColumn].s)
    ensures CorrectPlanWith(row, TransactionDate, CustomerDob, FloatOf) == Skip(NumericError)
  {
    CommaCell(row[AmountColumn]);
    AmountFailureWith(row, TransactionDate, CustomerDob, FloatOf);
  }

  const CorrectChunkSize := 100000
  const CorrectLimit := 300000

  /**
   * process: a connection that does not answer raises at the first cursor;
   * otherwise chunks are stored and committed while fewer than CorrectLimit
   * rows have been seen. The closing success-rate line divides by the rows
   * seen, so an empty file raises ZeroDivisionError before the connection
   * is closed. `completed` says whether process returned normally.
   */
  method CorrectProcess(conn: Connection, rows: seq<Row>) returns (completed: bool, totalProcessed: nat, totalStored: nat)
    requires conn.pending == []
    modifies conn
    ensures !conn.live ==> !completed && unchanged(conn)
    ensures conn.live ==> var chunks := Split(rows, CorrectChunkSize); var k := Reached(Sizes(chunks), CorrectLimit);
      && totalProcessed == (if |rows| < CorrectLimit then |rows| else CorrectLimit)
      && totalStored == TotalStored(chunks[..k], CorrectPlanner(), conn.accepts, OtherError(true))
      && conn.committed == old(conn.committed) + TotalInserted(chunks[..k], CorrectPlanner(), conn.accepts)
      && conn.commits == old(conn.commits) + k && conn.pending == []
      && completed == (rows != []) && conn.closed == (old(conn.closed) || completed)
  {
    if !conn.live {
      return false, 0, 0;
    }
    var k;
    k, totalProcessed, totalStored := SeenLoop(conn, Split(rows, CorrectChunkSize), CorrectPlanner(), OtherError(true), CorrectLimit);
    RowsRead(rows, CorrectChunkSize, 3);
    if totalProcessed == 0 {
      return false, totalProcessed, totalStored;
    }
    conn.Close();
    completed := true;
  }

  // ---------------------------------------------------------------------
  // The two date columns on the file's own spellings.

  /** Text that a format renders, and whose date the window admits, converts back to that date. */
  lemma OneFormatRoundTrip(fmt: Format, d: Date, w: Window)
    requires RoundTrips(fmt) && Representable(fmt, d) && ValidDate(d) && InTimestampRange(d) && Accepts(w, d)
    requires Strip(Render(fmt, d)) == Render(fmt, d) && Render(fmt, d) != ""
    ensures OneFormat(Text(Render(fmt, d)), fmt, w) == Some(d)
  {
    FirstFormatRoundTrip([fmt], d, w, false);
  }

  /** Any transaction date of 2000..2020 written month first with a two-digit year comes back. */
  lemma TransactionDateRoundTrip(d: Date)
    requires ValidDate(d) && 2000 <= d.year <= 2020
    ensures TransactionDate(Text(Render(MonthDayYear2, d))) == Some(d)
  {
    assert Strip(Render(MonthDayYear2, d)) == Render(MonthDayYear2, d) && Render(MonthDayYear2, d) != "" by {
      RenderFive(MonthDayYear2, d);
    }
    assert RoundTrips(MonthDayYear2) && Representable(MonthDayYear2, d) by {
      NamedFormats();
    }
    OneFormatRoundTrip(MonthDayYear2, d, Years(2000, 2020));
  }

  /** Any birth date of 1969..2010 written day first with a two-digit year comes back. */
  lemma DobRoundTrip(d: Date)
    requires ValidDate(d) && 1969 <= d.year <= 2010
    ensures CustomerDob(Text(Render(DayMonthYear2, d))) == Some(d)
  {
    assert Strip(Render(DayMonthYear2, d)) == Render(DayMonthYear2, d) && Render(DayMonthYear2, d) != "" by {
      RenderFive(DayMonthYear2, d);
    }
    assert RoundTrips(DayMonthYear2) && Representable(DayMonthYear2, d) by {
      NamedFormats();
    }
    OneFormatRoundTrip(DayMonthYear2, d, Years(1900, 2010));
  }

  lemma TransactionDateExample()
    ensures TransactionDate(Text("2/8/16")) == Some(Date(2016, 2, 8))
  {
    RenderedFeb8();
    TransactionDateRoundTrip(Date(2016, 2, 8));
  }

  lemma DobExamples()
    ensures CustomerDob(Text("10/1/94")) == Some(Date(1994, 1, 10))
    ensures CustomerDob(Text("26/11/96")) == Some(Date(1996, 11, 26))
  {
    RenderedJan10();
    DobRoundTrip(Date(1994, 1, 10));
    RenderedNov26();
    DobRoundTrip(Date(1996, 11, 26));
  }

  lemma RenderedJan10()
    ensures Render(DayMonthYear2, Date(1994, 1, 10)) == "10/1/94"
  {
    RenderFiveParts(DayMonthYear2, Date(1994, 1, 10));
    TwoDigitString(10);
    TwoDigitString(94);
  }

  /**
   * A birth date whose year ends in 11..68, written day first with a
   * two-digit year, is read as 2011..2068 and so rejected: the window can
   * never admit a birth year 1911..1968 from this format.
   */
  lemma DobLateTwoDigitYears(d: Date)
    requires ValidDate(d) && 11 <= d.year % 100 <= 68
    ensures CustomerDob(Text(Render(DayMonthYear2, d))) == None
  {
    var s := Render(DayMonthYear2, d);
    assert Strip(s) == s && s != "" by {
      RenderFive(DayMonthYear2, d);
    }
    RenderYear2Last(DayMonthYear2, d);
    LateDobTextRejected(s);
  }

  /** Text ending in two digits that %y reads as a year after 2010 is never a birth date. */
  lemma LateDobTextRejected(s: string)
    requires Strip(s) == s && s != ""
    requires |s| >= 2 && IsDigit(s[|s| - 2]) && IsDigit(s[|s| - 1]) && YearOfLastTwo(s, |s|) > 2010
    ensures CustomerDob(Text(s)) == None
  {
    DobFormatMisses(s);
  }

  lemma DobFormatMisses(s: string)
    requires |s| >= 2 && IsDigit(s[|s| - 2]) && IsDigit(s[|s| - 1]) && YearOfLastTwo(s, |s|) > 2010
    ensures FirstAccepted([DayMonthYear2], s, Years(1900, 2010), false) == None
  {
    var w := Years(1900, 2010);
    SlashYear2Misses(DayMonthYear2, s, w);
    FirstAcceptedNone([DayMonthYear2], s, w, false);
  }

  /** Empty or NaN input gives None for both columns. */
  lemma BlankDates(c: Cell)
    requires c.Missing? || c == Text("")
    ensures TransactionDate(c) == None && CustomerDob(c) == None
  {
  }
}
