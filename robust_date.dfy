// src/robust_date_processor.py: four slash formats per date column, a
// century shift for two-digit years above 2020, a year window per column,
// rows that fail any step skipped without a counter, and a ceiling on the
// rows stored so far checked before each chunk.
module RobustDate {
  import opened Wrappers
  import opened Strings
  import opened Calendar
  import opened Strptime
  import opened DatePolicy
  import opened Cells
  import opened Sink
  import opened Ingest
  import opened Chunks
  import opened ChunkLoops
  import opened EnhancedProcessor
  import opened EnhancedProcessorFixed

  /** parse_transaction_date's formats: month first, then day first, two-digit year before four. */
  const TransactionFormats: seq<Format> := [MonthDayYear2, MonthDayYear4, DayMonthYear2, DayMonthYear4]

  /** parse_customer_dob's formats: day first, then month first. */
  const DobFormats: seq<Format> := [DayMonthYear2, DayMonthYear4, MonthDayYear2, MonthDayYear4]

  const TransactionWindow := Years(2000, 2020)
  const DobWindow := Years(1800, 2010)

  /** `pd.isna(x) or not x` gives None; otherwise the first shifted parse of the stripped text that the window accepts. */
  function ShiftedParse(c: Cell, fmts: seq<Format>, w: Window): (r: Option<Date>)
    ensures NaOrFalsy(c) ==> r == None
    ensures r.Some? ==> ValidDate(r.value) && Accepts(w, r.value)
  {
    if NaOrFalsy(c) then None else FirstAccepted(fmts, Strip(Str(c)), w, true)
  }

  function ParseTransactionDate(c: Cell): Option<Date>
  {
    ShiftedParse(c, TransactionFormats, TransactionWindow)
  }

  function ParseCustomerDob(c: Cell): Option<Date>
  {
    ShiftedParse(c, DobFormats, DobWindow)
  }

  /**
   * One iteration of main's row loop: both dates are converted first, so a
   * missing date column raises; every exception and a missing transaction
   * date lead to `continue`, which counts nothing. The birth date goes in as
   * NULL when it did not convert.
   */
  function RobustPlanWith(row: Row, td: Cell -> Option<Date>, dob: Cell -> Option<Date>, number: NumberConversion): Plan
  {
    if TransactionDateColumn !in row || CustomerDobColumn !in row then Skip(Silent)
    else if td(row[TransactionDateColumn]).None? then Skip(Silent)
    else if BalanceColumn !in row || AmountColumn !in row then Skip(Silent)
    else
      var balance := number(row[BalanceColumn]);
      var amount := number(row[AmountColumn]);
      if balance.None? || amount.None? || !HasIdColumns(row) then Skip(Silent)
      else Insert(TxnRow(
        SqlText(Str(row[TransactionIdColumn])), SqlText(Str(row[CustomerIdColumn])),
        DobParam(dob(row[CustomerDobColumn])), SqlText(FirstChar(Str(row[GenderColumn]))),
        SqlText(Str(row[LocationColumn])), SqlFloat(balance.value),
        SqlDate(td(row[TransactionDateColumn]).value), SqlText(Str(row[TransactionTimeColumn])), SqlFloat(amount.value)))
  }

  function RobustPlanner(): Row -> Plan
  {
    row => RobustPlanWith(row, ParseTransactionDate, ParseCustomerDob, FloatOf)
  }

  lemma RobustOnlySilent(row: Row, td: Cell -> Option<Date>, dob: Cell -> Option<Date>, number: NumberConversion)
    ensures RobustPlanWith(row, td, dob, number).Skip? ==> RobustPlanWith(row, td, dob, number) == Skip(Silent)
  {
  }

  /** No error counter is ever bumped: every row of a chunk is stored or silently skipped. */
  lemma RobustChunkAccounting(rows: seq<Row>, accepts: TxnRow -> bool)
    ensures var t := TallyOf(rows, RobustPlanner(), accepts, Silent);
      t.dateErrors == 0 && t.numericErrors == 0 && t.otherErrors == 0
      && t.stored + t.silent == |rows| && t.stored == |Inserted(rows, RobustPlanner(), accepts)|
  {
    var plan := RobustPlanner();
    TallyTotal(rows, plan, accepts, Silent);
    StoredIsInserted(rows, plan, accepts, Silent);
    forall i | 0 <= i < |rows|
      ensures plan(rows[i]).Skip? ==> plan(rows[i]) == Skip(Silent)
    {
      RobustOnlySilent(rows[i], ParseTransactionDate, ParseCustomerDob, FloatOf);
    }
    OnlySilentCounters(rows, plan, accepts);
  }

  /** With only silent skips and silent failures, the three error counters stay at zero. */
  lemma {:induction false} OnlySilentCounters(rows: seq<Row>, plan: Row -> Plan, accepts: TxnRow -> bool)
    requires forall i :: 0 <= i < |rows| ==> plan(rows[i]).Skip? ==> plan(rows[i]) == Skip(Silent)
    ensures var t := TallyOf(rows, plan, accepts, Silent); t.dateErrors == 0 && t.numericErrors == 0 && t.otherErrors == 0
  {
    if rows != [] {
      var init := rows[..|rows| - 1];
      assert forall i :: 0 <= i < |init| ==> init[i] == rows[i];
      OnlySilentCounters(init, plan, accepts);
    }
  }

  /** A row is inserted exactly when every column is there, the transaction date converts and both numbers convert. */
  lemma RobustInsertWhen(row: Row, td: Cell -> Option<Date>, dob: Cell -> Option<Date>, number: NumberConversion)
    ensures RobustPlanWith(row, td, dob, number).Insert? <==>
      && TransactionDateColumn in row && CustomerDobColumn in row && BalanceColumn in row && AmountColumn in row && HasIdColumns(row)
      && td(row[TransactionDateColumn]).Some? && number(row[BalanceColumn]).Some? && number(row[AmountColumn]).Some?
    ensures RobustPlanWith(row, td, dob, number).Insert? ==>
      RobustPlanWith(row, td, dob, number).r.customerDob == (if dob(row[CustomerDobColumn]).None? then SqlNull else SqlDate(dob(row[CustomerDobColumn]).value))
  {
  }

  const RobustChunkSize := 100000
  const RobustLimit := 100000

  /**
   * main (shared by this processor and src/fix_year_processor.py, which
   * differ only in `plan`): connecting raises when the database does not
   * answer; otherwise chunks are stored and committed until, before a
   * chunk, at least RobustLimit rows have been stored, and the connection
   * is closed.
   */
  method StoredCeilingMain(conn: Connection, rows: seq<Row>, plan: Row -> Plan) returns (completed: bool, totalStored: nat)
    requires conn.pending == []
    modifies conn
    ensures completed == conn.live
    ensures !conn.live ==> unchanged(conn)
    ensures conn.live ==> var chunks := Split(rows, RobustChunkSize);
      var counts := StoredCounts(chunks, plan, conn.accepts, Silent); var k := Reached(counts, RobustLimit);
      && totalStored == Sum(counts[..k])
      && conn.committed == old(conn.committed) + TotalInserted(chunks[..k], plan, conn.accepts)
      && conn.commits == old(conn.commits) + k && conn.pending == [] && conn.closed
  {
    if !conn.live {
      return false, 0;
    }
    var k;
    k, totalStored := StoredLoop(conn, Split(rows, RobustChunkSize), plan, Silent, RobustLimit);
    conn.Close();
    completed := true;
  }

  // ---------------------------------------------------------------------
  // The two date columns.

  /** Every transaction format ending "/%y" has no four-digit year, so the window 2000..2020 makes the shift irrelevant. */
  lemma TransactionShiftIrrelevant(s: string)
    ensures FirstAccepted(TransactionFormats, s, TransactionWindow, true) == FirstAccepted(TransactionFormats, s, TransactionWindow, false)
  {
    ShiftNeverRescues(TransactionFormats, s, TransactionWindow);
  }

  /** Any transaction date of 2000..2020 written month first with a two-digit year comes back. */
  lemma TransactionDateRoundTrip(d: Date)
    requires ValidDate(d) && 2000 <= d.year <= 2020
    ensures ParseTransactionDate(Text(Render(MonthDayYear2, d))) == Some(d)
  {
    assert Strip(Render(MonthDayYear2, d)) == Render(MonthDayYear2, d) && Render(MonthDayYear2, d) != "" by {
      RenderFive(MonthDayYear2, d);
    }
    assert RoundTrips(MonthDayYear2) by {
      NamedFormats();
    }
    FirstFormatRoundTrip(TransactionFormats, d, TransactionWindow, true);
  }

  /** A birth date of 1969..2010 written day first with a two-digit year comes back unshifted. */
  lemma DobRoundTrip(d: Date)
    requires ValidDate(d) && 1969 <= d.year <= 2010
    ensures ParseCustomerDob(Text(Render(DayMonthYear2, d))) == Some(d)
  {
    assert Strip(Render(DayMonthYear2, d)) == Render(DayMonthYear2, d) && Render(DayMonthYear2, d) != "" by {
      RenderFive(DayMonthYear2, d);
    }
    assert RoundTrips(DayMonthYear2) by {
      NamedFormats();
    }
    FirstFormatRoundTrip(DobFormats, d, DobWindow, true);
  }

  /**
   * Text that %d/%m/%y reads as 2021..2068 gives the same day a century
   * earlier: a birth date of 1921..1968 written with a two-digit year comes
   * back.
   */
  lemma DobShiftedRoundTrip(d: Date)
    requires ValidDate(d) && 2021 <= d.year <= 2068
    ensures ParseCustomerDob(Text(Render(DayMonthYear2, d))) == Some(MinusCentury(d))
  {
    assert Strip(Render(DayMonthYear2, d)) == Render(DayMonthYear2, d) && Render(DayMonthYear2, d) != "" by {
      RenderFive(DayMonthYear2, d);
    }
    assert RoundTrips(DayMonthYear2) by {
      NamedFormats();
    }
    MinusCenturyValid(d);
    ShiftedFirstFormat(DobFormats, d, DobWindow);
  }

  lemma DobShiftExample()
    ensures ParseCustomerDob(Text("15/10/63")) == Some(Date(1963, 10, 15))
  {
    RenderedOct15In63();
    DobShiftedRoundTrip(Date(2063, 10, 15));
  }

  lemma RenderedOct15In63()
    ensures Render(DayMonthYear2, Date(2063, 10, 15)) == "15/10/63"
  {
    RenderFiveParts(DayMonthYear2, Date(2063, 10, 15));
    TwoDigitString(15);
    TwoDigitString(10);
    TwoDigitString(63);
  }

  /** Empty or NaN input gives None for both columns. */
  lemma BlankDates(c: Cell)
    requires c.Missing? || c == Text("")
    ensures ParseTransactionDate(c) == None && ParseCustomerDob(c) == None
  {
  }

  /** The ceiling counts stored rows: a file from which fewer than RobustLimit rows are stored is read to the end. */
  lemma FewStoredReadsAll(rows: seq<Row>, plan: Row -> Plan, accepts: TxnRow -> bool)
    requires Sum(StoredCounts(Split(rows, RobustChunkSize), plan, accepts, Silent)) < RobustLimit
    ensures Reached(StoredCounts(Split(rows, RobustChunkSize), plan, accepts, Silent), RobustLimit) == |Split(rows, RobustChunkSize)|
  {
    BelowLimitReadsAll(StoredCounts(Split(rows, RobustChunkSize), plan, accepts, Silent), RobustLimit);
  }
}
