// src/enhanced_processor_fixed.py: day-first date conversion with no year
// window, the amount taken from the first of three columns that converts,
// birth dates passed on without a default, the commit-if-anything-stored
// chunk, and a rows-seen ceiling checked before each chunk.
module EnhancedProcessorFixed {
  import opened Wrappers
  import opened Strings
  import opened Calendar
  import opened Strptime
  import opened DatePolicy
  import opened Cells
  import opened PyFloat
  import opened Sink
  import opened Ingest
  import opened Chunks
  import opened ChunkLoops
  import opened EnhancedProcessor

  /** %d/%m/%y, %d/%m/%Y, %d-%m-%Y, %Y-%m-%d, %m/%d/%Y, in that order. */
  const DayFirstFormats: seq<Format> := [DayMonthYear2, DayMonthYear4, DayMonthYear4Dash, IsoDate, MonthDayYear4]

  /**
   * robust_date_conversion: absent input gives None. Stripped text that is
   * blank or a NaT spelling gives NaT from the first format, which returns
   * it without raising. Otherwise the first format that parses the stripped
   * text, whatever its year, and failing that whatever the fallback makes
   * of it.
   */
  function DayFirstDate(c: Cell, fallback: Fallback): (r: PandasDate)
    ensures Absent(c) ==> r == NoDate
    ensures r.NaT? <==> !Absent(c) && NaTText(Strip(Str(c)))
    ensures r.Parsed? && fallback(Strip(Str(c))) != Some(r.date) ==> ValidDate(r.date) && InTimestampRange(r.date)
  {
    if Absent(c) then NoDate
    else
      var s := Strip(Str(c));
      if NaTText(s) then NaT
      else
        var d := FirstAccepted(DayFirstFormats, s, AnyYear, false);
        if d.Some? then CandidateRange(DayFirstFormats, s); Parsed(d.value) else DayOrNone(fallback(s))
  }

  lemma CandidateRange(fmts: seq<Format>, s: string)
    requires FirstAccepted(fmts, s, AnyYear, false).Some?
    ensures InTimestampRange(FirstAccepted(fmts, s, AnyYear, false).value)
  {
    FirstAcceptedSome(fmts, s, AnyYear, false);
  }

  /** The columns the amount is looked up in, in order. */
  const AmountColumns: seq<string> := [AmountColumn, "TransactionAmount", "transaction_amount"]

  /** The value of the first present column that converts; a present column that does not convert falls through to the next. */
  function FirstAmount(row: Row, cols: seq<string>, number: NumberConversion): Option<Float>
  {
    if cols == [] then None
    else if cols[0] in row && number(row[cols[0]]).Some? then number(row[cols[0]])
    else FirstAmount(row, cols[1..], number)
  }

  /** The result is the conversion of the first column that is present and converts. */
  lemma {:induction false} FirstAmountAt(row: Row, cols: seq<string>, number: NumberConversion, i: nat)
    requires i < |cols| && cols[i] in row && number(row[cols[i]]).Some?
    requires forall j :: 0 <= j < i ==> cols[j] !in row || number(row[cols[j]]).None?
    ensures FirstAmount(row, cols, number) == number(row[cols[i]])
  {
    if i > 0 {
      assert cols[0] !in row || number(row[cols[0]]).None?;
      assert forall j :: 0 <= j < i - 1 ==> cols[1..][j] == cols[j + 1];
      FirstAmountAt(row, cols[1..], number, i - 1);
    }
  }

  /** There is no amount exactly when no column is both present and convertible. */
  lemma {:induction false} FirstAmountNone(row: Row, cols: seq<string>, number: NumberConversion)
    ensures FirstAmount(row, cols, number).None? <==> forall i :: 0 <= i < |cols| ==> cols[i] !in row || number(row[cols[i]]).None?
  {
    if cols != [] {
      FirstAmountNone(row, cols[1..], number);
      assert forall i :: 1 <= i < |cols| ==> cols[i] == cols[1..][i - 1];
    }
  }

  /** The search loop over the amount columns with its break. */
  method FindAmount(row: Row) returns (amount: Option<Float>)
    ensures amount == FirstAmount(row, AmountColumns, RobustNumeric)
  {
    amount := None;
    var i := 0;
    while i < |AmountColumns|
      invariant 0 <= i <= |AmountColumns| && amount == None
      invariant FirstAmount(row, AmountColumns, RobustNumeric) == FirstAmount(row, AmountColumns[i..], RobustNumeric)
    {
      var col := AmountColumns[i];
      assert AmountColumns[i..][1..] == AmountColumns[i + 1..];
      if col in row {
        amount := RobustNumeric(row[col]);
        if amount.Some? {
          return;
        }
      }
      i := i + 1;
    }
  }

  /** str(row[c]) if pd.notna(row.get(c)) else None */
  function OptionalText(row: Row, col: string): Option<string>
  {
    if col in row && !row[col].Missing? then Some(Str(row[col])) else None
  }

  /** `not x` on an optional id: None and the empty string are rejected. */
  predicate Blank(id: Option<string>)
  {
    id.None? || id.value == ""
  }

  /** The birth date as passed to the INSERT: None stays NULL. */
  function DobParam(dob: Option<Date>): Param
  {
    if dob.None? then SqlNull else SqlDate(dob.value)
  }

  /**
   * One iteration of the row loop for a given date and number conversion:
   * the two date columns and the balance must exist (KeyError otherwise,
   * counted as problematic); the ids and optional fields are read with
   * row.get and so never raise. NaT is not None, so it passes the date
   * test; a NaT in either date reaches the INSERT, which the database
   * refuses, and the row's `except` counts it as problematic.
   */
  function PlanFixedWith(row: Row, date: Cell -> PandasDate, number: NumberConversion): Plan
  {
    if TransactionDateColumn !in row || CustomerDobColumn !in row then Skip(OtherError(true))
    else
      var td := date(row[TransactionDateColumn]);
      var dob := date(row[CustomerDobColumn]);
      if td.NoDate? then Skip(DateError)
      else if BalanceColumn !in row then Skip(OtherError(true))
      else
        var balance := number(row[BalanceColumn]);
        var amount := FirstAmount(row, AmountColumns, number);
        if balance.None? || amount.None? then Skip(NumericError)
        else
          var tid := OptionalText(row, TransactionIdColumn);
          var cid := OptionalText(row, CustomerIdColumn);
          if Blank(tid) || Blank(cid) then Skip(OtherError(false))
          else if td.NaT? || dob.NaT? then Skip(OtherError(true))
          else Insert(TxnRow(
            SqlText(tid.value), SqlText(cid.value), DobParam(DateOf(dob)),
            SqlText(FirstChar(OptionalText(row, GenderColumn).GetOr("U"))),
            SqlText(OptionalText(row, LocationColumn).GetOr("Unknown")), SqlFloat(balance.value),
            SqlDate(td.date), SqlText(OptionalText(row, TransactionTimeColumn).GetOr("000000")), SqlFloat(amount.value)))
  }

  function DayFirstRole(fallback: Fallback): Cell -> PandasDate
  {
    c => DayFirstDate(c, fallback)
  }

  function FixedPlanner(fallback: Fallback): Row -> Plan
  {
    row => PlanFixedWith(row, DayFirstRole(fallback), RobustNumeric)
  }

  /** Every row is counted once in stored or one of the three error counters, and the stored rows are the INSERTs that went through. */
  lemma FixedChunkAccounting(rows: seq<Row>, accepts: TxnRow -> bool, fallback: Fallback)
    ensures var t := TallyOf(rows, FixedPlanner(fallback), accepts, OtherError(true));
      t.silent == 0 && t.stored + t.dateErrors + t.numericErrors + t.otherErrors == |rows|
      && t.stored == |Inserted(rows, FixedPlanner(fallback), accepts)| && t.problematic <= t.otherErrors
  {
    var plan := FixedPlanner(fallback);
    TallyTotal(rows, plan, accepts, OtherError(true));
    StoredIsInserted(rows, plan, accepts, OtherError(true));
    ProblematicAmongOther(rows, plan, accepts, OtherError(true));
    forall i | 0 <= i < |rows|
      ensures plan(rows[i]) != Skip(Silent)
    {
      FixedNeverSilent(rows[i], DayFirstRole(fallback), RobustNumeric);
    }
    NothingSilent(rows, plan, accepts, OtherError(true));
  }

  lemma FixedNeverSilent(row: Row, date: Cell -> PandasDate, number: NumberConversion)
    ensures PlanFixedWith(row, date, number) != Skip(Silent)
  {
  }

  /** The conditions under which a row becomes an INSERT: the transaction date converts to a date and the birth date is not NaT. */
  lemma FixedInsertWhen(row: Row, date: Cell -> PandasDate, number: NumberConversion)
    ensures PlanFixedWith(row, date, number).Insert? <==>
      && TransactionDateColumn in row && CustomerDobColumn in row && BalanceColumn in row
      && date(row[TransactionDateColumn]).Parsed? && !date(row[CustomerDobColumn]).NaT? && number(row[BalanceColumn]).Some?
      && FirstAmount(row, AmountColumns, number).Some?
      && !Blank(OptionalText(row, TransactionIdColumn)) && !Blank(OptionalText(row, CustomerIdColumn))
  {
  }

  /**
   * Once both date columns and the balance exist, only the INSERT can raise,
   * and it does exactly for a NaT date in a row that is otherwise sound:
   * missing ids are an ordinary other error.
   */
  lemma IdsNeverRaise(row: Row, date: Cell -> PandasDate, number: NumberConversion)
    requires TransactionDateColumn in row && CustomerDobColumn in row && BalanceColumn in row
    ensures PlanFixedWith(row, date, number) == Skip(OtherError(true)) <==>
      && (date(row[TransactionDateColumn]).NaT? || date(row[CustomerDobColumn]).NaT?)
      && !date(row[TransactionDateColumn]).NoDate? && number(row[BalanceColumn]).Some?
      && FirstAmount(row, AmountColumns, number).Some?
      && !Blank(OptionalText(row, TransactionIdColumn)) && !Blank(OptionalText(row, CustomerIdColumn))
  {
  }

  /** With robust_date_conversion: a NaT spelling or a blank-only cell in either date column is never stored, and a NaT transaction date is never a date error. */
  lemma FixedNaTRefused(row: Row, fallback: Fallback)
    requires TransactionDateColumn in row && CustomerDobColumn in row
    requires NaTCell(row[TransactionDateColumn]) || NaTCell(row[CustomerDobColumn])
    ensures !FixedPlanner(fallback)(row).Insert?
    ensures NaTCell(row[TransactionDateColumn]) ==> FixedPlanner(fallback)(row) != Skip(DateError)
  {
    FixedInsertWhen(row, DayFirstRole(fallback), RobustNumeric);
  }

  /** An inserted row carries the birth date as converted, NULL for None (never NaT), and defaults for missing optional fields. */
  lemma FixedInsertedFields(row: Row, date: Cell -> PandasDate, number: NumberConversion)
    requires PlanFixedWith(row, date, number).Insert?
    ensures var r := PlanFixedWith(row, date, number).r;
      && CustomerDobColumn in row && TransactionDateColumn in row
      && !date(row[CustomerDobColumn]).NaT? && r.customerDob == DobParam(DateOf(date(row[CustomerDobColumn])))
      && (date(row[CustomerDobColumn]).NoDate? ==> r.customerDob == SqlNull)
      && (date(row[CustomerDobColumn]).Parsed? ==> r.customerDob == SqlDate(date(row[CustomerDobColumn]).date))
      && date(row[TransactionDateColumn]).Parsed?
      && r.transactionDate == SqlDate(date(row[TransactionDateColumn]).date)
      && r.transactionAmount == SqlFloat(FirstAmount(row, AmountColumns, number).value)
      && (GenderColumn !in row || row[GenderColumn].Missing? ==> r.custGender == SqlText("U"))
      && (LocationColumn !in row || row[LocationColumn].Missing? ==> r.custLocation == SqlText("Unknown"))
      && (TransactionTimeColumn !in row || row[TransactionTimeColumn].Missing? ==> r.transactionTime == SqlText("000000"))
  {
  }

  const FixedChunkSize := 100000
  const FixedDemoLimit := 300000

  /**
   * process_enhanced_pipeline of the fixed processor: a failed connection
   * test returns false before anything is read; otherwise chunks are copied
   * raw and stored while fewer than FixedDemoLimit rows have been seen, and
   * the connection is closed. No aggregations run.
   */
  method FixedPipeline(conn: Connection, store: ObjectStore, rows: seq<Row>, fallback: Fallback)
    returns (ok: bool, totalProcessed: nat)
    requires conn.pending == []
    modifies conn, store
    ensures ok <==> conn.live && (!store.available || store.reachable)
    ensures !ok ==> unchanged(conn) && unchanged(store) && totalProcessed == 0
    ensures ok ==> var chunks := Split(rows, FixedChunkSize); var k := Reached(Sizes(chunks), FixedDemoLimit);
      && totalProcessed == (if |rows| < FixedDemoLimit then |rows| else FixedDemoLimit)
      && conn.committed == old(conn.committed) + TotalInserted(chunks[..k], FixedPlanner(fallback), conn.accepts)
      && store.objects == old(store.objects) + (if store.available && store.reachable then ChunkNames(k) else [])
      && conn.aggregations == old(conn.aggregations) && conn.pending == [] && conn.closed
  {
    ok := TestConnections(conn, store);
    if !ok {
      return false, 0;
    }
    var k, totalStored;
    k, totalProcessed, totalStored := UploadLoop(conn, store, Split(rows, FixedChunkSize), FixedPlanner(fallback), OtherError(true), FixedDemoLimit);
    RowsRead(rows, FixedChunkSize, 3);
    conn.Close();
  }

  // ---------------------------------------------------------------------
  // What day-first conversion makes of the file's spellings.

  /** Any date of 1969..2068 written day first with a two-digit year comes back, whatever the fallback. */
  lemma DayFirstRoundTrip(d: Date, fallback: Fallback)
    requires ValidDate(d) && 1969 <= d.year <= 2068
    ensures DayFirstDate(Text(Render(DayMonthYear2, d)), fallback) == Parsed(d)
  {
    var s := Render(DayMonthYear2, d);
    assert Strip(s) == s && s != "" by {
      RenderFive(DayMonthYear2, d);
    }
    RenderedNotNaTText(DayMonthYear2, d);
    assert FirstAccepted(DayFirstFormats, s, AnyYear, false) == Some(d) by {
      NamedFormats();
      FirstFormatRoundTrip(DayFirstFormats, d, AnyYear, false);
    }
  }

  /** The ambiguous "2/8/16" is read day first: 2 August 2016. */
  lemma AmbiguousDayFirst(fallback: Fallback)
    ensures DayFirstDate(Text("2/8/16"), fallback) == Parsed(Date(2016, 8, 2))
  {
    RenderedAug2();
    DayFirstRoundTrip(Date(2016, 8, 2), fallback);
  }

  lemma RenderedAug2()
    ensures Render(DayMonthYear2, Date(2016, 8, 2)) == "2/8/16"
  {
    RenderFiveParts(DayMonthYear2, Date(2016, 8, 2));
    TwoDigitString(16);
  }

  lemma OctoberFifteenth(fallback: Fallback)
    ensures DayFirstDate(Text("15/10/16"), fallback) == Parsed(Date(2016, 10, 15))
  {
    RenderedOct15();
    DayFirstRoundTrip(Date(2016, 10, 15), fallback);
  }

  lemma RenderedOct15()
    ensures Render(DayMonthYear2, Date(2016, 10, 15)) == "15/10/16"
  {
    RenderFiveParts(DayMonthYear2, Date(2016, 10, 15));
    TwoDigitString(15);
    TwoDigitString(10);
    TwoDigitString(16);
  }

  /** "10/15/2016" is missed by the four day-first formats (there is no month 15) and parsed by %m/%d/%Y, the last one. */
  lemma MonthFirstLastParse(s: string)
    requires s == "10/15/2016"
    ensures FirstAccepted(DayFirstFormats, s, AnyYear, false) == Some(Date(2016, 10, 15))
  {
    DayFirstFourMiss(s);
    MonthFirstHit(s);
    assert forall j :: 0 <= j < 4 ==> !Hit(DayFirstFormats[j], s, AnyYear, false);
    FirstAcceptedAt(DayFirstFormats, s, AnyYear, false, 4);
  }

  lemma DayFirstFourMiss(s: string)
    requires s == "10/15/2016"
    ensures !Hit(DayMonthYear2, s, AnyYear, false) && !Hit(DayMonthYear4, s, AnyYear, false)
    ensures !Hit(DayMonthYear4Dash, s, AnyYear, false) && !Hit(IsoDate, s, AnyYear, false)
  {
    SlashDayFirstMisses(s, Year2);
    SlashDayFirstMisses(s, Year4);
    DashedMisses(DayMonthYear4Dash, s, AnyYear);
    DashedMisses(IsoDate, s, AnyYear);
  }

  lemma MonthFirstHit(s: string)
    requires s == "10/15/2016"
    ensures Hit(MonthDayYear4, s, AnyYear, false) && Candidate(MonthDayYear4, s, false) == Some(Date(2016, 10, 15))
  {
    RenderedMonthFirst();
    NamedFormats();
    ParseRender(MonthDayYear4, Date(2016, 10, 15));
  }

  /** Under %d/%m/ the month of "10/15/2016" would be 15, so neither day-first slash format matches. */
  lemma SlashDayFirstMisses(s: string, y: Directive)
    requires s == "10/15/2016"
    ensures Match([Day, Lit('/'), Month, Lit('/'), y], s) == NoMatch
  {
    var fmt := [Day, Lit('/'), Month, Lit('/'), y];
    var alts := DayAlternatives(s);
    assert alts == [Alt(2, 10), Alt(1, 1)];
    assert fmt[1..][1..] == [Month, Lit('/'), y];
    assert s[2..][1..] == "15/2016";
    MonthThenSlashMisses(fmt[1..][1..], s[2..][1..]);
    SlashFirst(fmt[1..], s[2..]);
    SkipAlternative(fmt, s, alts);
    LiteralMismatch(fmt[1..], s[1..]);
    SkipAlternative(fmt, s, alts[1..]);
  }

  lemma Render2016()
    ensures PadZeros(2016, 4) == "2016"
  {
    TwoDigitString(20);
    assert NatToString(201) == NatToString(20) + ['1'];
    assert NatToString(2016) == NatToString(201) + ['6'];
  }

  lemma RenderedMonthFirst()
    ensures Render(MonthDayYear4, Date(2016, 10, 15)) == "10/15/2016"
  {
    RenderFiveParts(MonthDayYear4, Date(2016, 10, 15));
    TwoDigitString(10);
    TwoDigitString(15);
    Render2016();
  }

}
