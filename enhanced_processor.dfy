// src/enhanced_processor.py (and its line-for-line copy
// src/enhanced_processor_final_fixed.py): role-aware date normalisation,
// numeric cleaning, the per-row classification with its four counters, the
// commit-if-anything-stored chunk, and the pipeline with a rows-seen ceiling
// checked before each chunk.
module EnhancedProcessor {
  import opened Wrappers
  import opened Strings
  import opened Calendar
  import opened Strptime
  import opened DatePolicy
  import opened Cells
  import opened PyFloat
  import opened Sink
  import opened Ingest
  import opened Chunks
  import opened ChunkLoops

  /** pandas' format-free parse of text that is not a NaT spelling, whose heuristics are not modelled; None where it raises. */
  type Fallback = string -> Option<Date>

  /** The formats tried for a field, in order. */
  function Formats(fieldName: string): seq<Format>
  {
    if fieldName == TransactionDateColumn then [MonthDayYear2, DayMonthYear2, IsoDate, MonthDayYear4Dash]
    else if fieldName == CustomerDobColumn then [DayMonthYear2, MonthDayYear2, IsoDate, DayMonthYear4Dash]
    else [MonthDayYear2, DayMonthYear2, IsoDate]
  }

  /** The years a field accepts from a format parse. */
  function WindowOf(fieldName: string): Window
  {
    if fieldName == TransactionDateColumn then Years(2000, 2020)
    else if fieldName == CustomerDobColumn then Years(1930, 2010)
    else AnyYear
  }

  /**
   * smart_date_conversion: absent input gives None before any format is
   * tried. Stripped text that is blank or a NaT spelling parses to NaT under
   * every format; NaT's year compares false with both windows, so the loop
   * goes on, and the fallback returns NaT too (with no window the first
   * format returns it at once). Otherwise the first format parse inside the
   * field's window, and failing that whatever the fallback makes of the
   * stripped text, unchecked.
   */
  function SmartDate(c: Cell, fieldName: string, fallback: Fallback): (r: PandasDate)
    ensures Absent(c) ==> r == NoDate
    ensures r.NaT? <==> !Absent(c) && NaTText(Strip(Str(c)))
    ensures r.Parsed? && fallback(Strip(Str(c))) != Some(r.date) ==> ValidDate(r.date) && Accepts(WindowOf(fieldName), r.date)
  {
    if Absent(c) then NoDate
    else
      var s := Strip(Str(c));
      if NaTText(s) then NaT
      else
        var d := FirstAccepted(Formats(fieldName), s, WindowOf(fieldName), false);
        if d.Some? then Parsed(d.value) else DayOrNone(fallback(s))
  }

  const Separators: set<char> := {',', ' '}

  /** robust_numeric_conversion: None for absent or unconvertible input; text loses every comma and space and is stripped first. */
  function RobustNumeric(c: Cell): (r: Option<Float>)
    ensures Absent(c) ==> r == None
    ensures c.Number? ==> r == Some(Finite(c.value))
  {
    match c
    case Missing => None
    case Text(s) => if s == "" then None else CleanedFloat(s)
    case Number(v, _) => Some(Finite(v))
  }

  /** float() of text with every comma and space removed, then stripped. */
  function CleanedFloat(s: string): Option<Float>
  {
    ParseFloat(Strip(Remove(s, Separators)))
  }

  /** str(x)[:1] */
  function FirstChar(s: string): (r: string)
    ensures |r| == if s == [] then 0 else 1
  {
    if s == [] then s else s[..1]
  }

  /** str(x) if pd.notna(x) else default */
  function TextOr(c: Cell, default: string): string
  {
    if c.Missing? then default else Str(c)
  }

  function GenderOf(c: Cell): string
  {
    if c.Missing? then "U" else FirstChar(Str(c))
  }

  const DefaultDob := Date(1900, 1, 1)

  /** All the columns the row's insert reads after the numeric check. */
  predicate HasIdColumns(row: Row)
  {
    TransactionIdColumn in row && CustomerIdColumn in row && GenderColumn in row
    && LocationColumn in row && TransactionTimeColumn in row
  }

  /** A transaction or customer id that `not x` rejects: NaN (None) or the empty string. */
  predicate BlankId(c: Cell)
  {
    c.Missing? || Str(c) == ""
  }

  /** A date conversion that knows which column it converts, and a number conversion. */
  type DateConversion = (Cell, string) -> PandasDate
  type NumberConversion = Cell -> Option<Float>

  /** smart_date_conversion with a given fallback, as a function value. */
  function DateRole(fallback: Fallback): DateConversion
  {
    (c, fieldName) => SmartDate(c, fieldName, fallback)
  }

  /**
   * One iteration of the row loop of store_processed_data_postgres, for
   * given conversions: a missing column raises KeyError (caught:
   * problematic); then the date, the numbers and the ids are checked in that
   * order. NaT is not None, so it passes the date test and skips the birth
   * date default; a NaT in either date reaches the INSERT, which the database
   * refuses, and the row's `except` counts it as problematic.
   */
  function PlanWith(row: Row, date: DateConversion, number: NumberConversion): Plan
  {
    if TransactionDateColumn !in row || CustomerDobColumn !in row then Skip(OtherError(true))
    else
      var td := date(row[TransactionDateColumn], TransactionDateColumn);
      var dob := date(row[CustomerDobColumn], CustomerDobColumn);
      if td.NoDate? then Skip(DateError)
      else if BalanceColumn !in row || AmountColumn !in row then Skip(OtherError(true))
      else
        var balance := number(row[BalanceColumn]);
        var amount := number(row[AmountColumn]);
        if balance.None? || amount.None? then Skip(NumericError)
        else if !HasIdColumns(row) then Skip(OtherError(true))
        else if BlankId(row[TransactionIdColumn]) || BlankId(row[CustomerIdColumn]) then Skip(OtherError(false))
        else if td.NaT? || dob.NaT? then Skip(OtherError(true))
        else Insert(TxnRow(
          SqlText(Str(row[TransactionIdColumn])), SqlText(Str(row[CustomerIdColumn])),
          SqlDate(DateOf(dob).GetOr(DefaultDob)), SqlText(GenderOf(row[GenderColumn])),
          SqlText(TextOr(row[LocationColumn], "Unknown")), SqlFloat(balance.value),
          SqlDate(td.date), SqlText(TextOr(row[TransactionTimeColumn], "000000")), SqlFloat(amount.value)))
  }

  /** The row loop's classification with smart_date_conversion and robust_numeric_conversion. */
  function PlanRow(row: Row, fallback: Fallback): Plan
  {
    PlanWith(row, DateRole(fallback), RobustNumeric)
  }

  function Planner(fallback: Fallback): Row -> Plan
  {
    row => PlanRow(row, fallback)
  }

  /** The counters of one chunk against a live connection; a failed INSERT is a problematic other error. */
  function ChunkTally(rows: seq<Row>, accepts: TxnRow -> bool, fallback: Fallback): Tally
  {
    TallyOf(rows, Planner(fallback), accepts, OtherError(true))
  }

  function ChunkInserted(rows: seq<Row>, accepts: TxnRow -> bool, fallback: Fallback): seq<TxnRow>
  {
    Inserted(rows, Planner(fallback), accepts)
  }

  /** The four counters of a chunk sum to its rows, and the stored rows are the INSERTs that went through. */
  lemma ChunkAccounting(rows: seq<Row>, accepts: TxnRow -> bool, fallback: Fallback)
    ensures var t := ChunkTally(rows, accepts, fallback);
      t.silent == 0 && t.stored + t.dateErrors + t.numericErrors + t.otherErrors == |rows|
      && t.stored == |ChunkInserted(rows, accepts, fallback)| && t.problematic <= t.otherErrors
  {
    TallyTotal(rows, Planner(fallback), accepts, OtherError(true));
    StoredIsInserted(rows, Planner(fallback), accepts, OtherError(true));
    ProblematicAmongOther(rows, Planner(fallback), accepts, OtherError(true));
    NoSilentRows(rows, accepts, fallback);
  }

  lemma NoSilentRows(rows: seq<Row>, accepts: TxnRow -> bool, fallback: Fallback)
    ensures ChunkTally(rows, accepts, fallback).silent == 0
  {
    forall i | 0 <= i < |rows|
      ensures Planner(fallback)(rows[i]) != Skip(Silent)
    {
      NeverSilent(rows[i], DateRole(fallback), RobustNumeric);
    }
    NothingSilent(rows, Planner(fallback), accepts, OtherError(true));
  }

  /** The row loop counts every row it skips. */
  lemma NeverSilent(row: Row, date: DateConversion, number: NumberConversion)
    ensures PlanWith(row, date, number) != Skip(Silent)
  {
  }

  const ChunkSize := 100000
  const DemoLimit := 300000

  /** The chunks read_csv(chunksize = 100000) yields and how many of them the pipeline processes. */
  function Processed(rows: seq<Row>): (k: nat)
    ensures k <= |Split(rows, ChunkSize)|
  {
    Reached(Sizes(Split(rows, ChunkSize)), DemoLimit)
  }

  /** The ceiling is checked against rows seen before each chunk; as it is a multiple of the chunk size, exactly min(rows, 300000) rows are read. */
  lemma RowsSeen(rows: seq<Row>)
    ensures Sum(Sizes(Split(rows, ChunkSize))[..Processed(rows)]) == if |rows| < DemoLimit then |rows| else DemoLimit
  {
    RowsRead(rows, ChunkSize, 3);
  }

  /**
   * process_enhanced_pipeline over the rows of the file: a failed connection
   * test returns false before anything is read (and before the try whose
   * finally closes the connection); otherwise chunks are processed while
   * fewer than DemoLimit rows have been seen, the stored counts are summed,
   * aggregations run only if something was stored, and the connection is
   * closed. The totals the function prints are returned.
   */
  method Pipeline(conn: Connection, store: ObjectStore, rows: seq<Row>, fallback: Fallback)
    returns (ok: bool, totalProcessed: nat, totalStored: nat)
    requires conn.pending == []
    modifies conn, store
    ensures ok <==> conn.live && (!store.available || store.reachable)
    ensures !ok ==> unchanged(conn) && unchanged(store) && totalProcessed == 0 && totalStored == 0
    ensures ok ==> var chunks := Split(rows, ChunkSize); var k := Processed(rows);
      && totalProcessed == (if |rows| < DemoLimit then |rows| else DemoLimit)
      && totalStored == TotalStored(chunks[..k], Planner(fallback), conn.accepts, OtherError(true))
      && conn.committed == old(conn.committed) + TotalInserted(chunks[..k], Planner(fallback), conn.accepts)
      && store.objects == old(store.objects) + (if store.available && store.reachable then ChunkNames(k) else [])
      && conn.aggregations == old(conn.aggregations) + (if totalStored > 0 then 1 else 0)
      && conn.pending == [] && conn.closed
  {
    ok := TestConnections(conn, store);
    if !ok {
      return false, 0, 0;
    }
    var k;
    k, totalProcessed, totalStored := UploadLoop(conn, store, Split(rows, ChunkSize), Planner(fallback), OtherError(true), DemoLimit);
    RowsSeen(rows);
    if totalStored > 0 {
      conn.CreateAggregations();
    }
    conn.Close();
  }

  // ---------------------------------------------------------------------
  // What the date roles make of the bank file's own spellings.

  /** A transaction date of 2000..2020 written month first with a two-digit year (as "2/8/16") comes back, whatever the fallback. */
  lemma TransactionDateRoundTrip(d: Date, fallback: Fallback)
    requires ValidDate(d) && 2000 <= d.year <= 2020
    ensures SmartDate(Text(Render(MonthDayYear2, d)), TransactionDateColumn, fallback) == Parsed(d)
  {
    var s := Render(MonthDayYear2, d);
    assert Strip(s) == s && s != "" by {
      RenderFive(MonthDayYear2, d);
    }
    RenderedNotNaTText(MonthDayYear2, d);
    assert FirstAccepted(Formats(TransactionDateColumn), s, WindowOf(TransactionDateColumn), false) == Some(d) by {
      NamedFormats();
      FirstFormatRoundTrip(Formats(TransactionDateColumn), d, WindowOf(TransactionDateColumn), false);
    }
    AcceptedText(s, TransactionDateColumn, fallback);
  }

  /** A birth date of 1969..2010 written day first with a two-digit year (as "26/11/96") comes back, whatever the fallback. */
  lemma DobRoundTrip(d: Date, fallback: Fallback)
    requires ValidDate(d) && 1969 <= d.year <= 2010
    ensures SmartDate(Text(Render(DayMonthYear2, d)), CustomerDobColumn, fallback) == Parsed(d)
  {
    var s := Render(DayMonthYear2, d);
    assert Strip(s) == s && s != "" by {
      RenderFive(DayMonthYear2, d);
    }
    RenderedNotNaTText(DayMonthYear2, d);
    assert FirstAccepted(Formats(CustomerDobColumn), s, WindowOf(CustomerDobColumn), false) == Some(d) by {
      NamedFormats();
      FirstFormatRoundTrip(Formats(CustomerDobColumn), d, WindowOf(CustomerDobColumn), false);
    }
    AcceptedText(s, CustomerDobColumn, fallback);
  }

  /** Stripped text, not a NaT spelling, that a format accepts is read as that format's date. */
  lemma AcceptedText(s: string, fieldName: string, fallback: Fallback)
    requires Strip(s) == s && s != "" && !NaTText(s)
    requires FirstAccepted(Formats(fieldName), s, WindowOf(fieldName), false).Some?
    ensures SmartDate(Text(s), fieldName, fallback) == Parsed(FirstAccepted(Formats(fieldName), s, WindowOf(fieldName), false).value)
  {
  }

  lemma TransactionDateExample(fallback: Fallback)
    ensures SmartDate(Text("2/8/16"), TransactionDateColumn, fallback) == Parsed(Date(2016, 2, 8))
  {
    RenderedFeb8();
    TransactionDateRoundTrip(Date(2016, 2, 8), fallback);
  }

  lemma RenderedFeb8()
    ensures Render(MonthDayYear2, Date(2016, 2, 8)) == "2/8/16"
  {
    var d := Date(2016, 2, 8);
    RenderFiveParts(MonthDayYear2, d);
    assert NatToString(16) == NatToString(1) + [DigitChar(6)];
    assert PadZeros(16, 2) == "16";
  }

  lemma DobExample(fallback: Fallback)
    ensures SmartDate(Text("26/11/96"), CustomerDobColumn, fallback) == Parsed(Date(1996, 11, 26))
  {
    RenderedNov26();
    DobRoundTrip(Date(1996, 11, 26), fallback);
  }

  lemma RenderedNov26()
    ensures Render(DayMonthYear2, Date(1996, 11, 26)) == "26/11/96"
  {
    var d := Date(1996, 11, 26);
    RenderFiveParts(DayMonthYear2, d);
    TwoDigitString(26);
    TwoDigitString(11);
    TwoDigitString(96);
  }

  /**
   * A birth date of 1930..1968 written "d/m/yy" never passes the window: both
   * two-digit formats read its year as 2030..2068 and the dashed formats do
   * not match, so the result is whatever the unchecked fallback returns.
   */
  lemma DobWindowUnreachable(d: Date, fallback: Fallback)
    requires ValidDate(d) && 1930 <= d.year <= 1968
    ensures SmartDate(Text(Render(DayMonthYear2, d)), CustomerDobColumn, fallback) == DayOrNone(fallback(Render(DayMonthYear2, d)))
  {
    LateYear2FallsBack(DayMonthYear2, d, fallback);
  }

  lemma LateYear2FallsBack(fmt: Format, d: Date, fallback: Fallback)
    requires |fmt| == 5 && !fmt[0].Lit? && fmt[4] == Year2 && Lit('-') !in fmt
    requires 1930 <= d.year <= 1968
    ensures SmartDate(Text(Render(fmt, d)), CustomerDobColumn, fallback) == DayOrNone(fallback(Render(fmt, d)))
  {
    LateYear2Rendering(fmt, d);
    LateTextFallsBack(Render(fmt, d), fallback);
  }

  /** Stripped text with no dash and a two-digit year past 2010 at its end goes to the birth-date fallback. */
  lemma LateTextFallsBack(s: string, fallback: Fallback)
    requires Strip(s) == s && s != "" && '-' !in s && IsDigit(s[0])
    requires |s| >= 2 && IsDigit(s[|s| - 2]) && IsDigit(s[|s| - 1]) && YearOfLastTwo(s, |s|) > 2010
    ensures SmartDate(Text(s), CustomerDobColumn, fallback) == DayOrNone(fallback(s))
  {
    DobFormatsMiss(s);
    DigitLedNotNaT(s);
    FallsBack(Text(s), CustomerDobColumn, fallback);
  }

  /** Text with digits at both ends, no dash, and a two-digit year past 2010 in its last two characters passes none of the birth-date formats. */
  lemma DobFormatsMiss(s: string)
    requires |s| >= 2 && IsDigit(s[|s| - 2]) && IsDigit(s[|s| - 1]) && YearOfLastTwo(s, |s|) > 2010 && '-' !in s
    ensures FirstAccepted(Formats(CustomerDobColumn), s, WindowOf(CustomerDobColumn), false) == None
  {
    var w := WindowOf(CustomerDobColumn);
    SlashYear2Misses(DayMonthYear2, s, w);
    SlashYear2Misses(MonthDayYear2, s, w);
    DashedMisses(IsoDate, s, w);
    DashedMisses(DayMonthYear4Dash, s, w);
    FirstAcceptedNone(Formats(CustomerDobColumn), s, w, false);
  }

  /** Present text, not a NaT spelling, that no format accepts goes to the fallback. */
  lemma FallsBack(c: Cell, fieldName: string, fallback: Fallback)
    requires !Absent(c) && !NaTText(Strip(Str(c))) && FirstAccepted(Formats(fieldName), Strip(Str(c)), WindowOf(fieldName), false) == None
    ensures SmartDate(c, fieldName, fallback) == DayOrNone(fallback(Strip(Str(c))))
  {
  }

  /** What a 1930..1968 date looks like rendered with a two-digit year last and no dash: digits at both ends, and a last-two-digit year past 2010. */
  lemma LateYear2Rendering(fmt: Format, d: Date)
    requires |fmt| == 5 && !fmt[0].Lit? && fmt[4] == Year2 && Lit('-') !in fmt
    requires 1930 <= d.year <= 1968
    ensures var s := Render(fmt, d);
      && Strip(s) == s && s != "" && '-' !in s && IsDigit(s[0])
      && |s| >= 2 && IsDigit(s[|s| - 2]) && IsDigit(s[|s| - 1]) && YearOfLastTwo(s, |s|) > 2010
  {
    RenderFive(fmt, d);
    RenderYear2Last(fmt, d);
    RenderChars(fmt, d, '-');
    LateCentury(d.year);
  }

  /** A year of the 1930s to the 1960s written with two digits reads back as a year after 2010. */
  lemma LateCentury(y: int)
    requires 1930 <= y <= 1968
    ensures 0 <= y % 100 <= 99 && Year2Value(y % 100) == y + 100 && Year2Value(y % 100) > 2010
  {
    assert y % 100 == y - 1900;
  }

  /** A two-digit-year format reads the year from the last two characters, so a year past the window's end is never accepted. */
  lemma SlashYear2Misses(fmt: Format, s: string, w: Window)
    requires fmt == MonthDayYear2 || fmt == DayMonthYear2
    requires |s| >= 2 && IsDigit(s[|s| - 2]) && IsDigit(s[|s| - 1])
    requires w.Years? && YearOfLastTwo(s, |s|) > w.hi
    ensures !Hit(fmt, s, w, false)
  {
    ParseYearFromLastTwo(fmt, s);
  }

  /** A dashed format does not match text without a dash. */
  lemma DashedMisses(fmt: Format, s: string, w: Window)
    requires Lit('-') in fmt && '-' !in s
    ensures !Hit(fmt, s, w, false)
  {
    ParseNeedsLiteral(fmt, s, '-');
  }

  /** Commas and spaces are ignored: text that spells a natural number after their removal is that number. */
  lemma NumericIgnoresSeparators(s: string, n: nat)
    requires Remove(s, Separators) == NatToString(n)
    ensures RobustNumeric(Text(s)) == Some(Finite(n as real))
  {
    var t := NatToString(n);
    assert IsDigit(t[0]) && IsDigit(t[|t| - 1]);
    StripUnchanged(t);
    ParseNatToString(n);
  }

  lemma SeparatorsRemoved()
    ensures Remove("25,000", Separators) == NatToString(25000)
  {
    TwentyFiveThousand();
    assert Remove("000", Separators) == "000";
    assert Remove(",000", Separators) == "000";
    assert Remove("5,000", Separators) == "5000";
  }

  lemma TwentyFiveThousand()
    ensures NatToString(25000) == "25000"
  {
    assert NatToString(25) == NatToString(2) + ['5'];
    assert NatToString(250) == NatToString(25) + ['0'];
    assert NatToString(2500) == NatToString(250) + ['0'];
    assert NatToString(25000) == NatToString(2500) + ['0'];
  }

  lemma NumericExample()
    ensures RobustNumeric(Text("25,000")) == Some(Finite(25000.0))
  {
    SeparatorsRemoved();
    NumericIgnoresSeparators("25,000", 25000);
  }

  /**
   * The conditions under which a row becomes an INSERT: every column is
   * there, the transaction date converts to a date, the birth date is not
   * NaT, both numbers convert, and both ids are non-blank.
   */
  lemma InsertWhen(row: Row, fallback: Fallback)
    ensures PlanRow(row, fallback).Insert? <==>
      && TransactionDateColumn in row && CustomerDobColumn in row && BalanceColumn in row && AmountColumn in row && HasIdColumns(row)
      && SmartDate(row[TransactionDateColumn], TransactionDateColumn, fallback).Parsed?
      && !SmartDate(row[CustomerDobColumn], CustomerDobColumn, fallback).NaT?
      && RobustNumeric(row[BalanceColumn]).Some? && RobustNumeric(row[AmountColumn]).Some?
      && !BlankId(row[TransactionIdColumn]) && !BlankId(row[CustomerIdColumn])
  {
    InsertWhenWith(row, DateRole(fallback), RobustNumeric);
  }

  lemma InsertWhenWith(row: Row, date: DateConversion, number: NumberConversion)
    ensures PlanWith(row, date, number).Insert? <==>
      && TransactionDateColumn in row && CustomerDobColumn in row && BalanceColumn in row && AmountColumn in row && HasIdColumns(row)
      && date(row[TransactionDateColumn], TransactionDateColumn).Parsed?
      && !date(row[CustomerDobColumn], CustomerDobColumn).NaT?
      && number(row[BalanceColumn]).Some? && number(row[AmountColumn]).Some?
      && !BlankId(row[TransactionIdColumn]) && !BlankId(row[CustomerIdColumn])
  {
  }

  /**
   * A NaT in either date column is never stored and never counted as a date
   * error: it is a numeric or other error, and when the rest of the row is
   * sound it is the failed INSERT, a problematic other error.
   */
  lemma NaTRefusedWith(row: Row, date: DateConversion, number: NumberConversion)
    requires TransactionDateColumn in row && CustomerDobColumn in row
    requires date(row[TransactionDateColumn], TransactionDateColumn).NaT? || date(row[CustomerDobColumn], CustomerDobColumn).NaT?
    ensures !PlanWith(row, date, number).Insert?
    ensures date(row[TransactionDateColumn], TransactionDateColumn).NaT? ==> PlanWith(row, date, number) != Skip(DateError)
    ensures BalanceColumn in row && AmountColumn in row && HasIdColumns(row)
      && !date(row[TransactionDateColumn], TransactionDateColumn).NoDate?
      && number(row[BalanceColumn]).Some? && number(row[AmountColumn]).Some?
      && !BlankId(row[TransactionIdColumn]) && !BlankId(row[CustomerIdColumn])
      ==> PlanWith(row, date, number) == Skip(OtherError(true))
  {
  }

  /** A date cell holding a NaT spelling or only blanks. */
  predicate NaTCell(c: Cell)
  {
    !Absent(c) && NaTText(Strip(Str(c)))
  }

  /** With smart_date_conversion: a NaT spelling or a blank-only cell in either date column is never stored. */
  lemma NaTRefused(row: Row, fallback: Fallback)
    requires TransactionDateColumn in row && CustomerDobColumn in row
    requires NaTCell(row[TransactionDateColumn]) || NaTCell(row[CustomerDobColumn])
    ensures !PlanRow(row, fallback).Insert?
    ensures NaTCell(row[TransactionDateColumn]) ==> PlanRow(row, fallback) != Skip(DateError)
  {
    NaTRefusedWith(row, DateRole(fallback), RobustNumeric);
  }

  /** Text of blanks only is not absent, but strips to "", which is NaT. */
  lemma BlankNaT(s: string)
    requires s != [] && forall k :: 0 <= k < |s| ==> IsSpace(s[k])
    ensures NaTCell(Text(s))
  {
    BlankStrip(s);
  }

  /** A birth date of a single space is stripped to "", which is NaT, so the row is refused instead of getting the 1900-01-01 default. */
  lemma SpaceDobNeverStored(row: Row, fallback: Fallback)
    requires TransactionDateColumn in row && CustomerDobColumn in row && row[CustomerDobColumn] == Text(" ")
    ensures !PlanRow(row, fallback).Insert?
  {
    BlankNaT(" ");
    NaTRefused(row, fallback);
  }

  /**
   * Gender, location and time never decide whether a row is inserted, and
   * the birth date decides it only by being NaT: any other birth date,
   * parsed or not, leaves the outcome as it was.
   */
  lemma OptionalFieldsNeverReject(row: Row, fallback: Fallback, dob: Cell, gender: Cell, location: Cell, time: Cell)
    requires CustomerDobColumn in row && GenderColumn in row && LocationColumn in row && TransactionTimeColumn in row
    ensures var other := row[CustomerDobColumn := dob][GenderColumn := gender][LocationColumn := location][TransactionTimeColumn := time];
      SmartDate(dob, CustomerDobColumn, fallback).NaT? == SmartDate(row[CustomerDobColumn], CustomerDobColumn, fallback).NaT?
      ==> PlanRow(other, fallback).Insert? == PlanRow(row, fallback).Insert?
  {
    OptionalFieldsWith(row, DateRole(fallback), RobustNumeric, dob, gender, location, time);
  }

  lemma OptionalFieldsWith(row: Row, date: DateConversion, number: NumberConversion, dob: Cell, gender: Cell, location: Cell, time: Cell)
    requires CustomerDobColumn in row && GenderColumn in row && LocationColumn in row && TransactionTimeColumn in row
    ensures var other := row[CustomerDobColumn := dob][GenderColumn := gender][LocationColumn := location][TransactionTimeColumn := time];
      date(dob, CustomerDobColumn).NaT? == date(row[CustomerDobColumn], CustomerDobColumn).NaT?
      ==> PlanWith(other, date, number).Insert? == PlanWith(row, date, number).Insert?
  {
    var other := row[CustomerDobColumn := dob][GenderColumn := gender][LocationColumn := location][TransactionTimeColumn := time];
    assert other.Keys == row.Keys;
    assert other[CustomerDobColumn] == dob;
    assert TransactionDateColumn in row ==> other[TransactionDateColumn] == row[TransactionDateColumn];
    assert BalanceColumn in row ==> other[BalanceColumn] == row[BalanceColumn];
    assert AmountColumn in row ==> other[AmountColumn] == row[AmountColumn];
    assert TransactionIdColumn in row ==> other[TransactionIdColumn] == row[TransactionIdColumn];
    assert CustomerIdColumn in row ==> other[CustomerIdColumn] == row[CustomerIdColumn];
    InsertWhenWith(row, date, number);
    InsertWhenWith(other, date, number);
  }

  /** The values an inserted row carries: the converted dates, with 1900-01-01 for an unparsed birth date, and defaults for blank optional fields. */
  lemma Defaults(row: Row, fallback: Fallback)
    requires PlanRow(row, fallback).Insert?
    ensures var r := PlanRow(row, fallback).r;
      var dob := SmartDate(row[CustomerDobColumn], CustomerDobColumn, fallback);
      && (row[GenderColumn].Missing? ==> r.custGender == SqlText("U"))
      && (row[LocationColumn].Missing? ==> r.custLocation == SqlText("Unknown"))
      && (row[TransactionTimeColumn].Missing? ==> r.transactionTime == SqlText("000000"))
      && (dob.NoDate? ==> r.customerDob == SqlDate(DefaultDob))
      && (dob.Parsed? ==> r.customerDob == SqlDate(dob.date))
      && r.transactionDate == SqlDate(SmartDate(row[TransactionDateColumn], TransactionDateColumn, fallback).date)
      && r.custAccountBalance.SqlFloat? && r.transactionAmount.SqlFloat?
  {
    DefaultsWith(row, DateRole(fallback), RobustNumeric);
  }

  lemma DefaultsWith(row: Row, date: DateConversion, number: NumberConversion)
    requires PlanWith(row, date, number).Insert?
    ensures var r := PlanWith(row, date, number).r;
      && GenderColumn in row && LocationColumn in row && TransactionTimeColumn in row && CustomerDobColumn in row && TransactionDateColumn in row
      && var dob := date(row[CustomerDobColumn], CustomerDobColumn);
      && (row[GenderColumn].Missing? ==> r.custGender == SqlText("U"))
      && (row[LocationColumn].Missing? ==> r.custLocation == SqlText("Unknown"))
      && (row[TransactionTimeColumn].Missing? ==> r.transactionTime == SqlText("000000"))
      && (dob.NoDate? ==> r.customerDob == SqlDate(DefaultDob))
      && (dob.Parsed? ==> r.customerDob == SqlDate(dob.date))
      && date(row[TransactionDateColumn], TransactionDateColumn).Parsed?
      && r.transactionDate == SqlDate(date(row[TransactionDateColumn], TransactionDateColumn).date)
      && r.custAccountBalance.SqlFloat? && r.transactionAmount.SqlFloat?
  {
  }
}
