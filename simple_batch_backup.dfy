// src/simple_batch_backup.py: each chunk is copied raw to the object store
// and then stored all-or-nothing (one whole-column %d/%m/%y conversion,
// every INSERT, one commit; any exception rolls the chunk back); the ceiling
// is checked after a chunk, and the aggregations run once after the loop.
module SimpleBatchBackup {
  import opened Wrappers
  import opened Strings
  import opened Calendar
  import opened Strptime
  import opened Cells
  import opened Sink
  import opened Chunks

  /**
   * pd.to_datetime(cell, format='%d/%m/%y') for one cell of the column, as
   * far as the chunk's fate goes: a number fails the conversion; NaN and
   * blank text become NaT, which the INSERT then refuses, so they fail the
   * chunk too and are modelled as failing here.
   */
  function ColumnDate(c: Cell): (r: Option<Date>)
    ensures r.Some? ==> ValidDate(r.value) && YearWithin(r.value, 1969, 2068)
  {
    if c.Text? then Parse(DayMonthYear2, c.s) else None
  }

  /** A whole-column conversion: None when the column is missing from a row or one cell does not convert, which raises for the whole chunk. */
  function ConvertColumn(rows: seq<Row>, conv: Cell -> Option<Date>): (r: Option<seq<Date>>)
    ensures r.Some? ==> |r.value| == |rows|
  {
    if rows == [] then Some([])
    else
      var init := ConvertColumn(rows[..|rows| - 1], conv);
      var last := rows[|rows| - 1];
      if init.None? || TransactionDateColumn !in last || conv(last[TransactionDateColumn]).None? then None
      else Some(init.value + [conv(last[TransactionDateColumn]).value])
  }

  function ChunkDates(rows: seq<Row>): Option<seq<Date>>
  {
    ConvertColumn(rows, ColumnDate)
  }

  predicate HasAllColumns(row: Row)
  {
    TransactionIdColumn in row && CustomerIdColumn in row && CustomerDobColumn in row && GenderColumn in row
    && LocationColumn in row && BalanceColumn in row && TransactionTimeColumn in row && AmountColumn in row
  }

  /** The INSERT's parameters: every cell as read, the converted date in place of the transaction date. */
  function BackupParams(row: Row, d: Date): Option<TxnRow>
  {
    if !HasAllColumns(row) then None
    else Some(TxnRow(
      SqlCell(row[TransactionIdColumn]), SqlCell(row[CustomerIdColumn]), SqlCell(row[CustomerDobColumn]),
      SqlCell(row[GenderColumn]), SqlCell(row[LocationColumn]), SqlCell(row[BalanceColumn]),
      SqlDate(d), SqlCell(row[TransactionTimeColumn]), SqlCell(row[AmountColumn])))
  }

  /** The INSERT loop over rows with their dates: None as soon as a row lacks a column or its INSERT raises. */
  function ExecuteAll(rows: seq<Row>, dates: seq<Date>, accepts: TxnRow -> bool): (r: Option<seq<TxnRow>>)
    requires |dates| == |rows|
  {
    if rows == [] then Some([])
    else
      var n := |rows| - 1;
      var init := ExecuteAll(rows[..n], dates[..n], accepts);
      var p := BackupParams(rows[n], dates[n]);
      if init.None? || p.None? || !accepts(p.value) then None else Some(init.value + [p.value])
  }

  /** store_processed_data: the rows committed, or None when the chunk was rolled back. */
  function StoreOutcome(rows: seq<Row>, accepts: TxnRow -> bool): Option<seq<TxnRow>>
  {
    var dates := ChunkDates(rows);
    if dates.None? then None else ExecuteAll(rows, dates.value, accepts)
  }

  /** The column converts exactly when every row has the column and every cell converts, and then it is the cell-wise conversion. */
  lemma {:induction false} ConvertColumnSpec(rows: seq<Row>, conv: Cell -> Option<Date>)
    ensures ConvertColumn(rows, conv).Some? <==>
      forall i :: 0 <= i < |rows| ==> TransactionDateColumn in rows[i] && conv(rows[i][TransactionDateColumn]).Some?
    ensures ConvertColumn(rows, conv).Some? ==>
      forall i :: 0 <= i < |rows| ==> ConvertColumn(rows, conv).value[i] == conv(rows[i][TransactionDateColumn]).value
  {
    if rows != [] {
      var n := |rows| - 1;
      ConvertColumnSpec(rows[..n], conv);
      assert forall i :: 0 <= i < n ==> rows[..n][i] == rows[i];
    }
  }

  /** The INSERT loop succeeds exactly when every row has its columns and every INSERT goes through, and then it holds every row's INSERT in order. */
  lemma {:induction false} ExecuteAllSpec(rows: seq<Row>, dates: seq<Date>, accepts: TxnRow -> bool)
    requires |dates| == |rows|
    ensures ExecuteAll(rows, dates, accepts).Some? <==>
      forall i :: 0 <= i < |rows| ==> BackupParams(rows[i], dates[i]).Some? && accepts(BackupParams(rows[i], dates[i]).value)
    ensures ExecuteAll(rows, dates, accepts).Some? ==>
      (var done := ExecuteAll(rows, dates, accepts).value;
       |done| == |rows| && forall i :: 0 <= i < |rows| ==> done[i] == BackupParams(rows[i], dates[i]).value)
  {
    if rows != [] {
      var n := |rows| - 1;
      ExecuteAllSpec(rows[..n], dates[..n], accepts);
      assert forall i :: 0 <= i < n ==> rows[..n][i] == rows[i] && dates[..n][i] == dates[i];
    }
  }

  /**
   * All or nothing: a chunk is committed exactly when every row has every
   * column, every transaction date converts and every INSERT goes through,
   * and then all of its rows are committed.
   */
  lemma AllOrNothing(rows: seq<Row>, accepts: TxnRow -> bool)
    ensures StoreOutcome(rows, accepts).Some? <==>
      forall i :: 0 <= i < |rows| ==> (TransactionDateColumn in rows[i] && ColumnDate(rows[i][TransactionDateColumn]).Some?
        && BackupParams(rows[i], ColumnDate(rows[i][TransactionDateColumn]).value).Some?
        && accepts(BackupParams(rows[i], ColumnDate(rows[i][TransactionDateColumn]).value).value))
    ensures StoreOutcome(rows, accepts).Some? ==> |StoreOutcome(rows, accepts).value| == |rows|
  {
    ConvertColumnSpec(rows, ColumnDate);
    var dates := ChunkDates(rows);
    if dates.Some? {
      ExecuteAllSpec(rows, dates.value, accepts);
    }
  }

  /** One transaction date that does not convert fails the entire chunk. */
  lemma OneBadDateFailsChunk(rows: seq<Row>, i: nat, accepts: TxnRow -> bool)
    requires i < |rows| && TransactionDateColumn in rows[i] && ColumnDate(rows[i][TransactionDateColumn]).None?
    ensures StoreOutcome(rows, accepts) == None
  {
    ConvertColumnSpec(rows, ColumnDate);
  }

  /** A failure at row i is a failure of the whole loop. */
  lemma {:induction false} ExecutePrefixFails(rows: seq<Row>, dates: seq<Date>, accepts: TxnRow -> bool, i: nat)
    requires |dates| == |rows| && i <= |rows| && ExecuteAll(rows[..i], dates[..i], accepts).None?
    ensures ExecuteAll(rows, dates, accepts).None?
    decreases |rows| - i
  {
    if i < |rows| {
      assert rows[..i + 1][..i] == rows[..i] && dates[..i + 1][..i] == dates[..i];
      ExecutePrefixFails(rows, dates, accepts, i + 1);
    } else {
      assert rows[..i] == rows && dates[..i] == dates;
    }
  }

  lemma ExecuteStep(rows: seq<Row>, dates: seq<Date>, accepts: TxnRow -> bool, i: nat)
    requires |dates| == |rows| && i < |rows|
    ensures ExecuteAll(rows[..i + 1], dates[..i + 1], accepts) ==
      var init := ExecuteAll(rows[..i], dates[..i], accepts);
      var p := BackupParams(rows[i], dates[i]);
      if init.None? || p.None? || !accepts(p.value) then None else Some(init.value + [p.value])
  {
    assert rows[..i + 1][..i] == rows[..i] && dates[..i + 1][..i] == dates[..i];
  }

  /**
   * store_processed_data on a live connection with nothing pending: the
   * column is converted, then the rows are inserted one by one; the first
   * failure rolls back what was inserted, success commits the chunk.
   */
  method StoreProcessedData(conn: Connection, rows: seq<Row>) returns (ok: bool)
    requires conn.live && conn.pending == []
    modifies conn
    ensures ok == StoreOutcome(rows, conn.accepts).Some?
    ensures ok ==> (conn.committed == old(conn.committed) + StoreOutcome(rows, conn.accepts).value
      && conn.commits == old(conn.commits) + 1 && conn.rollbacks == old(conn.rollbacks))
    ensures !ok ==> (conn.committed == old(conn.committed)
      && conn.commits == old(conn.commits) && conn.rollbacks == old(conn.rollbacks) + 1)
    ensures conn.pending == [] && conn.aggregations == old(conn.aggregations) && conn.closed == old(conn.closed)
  {
    var dates := ChunkDates(rows);
    if dates.None? {
      conn.Rollback();
      return false;
    }
    var ds := dates.value;
    var i := 0;
    while i < |rows|
      invariant 0 <= i <= |rows|
      invariant ExecuteAll(rows[..i], ds[..i], conn.accepts) == Some(conn.pending)
      invariant conn.committed == old(conn.committed) && conn.commits == old(conn.commits) && conn.rollbacks == old(conn.rollbacks)
      invariant conn.aggregations == old(conn.aggregations) && conn.closed == old(conn.closed)
    {
      ExecuteStep(rows, ds, conn.accepts, i);
      var p := BackupParams(rows[i], ds[i]);
      if p.None? {
        ExecutePrefixFails(rows, ds, conn.accepts, i + 1);
        conn.Rollback();
        return false;
      }
      var executed := conn.Execute(p.value);
      if !executed {
        ExecutePrefixFails(rows, ds, conn.accepts, i + 1);
        conn.Rollback();
        return false;
      }
      i := i + 1;
    }
    assert rows[..i] == rows && ds[..i] == ds;
    conn.Commit();
    ok := true;
  }

  // ---------------------------------------------------------------------
  // The pipeline.

  /** The raw copy's object name; `stamp` stands for datetime.now() formatted as %Y%m%d_%H%M%S at chunk n. */
  function RawName(n: nat, stamp: nat -> string): string
  {
    "bank_transactions_chunk_" + NatToString(n) + "_" + stamp(n) + ".csv"
  }

  function RawNames(k: nat, stamp: nat -> string): (names: seq<string>)
    ensures |names| == k && forall i :: 0 <= i < k ==> names[i] == RawName(i + 1, stamp)
  {
    if k == 0 then [] else RawNames(k - 1, stamp) + [RawName(k, stamp)]
  }

  /** What the successful chunks committed, in order. */
  function Committed(chunks: seq<seq<Row>>, accepts: TxnRow -> bool): seq<TxnRow>
  {
    if chunks == [] then []
    else
      var last := StoreOutcome(chunks[|chunks| - 1], accepts);
      Committed(chunks[..|chunks| - 1], accepts) + (if last.Some? then last.value else [])
  }

  /** The number of chunks that were committed. */
  function Succeeded(chunks: seq<seq<Row>>, accepts: TxnRow -> bool): (n: nat)
    ensures n <= |chunks|
  {
    if chunks == [] then 0
    else Succeeded(chunks[..|chunks| - 1], accepts) + (if StoreOutcome(chunks[|chunks| - 1], accepts).Some? then 1 else 0)
  }

  lemma ChunkStep(chunks: seq<seq<Row>>, k: nat, accepts: TxnRow -> bool)
    requires k < |chunks|
    ensures Committed(chunks[..k + 1], accepts) == Committed(chunks[..k], accepts)
      + (if StoreOutcome(chunks[k], accepts).Some? then StoreOutcome(chunks[k], accepts).value else [])
    ensures Succeeded(chunks[..k + 1], accepts) == Succeeded(chunks[..k], accepts) + (if StoreOutcome(chunks[k], accepts).Some? then 1 else 0)
  {
    assert chunks[..k + 1][..k] == chunks[..k];
  }

  const BackupChunkSize := 100000
  const BackupLimit := 300000

  /** store_raw_data for chunk k + 1: the copy lands in the bucket when it answers; a failure is only reported. */
  method CopyNext(store: ObjectStore, k: nat, stamp: nat -> string, ghost objects: seq<string>)
    requires store.objects == objects + (if store.available && store.reachable then RawNames(k, stamp) else [])
    modifies store
    ensures store.objects == objects + (if store.available && store.reachable then RawNames(k + 1, stamp) else [])
  {
    var _ := store.Put(RawName(k + 1, stamp));
  }

  /** store_processed_data on chunk k, after chunks 0..k-1. */
  method StoreNext(conn: Connection, chunks: seq<seq<Row>>, k: nat,
                   ghost base: seq<TxnRow>, ghost commits: nat, ghost rollbacks: nat)
    requires k < |chunks| && conn.live && conn.pending == []
    requires conn.committed == base + Committed(chunks[..k], conn.accepts)
    requires conn.commits == commits + Succeeded(chunks[..k], conn.accepts)
    requires conn.rollbacks == rollbacks + (k - Succeeded(chunks[..k], conn.accepts))
    modifies conn
    ensures conn.committed == base + Committed(chunks[..k + 1], conn.accepts)
    ensures conn.commits == commits + Succeeded(chunks[..k + 1], conn.accepts)
    ensures conn.rollbacks == rollbacks + (k + 1 - Succeeded(chunks[..k + 1], conn.accepts))
    ensures conn.pending == [] && conn.aggregations == old(conn.aggregations) && conn.closed == old(conn.closed)
  {
    ghost var outcome := StoreOutcome(chunks[k], conn.accepts);
    ChunkStep(chunks, k, conn.accepts);
    var ok := StoreProcessedData(conn, chunks[k]);
    assert ok == outcome.Some?;
  }

  /**
   * process_full_pipeline followed by closing the connection. setup_storage
   * raises unless the database answers, so the connection is live. Each
   * chunk is copied raw and stored all or nothing; the rows of every chunk
   * read count, stored or not; the loop stops after the chunk that takes
   * the count to BackupLimit; the aggregations run once.
   */
  method BackupPipeline(conn: Connection, store: ObjectStore, rows: seq<Row>, stamp: nat -> string)
    returns (k: nat, totalProcessed: nat)
    requires conn.live && conn.pending == []
    modifies conn, store
    ensures var chunks := Split(rows, BackupChunkSize);
      && k == ReachedAfter(Sizes(chunks), BackupLimit)
      && totalProcessed == Sum(Sizes(chunks)[..k])
      && conn.committed == old(conn.committed) + Committed(chunks[..k], conn.accepts)
      && conn.commits == old(conn.commits) + Succeeded(chunks[..k], conn.accepts) + 1
      && conn.rollbacks == old(conn.rollbacks) + (k - Succeeded(chunks[..k], conn.accepts))
    ensures store.objects == old(store.objects) + (if store.available && store.reachable then RawNames(k, stamp) else [])
    ensures conn.aggregations == old(conn.aggregations) + 1 && conn.pending == [] && conn.closed
  {
    var chunks := Split(rows, BackupChunkSize);
    k, totalProcessed := BackupLoop(conn, store, chunks, stamp);
    ReachedAt(Sizes(chunks), BackupLimit, k);
    AfterSameAsBefore(Sizes(chunks), BackupLimit);
    conn.CreateAggregations();
    conn.Close();
  }

  /** The chunk loop of backup_pipeline: chunks are copied and stored until the count reaches BackupLimit. */
  method BackupLoop(conn: Connection, store: ObjectStore, chunks: seq<seq<Row>>, stamp: nat -> string)
    returns (k: nat, totalProcessed: nat)
    requires conn.live && conn.pending == []
    modifies conn, store
    ensures k <= |chunks| && totalProcessed == Sum(Sizes(chunks)[..k])
    ensures (k == 0 || Sum(Sizes(chunks)[..k - 1]) < BackupLimit) && !(k < |chunks| && totalProcessed < BackupLimit)
    ensures conn.pending == [] && conn.aggregations == old(conn.aggregations) && conn.closed == old(conn.closed)
    ensures conn.committed == old(conn.committed) + Committed(chunks[..k], conn.accepts)
    ensures conn.commits == old(conn.commits) + Succeeded(chunks[..k], conn.accepts)
    ensures conn.rollbacks == old(conn.rollbacks) + (k - Succeeded(chunks[..k], conn.accepts))
    ensures store.objects == old(store.objects) + (if store.available && store.reachable then RawNames(k, stamp) else [])
  {
    ghost var sizes := Sizes(chunks);
    k, totalProcessed := 0, 0;
    var stop := false;
    while k < |chunks| && !stop
      invariant 0 <= k <= |chunks|
      invariant totalProcessed == Sum(sizes[..k]) && stop == (totalProcessed >= BackupLimit)
      invariant k == 0 || Sum(sizes[..k - 1]) < BackupLimit
      invariant conn.pending == [] && conn.aggregations == old(conn.aggregations) && conn.closed == old(conn.closed)
      invariant conn.committed == old(conn.committed) + Committed(chunks[..k], conn.accepts)
      invariant conn.commits == old(conn.commits) + Succeeded(chunks[..k], conn.accepts)
      invariant conn.rollbacks == old(conn.rollbacks) + (k - Succeeded(chunks[..k], conn.accepts))
      invariant store.objects == old(store.objects) + (if store.available && store.reachable then RawNames(k, stamp) else [])
    {
      CopyNext(store, k, stamp, old(store.objects));
      StoreNext(conn, chunks, k, old(conn.committed), old(conn.commits), old(conn.rollbacks));
      SumStep(sizes, k);
      totalProcessed := totalProcessed + |chunks[k]|;
      k := k + 1;
      stop := totalProcessed >= BackupLimit;
    }
  }

  /** At least one chunk is attempted, and with 100000-row chunks the count reached is the rows read, up to BackupLimit. */
  lemma BackupRowsRead(rows: seq<Row>)
    ensures var s := Sizes(Split(rows, BackupChunkSize));
      && (rows != [] ==> ReachedAfter(s, BackupLimit) >= 1)
      && Sum(s[..ReachedAfter(s, BackupLimit)]) == if |rows| < BackupLimit then |rows| else BackupLimit
  {
    var s := Sizes(Split(rows, BackupChunkSize));
    if rows != [] {
      assert Split(rows, BackupChunkSize) != [] by {
        SplitConcat(rows, BackupChunkSize);
      }
      AfterProcessesFirst(s, BackupLimit);
    }
    AfterSameAsBefore(s, BackupLimit);
    RowsRead(rows, BackupChunkSize, 3);
  }
}
