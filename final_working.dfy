// src/final_working_processor.py, src/final_working_processor_backup.py and
// src/final_working_processor_fixed.py: FinalBatchProcessor's chunk loop.
// range(0, total_records, chunk_size) yields the chunks; before each one the
// loop stops once total_stored has reached demo_limit; each generated chunk
// goes to DatabaseClient.insert_transaction_batch in consecutive
// 10000-record slices. The backup variant copies every third chunk to the
// raw-data bucket; the fixed variant feeds the monitor, and its main checks
// a sample's structure first. The generator, the clock and the database are
// parameters; the logging, the sleeps and the count queries are left out.
module FinalWorking {
  import opened Wrappers
  import opened Strings
  import opened Chunks
  import opened Sink
  import opened Transactions
  import Monitoring

  const BatchSize := 10000

  /**
   * A generated transaction as the processor holds it: its fields, and
   * whether insert_transaction_batch has added a processed_at datetime to
   * it (the client changes the caller's own dictionaries).
   */
  datatype Record = Record(fields: Txn, processedAt: bool)

  /** The dictionaries DataGenerator.generate_batch returns, none yet stamped. */
  function Fresh(rows: seq<Txn>): (r: seq<Record>)
    ensures |r| == |rows| && forall i :: 0 <= i < |r| ==> r[i] == Record(rows[i], false)
  {
    seq(|rows|, i requires 0 <= i < |rows| => Record(rows[i], false))
  }

  /** The records after insert_transaction_batch has set processed_at on each. */
  function Stamp(rs: seq<Record>): (r: seq<Record>)
    ensures |r| == |rs| && forall i :: 0 <= i < |r| ==> r[i] == rs[i].(processedAt := true)
  {
    seq(|rs|, i requires 0 <= i < |rs| => rs[i].(processedAt := true))
  }

  lemma StampSlice(rs: seq<Record>, i: nat, j: nat)
    requires i <= j <= |rs|
    ensures Stamp(rs[i..j]) == Stamp(rs)[i..j]
  {
  }

  // ---------------------------------------------------------------------
  // The chunks: range(0, total_records, chunk_size).

  /** How many start offsets range(0, total, size) yields; a step of 0 raises, so size > 0. */
  function ChunkCount(total: int, size: nat): nat
    requires size > 0
  {
    if total <= 0 then 0 else (total + size - 1) / size
  }

  /** Every start offset (n - 1) * size is below the total, and the n offsets reach it: n is the ceiling of total / size. */
  lemma ChunkCountSpec(total: int, size: nat)
    requires size > 0
    ensures var n := ChunkCount(total, size);
      n * size >= total && (n > 0 ==> (n - 1) * size < total) && (total <= 0 ==> n == 0)
  {
    if total > 0 {
      var n := ChunkCount(total, size);
      var r := (total + size - 1) % size;
      assert total + size - 1 == n * size + r;
      assert (n - 1) * size == n * size - size;
    }
  }

  // ---------------------------------------------------------------------
  // One chunk: the 10000-record slices and what the client reports for each.

  /** What one insert_transaction_batch call was given and returned. */
  datatype BatchResult = BatchResult(attempted: nat, stored: nat)

  function Results(accepts: seq<Record> -> bool, pieces: seq<seq<Record>>): (r: seq<BatchResult>)
    ensures |r| == |pieces|
  {
    if pieces == [] then []
    else
      var p := pieces[|pieces| - 1];
      Results(accepts, pieces[..|pieces| - 1]) + [BatchResult(|p|, BatchInserted(accepts, p))]
  }

  function Stored(rs: seq<BatchResult>): nat
  {
    if rs == [] then 0 else Stored(rs[..|rs| - 1]) + rs[|rs| - 1].stored
  }

  function Attempted(rs: seq<BatchResult>): nat
  {
    if rs == [] then 0 else Attempted(rs[..|rs| - 1]) + rs[|rs| - 1].attempted
  }

  /** The records the table gained: the slices the client took. */
  function Accepted(accepts: seq<Record> -> bool, pieces: seq<seq<Record>>): seq<Record>
  {
    if pieces == [] then []
    else
      var p := pieces[|pieces| - 1];
      Accepted(accepts, pieces[..|pieces| - 1]) + (if BatchInserted(accepts, p) > 0 then p else [])
  }

  /** The count the client reports over a run of slices is the number of records the table gained, and never more than it was given. */
  lemma {:induction false} ReportedIsAccepted(accepts: seq<Record> -> bool, pieces: seq<seq<Record>>)
    ensures Stored(Results(accepts, pieces)) == |Accepted(accepts, pieces)|
    ensures Stored(Results(accepts, pieces)) <= Attempted(Results(accepts, pieces))
    decreases |pieces|
  {
    if pieces != [] {
      var q := pieces[..|pieces| - 1];
      var rs := Results(accepts, pieces);
      assert rs[..|rs| - 1] == Results(accepts, q);
      ReportedIsAccepted(accepts, q);
    }
  }

  /** The slice the loop takes at offset i, and what is left after it. */
  lemma SplitAt(s: seq<Record>, i: nat, j: nat)
    requires i < |s| && j == (if i + BatchSize <= |s| then i + BatchSize else |s|)
    ensures Split(s[i..], BatchSize) == [s[i..j]] + Split(s[j..], BatchSize)
  {
    var t := s[i..];
    if |t| > BatchSize {
      assert t[..BatchSize] == s[i..j] && t[BatchSize..] == s[j..];
    } else {
      assert t == s[i..j] && s[j..] == [];
    }
  }

  /** A run of results extended by one. */
  lemma ResultsStep(accepts: seq<Record> -> bool, done: seq<seq<Record>>, p: seq<Record>)
    ensures Results(accepts, done + [p]) == Results(accepts, done) + [BatchResult(|p|, BatchInserted(accepts, p))]
    ensures Accepted(accepts, done + [p]) == Accepted(accepts, done) + (if BatchInserted(accepts, p) > 0 then p else [])
  {
    assert (done + [p])[..|done|] == done;
  }

  lemma TotalsStep(rs: seq<BatchResult>, r: BatchResult)
    ensures Stored(rs + [r]) == Stored(rs) + r.stored && Attempted(rs + [r]) == Attempted(rs) + r.attempted
  {
    assert (rs + [r])[..|rs|] == rs;
  }

  /** record_processing_results for each slice in turn, as the fixed variant calls it: nothing skipped, no validation errors, and the unstored records passed as database errors. */
  function Feed(b: Monitoring.BatchMetrics, rs: seq<BatchResult>): Monitoring.BatchMetrics
  {
    if rs == [] then b
    else
      var r := rs[|rs| - 1];
      Monitoring.RecordProcessing(Feed(b, rs[..|rs| - 1]), r.attempted, r.stored, 0, 0, r.attempted - r.stored)
  }

  function FeedOpen(b: Option<Monitoring.BatchMetrics>, rs: seq<BatchResult>): Option<Monitoring.BatchMetrics>
  {
    if b.None? then None else Some(Feed(b.value, rs))
  }

  lemma FeedStep(b: Monitoring.BatchMetrics, rs: seq<BatchResult>, r: BatchResult)
    ensures Feed(b, rs + [r]) == Monitoring.RecordProcessing(Feed(b, rs), r.attempted, r.stored, 0, 0, r.attempted - r.stored)
  {
    assert (rs + [r])[..|rs|] == rs;
  }

  /** What the monitor holds after one more record_processing_results call. */
  lemma FeedOpenStep(b: Option<Monitoring.BatchMetrics>, rs: seq<BatchResult>, r: BatchResult,
                     before: Option<Monitoring.BatchMetrics>, after: Option<Monitoring.BatchMetrics>)
    requires before == FeedOpen(b, rs)
    requires after == if before.None? then None
      else Some(Monitoring.RecordProcessing(before.value, r.attempted, r.stored, 0, 0, r.attempted - r.stored))
    ensures after == FeedOpen(b, rs + [r])
  {
    if b.Some? {
      FeedStep(b.value, rs, r);
    }
  }

  /**
   * The slice loop of all three variants. `monitor` is the module-level
   * PipelineMonitor when the monitoring import succeeded (the fixed
   * variant) and null otherwise. The chunk comes back with every record
   * stamped; its slices are exactly Split(Stamp(chunk), 10000).
   */
  method InsertChunk(db: BatchClient<Record>, monitor: Monitoring.PipelineMonitor?, chunk: seq<Record>)
    returns (chunkStored: nat, data: seq<Record>, results: seq<BatchResult>)
    modifies db, monitor
    ensures data == Stamp(chunk)
    ensures results == Results(db.accepts, Split(data, BatchSize)) && chunkStored == Stored(results)
    ensures Attempted(results) == |chunk|
    ensures db.stored == old(db.stored) + Accepted(db.accepts, Split(data, BatchSize)) && db.closed == old(db.closed)
    ensures monitor != null ==>
      monitor.currentBatch == FeedOpen(old(monitor.currentBatch), results)
      && monitor.metricsHistory == old(monitor.metricsHistory) && monitor.performanceStats == old(monitor.performanceStats)
  {
    ghost var full := Stamp(chunk);
    ghost var openBatch := if monitor != null then monitor.currentBatch else None;
    data := chunk;
    chunkStored := 0;
    results := [];
    ghost var done: seq<seq<Record>> := [];
    var i := 0;
    while i < |data|
      invariant 0 <= i <= |chunk| == |data|
      invariant data == full[..i] + chunk[i..]
      invariant Split(full, BatchSize) == done + Split(full[i..], BatchSize)
      invariant results == Results(db.accepts, done) && chunkStored == Stored(results) && Attempted(results) == i
      invariant db.stored == old(db.stored) + Accepted(db.accepts, done) && db.closed == old(db.closed)
      invariant monitor != null ==>
        monitor.currentBatch == FeedOpen(openBatch, results)
        && monitor.metricsHistory == old(monitor.metricsHistory) && monitor.performanceStats == old(monitor.performanceStats)
    {
      var j := if i + BatchSize <= |data| then i + BatchSize else |data|;
      data, chunkStored, done, results := InsertNext(db, monitor, chunk, full, data, i, j, chunkStored, done, results, old(db.stored), openBatch);
      i := j;
    }
    SplitDone(full, done, i);
  }

  lemma SplitDone(full: seq<Record>, done: seq<seq<Record>>, i: nat)
    requires i == |full| && Split(full, BatchSize) == done + Split(full[i..], BatchSize)
    ensures Split(full, BatchSize) == done
  {
    assert full[i..] == [];
  }

  /**
   * One pass of the slice loop: the records at i..j are stamped in place
   * (insert_transaction_batch sets processed_at on the caller's records),
   * the slice is inserted, and the monitor, if any, is fed its result.
   */
  method InsertNext(db: BatchClient<Record>, monitor: Monitoring.PipelineMonitor?, chunk: seq<Record>, ghost full: seq<Record>,
                    data: seq<Record>, i: nat, j: nat, chunkStored: nat,
                    ghost done: seq<seq<Record>>, results: seq<BatchResult>, ghost base: seq<Record>,
                    ghost openBatch: Option<Monitoring.BatchMetrics>)
    returns (data': seq<Record>, chunkStored': nat, ghost done': seq<seq<Record>>, results': seq<BatchResult>)
    requires full == Stamp(chunk)
    requires i < |chunk| == |data| && j == (if i + BatchSize <= |data| then i + BatchSize else |data|)
    requires data == full[..i] + chunk[i..]
    requires Split(full, BatchSize) == done + Split(full[i..], BatchSize)
    requires results == Results(db.accepts, done) && chunkStored == Stored(results) && Attempted(results) == i
    requires db.stored == base + Accepted(db.accepts, done)
    requires monitor != null ==> monitor.currentBatch == FeedOpen(openBatch, results)
    modifies db, monitor
    ensures |data'| == |chunk|
    ensures data' == full[..j] + chunk[j..]
    ensures Split(full, BatchSize) == done' + Split(full[j..], BatchSize)
    ensures results' == Results(db.accepts, done') && chunkStored' == Stored(results') && Attempted(results') == j
    ensures db.stored == base + Accepted(db.accepts, done') && db.closed == old(db.closed)
    ensures monitor != null ==>
      monitor.currentBatch == FeedOpen(openBatch, results')
      && monitor.metricsHistory == old(monitor.metricsHistory) && monitor.performanceStats == old(monitor.performanceStats)
  {
    SliceStep(chunk, data, done, i, j);
    var batch := Stamp(data[i..j]);
    data' := data[..i] + batch + data[j..];
    var stored := db.InsertBatch(batch);
    var r := BatchResult(j - i, stored);
    FeedMonitor(monitor, r, openBatch, results);
    ResultsStep(db.accepts, done, batch);
    TotalsStep(results, r);
    ghost var added := if stored > 0 then batch else [];
    assert db.stored == old(db.stored) + added;
    assert Accepted(db.accepts, done + [batch]) == Accepted(db.accepts, done) + added;
    AppendAssoc(base, Accepted(db.accepts, done), added);
    chunkStored' := chunkStored + stored;
    done' := done + [batch];
    results' := results + [r];
  }

  /** record_processing for one slice's result: the open batch, if any, is fed it. */
  method FeedMonitor(monitor: Monitoring.PipelineMonitor?, r: BatchResult, ghost openBatch: Option<Monitoring.BatchMetrics>,
                     ghost results: seq<BatchResult>)
    requires monitor != null ==> monitor.currentBatch == FeedOpen(openBatch, results)
    modifies monitor
    ensures monitor != null ==>
      monitor.currentBatch == FeedOpen(openBatch, results + [r])
      && monitor.metricsHistory == old(monitor.metricsHistory) && monitor.performanceStats == old(monitor.performanceStats)
  {
    if monitor != null {
      ghost var before := monitor.currentBatch;
      monitor.RecordProcessingResults(r.attempted, r.stored, 0, 0, r.attempted - r.stored);
      FeedOpenStep(openBatch, results, r, before, monitor.currentBatch);
    }
  }

  lemma AppendAssoc<T>(a: seq<T>, b: seq<T>, c: seq<T>)
    ensures (a + b) + c == a + (b + c)
  {
  }

  /** One slice: the records at i..j stamped are the next piece of Split(Stamp(chunk), 10000). */
  lemma SliceStep(chunk: seq<Record>, data: seq<Record>, done: seq<seq<Record>>, i: nat, j: nat)
    requires i < |chunk| == |data| && j == (if i + BatchSize <= |data| then i + BatchSize else |data|)
    requires data == Stamp(chunk)[..i] + chunk[i..]
    requires Split(Stamp(chunk), BatchSize) == done + Split(Stamp(chunk)[i..], BatchSize)
    ensures Stamp(data[i..j]) == Stamp(chunk)[i..j] && |Stamp(data[i..j])| == j - i
    ensures data[..i] + Stamp(data[i..j]) + data[j..] == Stamp(chunk)[..j] + chunk[j..]
    ensures Split(Stamp(chunk), BatchSize) == (done + [Stamp(data[i..j])]) + Split(Stamp(chunk)[j..], BatchSize)
  {
    var full := Stamp(chunk);
    assert data[i..j] == chunk[i..j];
    StampSlice(chunk, i, j);
    SplitAt(full, i, j);
    assert full[..i] + full[i..j] == full[..j];
  }

  // ---------------------------------------------------------------------
  // The chunk loop of final_working_processor.py.

  /** The records chunk `rows` comes to once inserted. */
  function Inserted(rows: seq<Txn>): seq<Record>
  {
    Stamp(Fresh(rows))
  }

  /** The client's answers for the slices of one generated chunk. */
  function ChunkResults(accepts: seq<Record> -> bool, rows: seq<Txn>): seq<BatchResult>
  {
    Results(accepts, Split(Inserted(rows), BatchSize))
  }

  /** What the client reports for one generated chunk. */
  function ChunkStored(accepts: seq<Record> -> bool, rows: seq<Txn>): nat
  {
    Stored(ChunkResults(accepts, rows))
  }

  /** chunk_stored for each of the first n generated chunks. */
  function StoredCounts(accepts: seq<Record> -> bool, gen: nat -> seq<Txn>, n: nat): (s: seq<nat>)
    ensures |s| == n && forall i :: 0 <= i < n ==> s[i] == ChunkStored(accepts, gen(i))
  {
    if n == 0 then [] else StoredCounts(accepts, gen, n - 1) + [ChunkStored(accepts, gen(n - 1))]
  }

  /** The records the table gains from the first k chunks. */
  function AllAccepted(accepts: seq<Record> -> bool, gen: nat -> seq<Txn>, k: nat): seq<Record>
  {
    if k == 0 then [] else AllAccepted(accepts, gen, k - 1) + Accepted(accepts, Split(Inserted(gen(k - 1)), BatchSize))
  }

  /** The chunks processed before the ceiling: the first k of the range, k as the before-check loop reaches it. */
  function Processed(accepts: seq<Record> -> bool, gen: nat -> seq<Txn>, total: int, size: nat, limit: int): nat
    requires size > 0
  {
    Reached(StoredCounts(accepts, gen, ChunkCount(total, size)), limit)
  }

  /**
   * One chunk of the loops: chunk c is generated and inserted slice by
   * slice after chunks 0..c-1, and the monitor, if any, is fed its results.
   */
  method InsertGenerated(db: BatchClient<Record>, monitor: Monitoring.PipelineMonitor?, gen: nat -> seq<Txn>, c: nat, ghost base: seq<Record>)
    returns (chunkStored: nat, inserted: seq<Record>)
    requires db.stored == base + AllAccepted(db.accepts, gen, c)
    modifies db, monitor
    ensures chunkStored == ChunkStored(db.accepts, gen(c)) && inserted == Inserted(gen(c))
    ensures db.stored == base + AllAccepted(db.accepts, gen, c + 1) && db.closed == old(db.closed)
    ensures monitor != null ==>
      monitor.currentBatch == FeedOpen(old(monitor.currentBatch), ChunkResults(db.accepts, gen(c)))
      && monitor.metricsHistory == old(monitor.metricsHistory) && monitor.performanceStats == old(monitor.performanceStats)
  {
    var chunkData := Fresh(gen(c));
    var results;
    chunkStored, inserted, results := InsertChunk(db, monitor, chunkData);
    AppendAssoc(base, AllAccepted(db.accepts, gen, c), Accepted(db.accepts, Split(inserted, BatchSize)));
  }

  /** One chunk of the loop: its count joins the total. */
  lemma ChunkStep(accepts: seq<Record> -> bool, gen: nat -> seq<Txn>, n: nat, c: nat)
    requires c < n
    ensures var s := StoredCounts(accepts, gen, n); Sum(s[..c + 1]) == Sum(s[..c]) + ChunkStored(accepts, gen(c))
  {
    SumStep(StoredCounts(accepts, gen, n), c);
  }

  /**
   * process_large_dataset of final_working_processor.py: the total is the
   * sum of chunk_stored over the chunks processed before the ceiling, and
   * the table gains exactly those chunks' accepted slices.
   */
  method ProcessLargeDataset(db: BatchClient<Record>, gen: nat -> seq<Txn>, totalRecords: int, chunkSize: nat, demoLimit: int)
    returns (totalStored: nat)
    requires chunkSize > 0
    modifies db
    ensures totalStored == Sum(StoredCounts(db.accepts, gen, ChunkCount(totalRecords, chunkSize))[..Processed(db.accepts, gen, totalRecords, chunkSize, demoLimit)])
    ensures db.stored == old(db.stored) + AllAccepted(db.accepts, gen, Processed(db.accepts, gen, totalRecords, chunkSize, demoLimit))
    ensures db.closed == old(db.closed)
  {
    var n := ChunkCount(totalRecords, chunkSize);
    ghost var s := StoredCounts(db.accepts, gen, n);
    var c := 0;
    totalStored := 0;
    while c < n && totalStored < demoLimit
      invariant c <= n
      invariant c == 0 || Sum(s[..c - 1]) < demoLimit
      invariant totalStored == Sum(s[..c])
      invariant db.stored == old(db.stored) + AllAccepted(db.accepts, gen, c) && db.closed == old(db.closed)
    {
      totalStored := ProcessChunk(db, gen, n, c, totalStored, old(db.stored));
      c := c + 1;
    }
    LoopExit(db.accepts, gen, totalRecords, chunkSize, demoLimit, c, totalStored);
  }

  /** Where the plain loop stops: at the chunk count, or once the total reached the limit, which is the chunk Processed names. */
  lemma LoopExit(accepts: seq<Record> -> bool, gen: nat -> seq<Txn>, totalRecords: int, chunkSize: nat, demoLimit: int, c: nat, totalStored: nat)
    requires chunkSize > 0
    requires var s := StoredCounts(accepts, gen, ChunkCount(totalRecords, chunkSize));
      c <= |s| && (c == 0 || Sum(s[..c - 1]) < demoLimit) && totalStored == Sum(s[..c])
      && !(c < |s| && totalStored < demoLimit)
    ensures c == Processed(accepts, gen, totalRecords, chunkSize, demoLimit)
  {
    ReachedAt(StoredCounts(accepts, gen, ChunkCount(totalRecords, chunkSize)), demoLimit, c);
  }

  /** One iteration of the plain loop: chunk c is inserted and its count joins the total. */
  method ProcessChunk(db: BatchClient<Record>, gen: nat -> seq<Txn>, n: nat, c: nat, totalStored: nat, ghost base: seq<Record>)
    returns (total': nat)
    requires c < n && totalStored == Sum(StoredCounts(db.accepts, gen, n)[..c])
    requires db.stored == base + AllAccepted(db.accepts, gen, c)
    modifies db
    ensures total' == Sum(StoredCounts(db.accepts, gen, n)[..c + 1])
    ensures db.stored == base + AllAccepted(db.accepts, gen, c + 1) && db.closed == old(db.closed)
  {
    var chunkStored, _ := InsertGenerated(db, null, gen, c, base);
    ChunkStep(db.accepts, gen, n, c);
    total' := totalStored + chunkStored;
  }

  /** The figure the script reports equals the number of rows the table gained, the comparison its final verification prints. */
  lemma {:induction false} ReportMatchesTable(accepts: seq<Record> -> bool, gen: nat -> seq<Txn>, n: nat, k: nat)
    requires k <= n
    ensures Sum(StoredCounts(accepts, gen, n)[..k]) == |AllAccepted(accepts, gen, k)|
  {
    if k > 0 {
      ReportMatchesTable(accepts, gen, n, k - 1);
      ChunkStep(accepts, gen, n, k - 1);
      ReportedIsAccepted(accepts, Split(Inserted(gen(k - 1)), BatchSize));
    }
  }

  /** No chunk reports more than it generated, so the total overshoots the ceiling by less than one chunk. */
  lemma ChunkStoredBound(accepts: seq<Record> -> bool, rows: seq<Txn>)
    ensures ChunkStored(accepts, rows) <= |rows|
  {
    var p := Split(Inserted(rows), BatchSize);
    ReportedIsAccepted(accepts, p);
    AttemptedIsLength(accepts, Inserted(rows));
  }

  /** Over the slices of a sequence, the attempted counts add up to its length. */
  lemma AttemptedIsLength(accepts: seq<Record> -> bool, rs: seq<Record>)
    ensures Attempted(Results(accepts, Split(rs, BatchSize))) == |rs|
  {
    var p := Split(rs, BatchSize);
    SplitConcat(rs, BatchSize);
    AttemptedConcat(accepts, p);
  }

  lemma {:induction false} AttemptedConcat(accepts: seq<Record> -> bool, p: seq<seq<Record>>)
    ensures Attempted(Results(accepts, p)) == |Concat(p)|
    decreases |p|
  {
    if p != [] {
      var q := p[..|p| - 1];
      var last := p[|p| - 1];
      ResultsStep(accepts, q, last);
      TotalsStep(Results(accepts, q), BatchResult(|last|, BatchInserted(accepts, last)));
      assert q + [last] == p;
      ConcatAppend(q, last);
      AttemptedConcat(accepts, q);
    }
  }

  lemma {:induction false} ConcatAppend(q: seq<seq<Record>>, last: seq<Record>)
    ensures Concat(q + [last]) == Concat(q) + last
    decreases |q|
  {
    if q == [] {
      assert [last][1..] == [];
    } else {
      assert (q + [last])[1..] == q[1..] + [last];
      ConcatAppend(q[1..], last);
    }
  }

  /** With chunks of chunk_size records, the reported total stays below demo_limit + chunk_size. */
  lemma CeilingOvershoot(accepts: seq<Record> -> bool, gen: nat -> seq<Txn>, total: int, size: nat, limit: int)
    requires size > 0
    requires forall i :: 0 <= i < ChunkCount(total, size) ==> |gen(i)| == size
    ensures var k := Processed(accepts, gen, total, size, limit);
      k > 0 ==> Sum(StoredCounts(accepts, gen, ChunkCount(total, size))[..k]) < limit + size
  {
    var s := StoredCounts(accepts, gen, ChunkCount(total, size));
    var k := Reached(s, limit);
    if k > 0 {
      Overshoot(s, limit);
      ChunkStoredBound(accepts, gen(k - 1));
    }
  }

  // ---------------------------------------------------------------------
  // final_working_processor_backup.py: every third chunk copied raw.

  function BackupName(n: nat): string
  {
    "raw-batch-chunk-" + NatToString(n) + ".json"
  }

  /** json.dumps succeeds: the generated fields are text and numbers, but a processed_at datetime is not serialisable. */
  predicate Serialisable(rs: seq<Record>)
  {
    forall i :: 0 <= i < |rs| ==> !rs[i].processedAt
  }

  /**
   * _store_raw_data_in_minio: serialise the records, then upload them to
   * the raw-data bucket; a failure of either is caught and ignored.
   */
  method StoreRawData(store: ObjectStore, rs: seq<Record>, n: nat)
    requires store.available
    modifies store
    ensures store.objects == old(store.objects) + (if Serialisable(rs) && store.reachable then [BackupName(n)] else [])
  {
    if Serialisable(rs) {
      var _ := store.Put(BackupName(n));
    }
  }

  /**
   * What the backup of chunk `rows` serialises: as written, the chunk after
   * its inserts (every record stamped); `asGenerated` serialises it as
   * generated, which is what a backup of the raw data calls for.
   */
  function Payload(rows: seq<Txn>, asGenerated: bool): seq<Record>
  {
    if asGenerated then Fresh(rows) else Inserted(rows)
  }

  /** The objects the backups of the first k chunks write to a reachable store. */
  function Backups(gen: nat -> seq<Txn>, k: nat, asGenerated: bool): seq<string>
  {
    if k == 0 then []
    else Backups(gen, k - 1, asGenerated) + (if k % 3 == 0 && Serialisable(Payload(gen(k - 1), asGenerated)) then [BackupName(k)] else [])
  }

  /**
   * process_large_dataset of final_working_processor_backup.py: the same
   * total and table as the plain loop, and after chunk n the backup when
   * n % 3 == 0, whose failure leaves the total alone. `asGenerated` false
   * is the source as written.
   */
  method ProcessWithBackup(db: BatchClient<Record>, store: ObjectStore, gen: nat -> seq<Txn>, totalRecords: int, chunkSize: nat, demoLimit: int,
                           asGenerated: bool)
    returns (totalStored: nat)
    requires chunkSize > 0 && store.available
    modifies db, store
    ensures totalStored == Sum(StoredCounts(db.accepts, gen, ChunkCount(totalRecords, chunkSize))[..Processed(db.accepts, gen, totalRecords, chunkSize, demoLimit)])
    ensures db.stored == old(db.stored) + AllAccepted(db.accepts, gen, Processed(db.accepts, gen, totalRecords, chunkSize, demoLimit))
    ensures store.objects == old(store.objects)
      + (if store.reachable then Backups(gen, Processed(db.accepts, gen, totalRecords, chunkSize, demoLimit), asGenerated) else [])
    ensures db.closed == old(db.closed)
  {
    var n := ChunkCount(totalRecords, chunkSize);
    ghost var s := StoredCounts(db.accepts, gen, n);
    var c := 0;
    totalStored := 0;
    while c < n && totalStored < demoLimit
      invariant c <= n
      invariant c == 0 || Sum(s[..c - 1]) < demoLimit
      invariant totalStored == Sum(s[..c])
      invariant db.stored == old(db.stored) + AllAccepted(db.accepts, gen, c) && db.closed == old(db.closed)
      invariant store.objects == old(store.objects) + (if store.reachable then Backups(gen, c, asGenerated) else [])
    {
      totalStored := BackupChunk(db, store, gen, n, c, totalStored, asGenerated, old(db.stored), old(store.objects));
      c := c + 1;
    }
    LoopExit(db.accepts, gen, totalRecords, chunkSize, demoLimit, c, totalStored);
  }

  /** One iteration of the backup loop: chunk c is inserted, and backed up when it is the third, sixth, ... chunk. */
  method BackupChunk(db: BatchClient<Record>, store: ObjectStore, gen: nat -> seq<Txn>, n: nat, c: nat, totalStored: nat, asGenerated: bool,
                     ghost base: seq<Record>, ghost objects: seq<string>)
    returns (total': nat)
    requires c < n && totalStored == Sum(StoredCounts(db.accepts, gen, n)[..c])
    requires db.stored == base + AllAccepted(db.accepts, gen, c)
    requires store.available && store.objects == objects + (if store.reachable then Backups(gen, c, asGenerated) else [])
    modifies db, store
    ensures total' == Sum(StoredCounts(db.accepts, gen, n)[..c + 1])
    ensures db.stored == base + AllAccepted(db.accepts, gen, c + 1) && db.closed == old(db.closed)
    ensures store.objects == objects + (if store.reachable then Backups(gen, c + 1, asGenerated) else [])
  {
    var chunkNum := c + 1;
    var chunkStored, inserted := InsertGenerated(db, null, gen, c, base);
    ChunkStep(db.accepts, gen, n, c);
    total' := totalStored + chunkStored;
    BackupIfDue(store, gen, c, asGenerated, if asGenerated then Fresh(gen(c)) else inserted, objects);
  }

  /** The backup after chunk c + 1: written when c + 1 is a multiple of 3 and its payload serialises. */
  method BackupIfDue(store: ObjectStore, gen: nat -> seq<Txn>, c: nat, asGenerated: bool, payload: seq<Record>, ghost objects: seq<string>)
    requires store.available && payload == Payload(gen(c), asGenerated)
    requires store.objects == objects + (if store.reachable then Backups(gen, c, asGenerated) else [])
    modifies store
    ensures store.objects == objects + (if store.reachable then Backups(gen, c + 1, asGenerated) else [])
  {
    ghost var before := store.objects;
    var chunkNum := c + 1;
    if chunkNum % 3 == 0 {
      StoreRawData(store, payload, chunkNum);
    }
    BackupsAppend(gen, c, asGenerated, objects, store.reachable, before, store.objects);
  }

  lemma BackupsAppend(gen: nat -> seq<Txn>, c: nat, asGenerated: bool, objects: seq<string>, reachable: bool,
                      before: seq<string>, after: seq<string>)
    requires before == objects + (if reachable then Backups(gen, c, asGenerated) else [])
    requires after == before + (if (c + 1) % 3 == 0 && Serialisable(Payload(gen(c), asGenerated)) && reachable then [BackupName(c + 1)] else [])
    ensures after == objects + (if reachable then Backups(gen, c + 1, asGenerated) else [])
  {
    if reachable {
      AppendAssoc(objects, Backups(gen, c, asGenerated),
                  if (c + 1) % 3 == 0 && Serialisable(Payload(gen(c), asGenerated)) then [BackupName(c + 1)] else []);
    }
  }

  /** A chunk with records is stamped whole by its inserts, so json.dumps raises on it. */
  lemma StampedNotSerialisable(rows: seq<Txn>)
    requires rows != []
    ensures !Serialisable(Inserted(rows))
  {
    assert Inserted(rows)[0].processedAt;
  }

  /** As written, no chunk with records is ever backed up: the copy serialises records the inserts have stamped. */
  lemma {:induction false} NoBackupAsWritten(gen: nat -> seq<Txn>, k: nat)
    requires forall i :: 0 <= i < k ==> gen(i) != []
    ensures Backups(gen, k, false) == []
  {
    if k > 0 {
      NoBackupAsWritten(gen, k - 1);
      StampedNotSerialisable(gen(k - 1));
    }
  }

  /** The names of chunks 3, 6, 9, ... up to k. */
  function EveryThird(k: nat): (names: seq<string>)
    ensures |names| == k / 3 && forall j :: 0 <= j < k / 3 ==> names[j] == BackupName(3 * j + 3)
  {
    seq(k / 3, j requires 0 <= j < k / 3 => BackupName(3 * j + 3))
  }

  /** Serialising the chunk as generated backs up chunks 3, 6, 9, ... of those processed, in order. */
  lemma {:induction false} BackupEveryThird(gen: nat -> seq<Txn>, k: nat)
    ensures Backups(gen, k, true) == EveryThird(k)
  {
    if k > 0 {
      BackupEveryThird(gen, k - 1);
      FreshSerialisable(gen(k - 1));
      EveryThirdStep(k);
    }
  }

  lemma FreshSerialisable(rows: seq<Txn>)
    ensures Serialisable(Payload(rows, true))
  {
  }

  lemma EveryThirdStep(k: nat)
    requires k > 0
    ensures EveryThird(k) == EveryThird(k - 1) + (if k % 3 == 0 then [BackupName(k)] else [])
  {
    if k % 3 == 0 {
      assert k / 3 == (k - 1) / 3 + 1 && 3 * ((k - 1) / 3) + 3 == k;
      assert EveryThird(k) == EveryThird(k - 1) + [BackupName(k)];
    } else {
      assert k / 3 == (k - 1) / 3;
      assert EveryThird(k) == EveryThird(k - 1);
    }
  }

  // ---------------------------------------------------------------------
  // final_working_processor_fixed.py: the same loop feeding the monitor.

  /** The clock and psutil readings the monitor takes. */
  datatype Reading = Reading(time: real, usage: Option<Monitoring.Usage>)

  /** Readings at the start and end of the whole run and of each chunk. */
  datatype Clock = Clock(pipelineStart: Reading, pipelineEnd: Reading, chunkStart: nat -> Reading, chunkEnd: nat -> Reading)

  const PipelineBatchId := "full_pipeline_execution"
  const PipelineTags := ["production", "batch_processing", "bank_data"]

  /** `f"chunk_{chunk_num:02d}"`. */
  function ChunkBatchId(n: nat): string
  {
    "chunk_" + PadZeros(n, 2)
  }

  function ChunkTags(n: nat): seq<string>
  {
    ["chunk_" + NatToString(n), "data_processing"]
  }

  function Opened(name: string, id: string, tags: seq<string>, at: Reading): Monitoring.BatchMetrics
  {
    Monitoring.Captured(Monitoring.NewBatch(id, name, at.time, tags), at.usage)
  }

  /** The monitor's batch for chunk i: opened at its start, fed its slices' results, closed at its end. */
  function ChunkBatch(name: string, accepts: seq<Record> -> bool, gen: nat -> seq<Txn>, clock: Clock, i: nat): Monitoring.BatchMetrics
  {
    var b := Opened(name, ChunkBatchId(i + 1), ChunkTags(i + 1), clock.chunkStart(i));
    Monitoring.Closed(Feed(b, Results(accepts, Split(Inserted(gen(i)), BatchSize))), clock.chunkEnd(i).time, clock.chunkEnd(i).usage)
  }

  function ChunkBatches(name: string, accepts: seq<Record> -> bool, gen: nat -> seq<Txn>, clock: Clock, k: nat): (h: seq<Monitoring.BatchMetrics>)
    ensures |h| == k && forall i :: 0 <= i < k ==> h[i] == ChunkBatch(name, accepts, gen, clock, i)
  {
    if k == 0 then [] else ChunkBatches(name, accepts, gen, clock, k - 1) + [ChunkBatch(name, accepts, gen, clock, k - 1)]
  }

  /**
   * What a run adds to the monitor's history. Each chunk's start_batch
   * replaces the open pipeline batch, so the pipeline batch is recorded
   * only when no chunk ran; the closing end_monitoring then finds nothing open.
   */
  function MonitoredHistory(name: string, accepts: seq<Record> -> bool, gen: nat -> seq<Txn>, clock: Clock, k: nat): seq<Monitoring.BatchMetrics>
  {
    if k == 0 then [Monitoring.Closed(Opened(name, PipelineBatchId, PipelineTags, clock.pipelineStart), clock.pipelineEnd.time, clock.pipelineEnd.usage)]
    else ChunkBatches(name, accepts, gen, clock, k)
  }

  /**
   * process_large_dataset of final_working_processor_fixed.py: the total
   * and the table as in the plain loop; `chunkNum` (the "Chunks processed"
   * figure) counts the iteration that met the ceiling; with a monitor,
   * its history gains one batch per processed chunk and nothing stays open.
   */
  method ProcessMonitored(db: BatchClient<Record>, monitor: Monitoring.PipelineMonitor, monitored: bool, gen: nat -> seq<Txn>, clock: Clock,
                          totalRecords: int, chunkSize: nat, demoLimit: int)
    returns (totalStored: nat, chunkNum: nat)
    requires chunkSize > 0
    requires monitored ==> monitor.Valid()
    modifies db, monitor, monitor.alertManager
    ensures !monitored ==> Untouched(monitor, old(monitor.metricsHistory), old(monitor.currentBatch), old(monitor.performanceStats))
    ensures totalStored == Sum(StoredCounts(db.accepts, gen, ChunkCount(totalRecords, chunkSize))[..Processed(db.accepts, gen, totalRecords, chunkSize, demoLimit)])
    ensures db.stored == old(db.stored) + AllAccepted(db.accepts, gen, Processed(db.accepts, gen, totalRecords, chunkSize, demoLimit))
    ensures chunkNum == if Processed(db.accepts, gen, totalRecords, chunkSize, demoLimit) < ChunkCount(totalRecords, chunkSize)
      then Processed(db.accepts, gen, totalRecords, chunkSize, demoLimit) + 1
      else Processed(db.accepts, gen, totalRecords, chunkSize, demoLimit)
    ensures db.closed == old(db.closed)
    ensures monitored ==>
      monitor.Valid() && monitor.currentBatch == None
      && monitor.metricsHistory == old(monitor.metricsHistory)
         + MonitoredHistory(monitor.pipelineName, db.accepts, gen, clock, Processed(db.accepts, gen, totalRecords, chunkSize, demoLimit))
  {
    if monitored {
      monitor.StartBatch(PipelineBatchId, PipelineTags, clock.pipelineStart.time, clock.pipelineStart.usage);
    }
    var c;
    totalStored, c := MonitoredLoop(db, monitor, monitored, gen, clock, ChunkCount(totalRecords, chunkSize), demoLimit);
    chunkNum := if c < ChunkCount(totalRecords, chunkSize) then c + 1 else c;
    LoopExit(db.accepts, gen, totalRecords, chunkSize, demoLimit, c, totalStored);
    ClosePipeline(monitor, monitored, db.accepts, gen, clock, c, old(monitor.metricsHistory));
  }

  /** The closing end_monitoring of a run that processed c chunks. */
  method ClosePipeline(monitor: Monitoring.PipelineMonitor, monitored: bool, ghost accepts: seq<Record> -> bool, ghost gen: nat -> seq<Txn>, clock: Clock, ghost c: nat,
                       ghost start: seq<Monitoring.BatchMetrics>)
    requires monitored ==>
      monitor.Valid() && monitor.metricsHistory == start + ChunkBatches(monitor.pipelineName, accepts, gen, clock, c)
      && monitor.currentBatch == if c == 0 then Some(Opened(monitor.pipelineName, PipelineBatchId, PipelineTags, clock.pipelineStart)) else None
    modifies monitor, monitor.alertManager
    ensures !monitored ==> Untouched(monitor, old(monitor.metricsHistory), old(monitor.currentBatch), old(monitor.performanceStats))
    ensures monitored ==>
      monitor.Valid() && monitor.currentBatch == None
      && monitor.metricsHistory == start + MonitoredHistory(monitor.pipelineName, accepts, gen, clock, c)
  {
    if monitored {
      ghost var h := monitor.metricsHistory;
      ghost var b := monitor.currentBatch;
      EndMonitoring(monitor, clock.pipelineEnd);
      PipelineClosed(monitor.pipelineName, accepts, gen, clock, c, start, h, b, monitor.metricsHistory);
    }
  }

  /** What the closing end_monitoring leaves: the pipeline batch when no chunk ran, the chunk batches otherwise. */
  lemma PipelineClosed(name: string, accepts: seq<Record> -> bool, gen: nat -> seq<Txn>, clock: Clock, c: nat,
                       start: seq<Monitoring.BatchMetrics>, h: seq<Monitoring.BatchMetrics>, b: Option<Monitoring.BatchMetrics>,
                       after: seq<Monitoring.BatchMetrics>)
    requires h == start + ChunkBatches(name, accepts, gen, clock, c)
    requires b == if c == 0 then Some(Opened(name, PipelineBatchId, PipelineTags, clock.pipelineStart)) else None
    requires after == h + (if b.Some? then [Monitoring.Closed(b.value, clock.pipelineEnd.time, clock.pipelineEnd.usage)] else [])
    ensures after == start + MonitoredHistory(name, accepts, gen, clock, c)
  {
    if c == 0 {
      assert h == start;
    }
  }

  /**
   * The state of the monitored loop after c chunks: the running total and
   * the table as in the plain loop, and, with a monitor, one closed batch
   * per chunk in its history and the batch open at the start still open
   * when no chunk ran.
   */
  ghost predicate ChunksDone(db: BatchClient<Record>, monitor: Monitoring.PipelineMonitor, monitored: bool, gen: nat -> seq<Txn>, clock: Clock,
                             n: nat, demoLimit: int, c: nat, totalStored: nat, base: seq<Record>, closed: bool,
                             history: seq<Monitoring.BatchMetrics>, batch: Option<Monitoring.BatchMetrics>, stats: Monitoring.PerformanceStats)
    reads db, monitor
  {
    c <= n
    && (c == 0 || Sum(StoredCounts(db.accepts, gen, n)[..c - 1]) < demoLimit)
    && totalStored == Sum(StoredCounts(db.accepts, gen, n)[..c])
    && db.stored == base + AllAccepted(db.accepts, gen, c) && db.closed == closed
    && (monitored ==>
          monitor.Valid() && monitor.metricsHistory == history + ChunkBatches(monitor.pipelineName, db.accepts, gen, clock, c)
          && monitor.currentBatch == if c == 0 then batch else None)
    && (!monitored ==> Untouched(monitor, history, batch, stats))
  }

  /** The monitor's state is the given one. */
  ghost predicate Untouched(monitor: Monitoring.PipelineMonitor, history: seq<Monitoring.BatchMetrics>,
                            batch: Option<Monitoring.BatchMetrics>, stats: Monitoring.PerformanceStats)
    reads monitor
  {
    monitor.metricsHistory == history && monitor.currentBatch == batch && monitor.performanceStats == stats
  }

  /**
   * The chunk loop of the monitored variant, stopping after chunk c: at the
   * chunk count or once the total reached the limit. `c` is chunk_num at the
   * end of the last processed chunk.
   */
  method MonitoredLoop(db: BatchClient<Record>, monitor: Monitoring.PipelineMonitor, monitored: bool, gen: nat -> seq<Txn>, clock: Clock, n: nat, demoLimit: int)
    returns (totalStored: nat, c: nat)
    requires monitored ==> monitor.Valid()
    modifies db, monitor, monitor.alertManager
    ensures c <= n && (c == 0 || Sum(StoredCounts(db.accepts, gen, n)[..c - 1]) < demoLimit)
    ensures totalStored == Sum(StoredCounts(db.accepts, gen, n)[..c]) && !(c < n && totalStored < demoLimit)
    ensures db.stored == old(db.stored) + AllAccepted(db.accepts, gen, c) && db.closed == old(db.closed)
    ensures monitored ==>
      monitor.Valid() && monitor.metricsHistory == old(monitor.metricsHistory) + ChunkBatches(monitor.pipelineName, db.accepts, gen, clock, c)
      && monitor.currentBatch == if c == 0 then old(monitor.currentBatch) else None
    ensures !monitored ==> Untouched(monitor, old(monitor.metricsHistory), old(monitor.currentBatch), old(monitor.performanceStats))
  {
    c := 0;
    totalStored := 0;
    while c < n && totalStored < demoLimit
      invariant ChunksDone(db, monitor, monitored, gen, clock, n, demoLimit, c, totalStored, old(db.stored), old(db.closed),
                           old(monitor.metricsHistory), old(monitor.currentBatch), old(monitor.performanceStats))
    {
      totalStored := MonitoredChunk(db, monitor, monitored, gen, clock, n, demoLimit, c, totalStored, old(db.stored), old(db.closed),
                                    old(monitor.metricsHistory), old(monitor.currentBatch), old(monitor.performanceStats));
      c := c + 1;
    }
  }

  /** end_monitoring: the open batch, if any, is closed at the reading and joins the history. */
  method EndMonitoring(monitor: Monitoring.PipelineMonitor, at: Reading)
    requires monitor.Valid()
    modifies monitor, monitor.alertManager
    ensures monitor.Valid() && monitor.currentBatch == None
    ensures monitor.metricsHistory == old(monitor.metricsHistory)
      + (if old(monitor.currentBatch).Some? then [Monitoring.Closed(old(monitor.currentBatch).value, at.time, at.usage)] else [])
  {
    var _ := monitor.EndBatch(at.time, at.usage);
  }

  /** One iteration of the monitored loop: chunk c's batch is opened, fed its slices' results and closed into the history. */
  method MonitoredChunk(db: BatchClient<Record>, monitor: Monitoring.PipelineMonitor, monitored: bool, gen: nat -> seq<Txn>, clock: Clock,
                        n: nat, demoLimit: int, c: nat, totalStored: nat, ghost base: seq<Record>, ghost closed: bool,
                        ghost history: seq<Monitoring.BatchMetrics>, ghost batch: Option<Monitoring.BatchMetrics>, ghost stats: Monitoring.PerformanceStats)
    returns (total': nat)
    requires ChunksDone(db, monitor, monitored, gen, clock, n, demoLimit, c, totalStored, base, closed, history, batch, stats)
    requires c < n && totalStored < demoLimit
    modifies db, monitor, monitor.alertManager
    ensures ChunksDone(db, monitor, monitored, gen, clock, n, demoLimit, c + 1, total', base, closed, history, batch, stats)
  {
    var chunkStored, inserted;
    if monitored {
      chunkStored := ChunkUnderMonitor(db, monitor, gen, clock, c, base, history);
    } else {
      chunkStored, inserted := InsertGenerated(db, null, gen, c, base);
    }
    ChunkStep(db.accepts, gen, n, c);
    total' := totalStored + chunkStored;
  }

  /** Chunk c between its start_monitoring and end_monitoring. */
  method ChunkUnderMonitor(db: BatchClient<Record>, monitor: Monitoring.PipelineMonitor, gen: nat -> seq<Txn>, clock: Clock, c: nat,
                           ghost base: seq<Record>, ghost history: seq<Monitoring.BatchMetrics>)
    returns (chunkStored: nat)
    requires db.stored == base + AllAccepted(db.accepts, gen, c)
    requires monitor.Valid() && monitor.metricsHistory == history + ChunkBatches(monitor.pipelineName, db.accepts, gen, clock, c)
    modifies db, monitor, monitor.alertManager
    ensures chunkStored == ChunkStored(db.accepts, gen(c))
    ensures db.stored == base + AllAccepted(db.accepts, gen, c + 1) && db.closed == old(db.closed)
    ensures monitor.Valid() && monitor.currentBatch == None
    ensures monitor.metricsHistory == history + ChunkBatches(monitor.pipelineName, db.accepts, gen, clock, c + 1)
  {
    var chunkNum := c + 1;
    ghost var h := monitor.metricsHistory;
    monitor.StartBatch(ChunkBatchId(chunkNum), ChunkTags(chunkNum), clock.chunkStart(c).time, clock.chunkStart(c).usage);
    var inserted;
    chunkStored, inserted := InsertGenerated(db, monitor, gen, c, base);
    ghost var fed, stored := monitor.currentBatch, db.stored;
    EndMonitoring(monitor, clock.chunkEnd(c));
    assert db.stored == stored;
    ChunkClosed(monitor.pipelineName, db.accepts, gen, clock, c, history, h, fed, monitor.metricsHistory);
  }

  /** Closing chunk c's fed batch appends ChunkBatch(c) to the history. */
  lemma ChunkClosed(name: string, accepts: seq<Record> -> bool, gen: nat -> seq<Txn>, clock: Clock, c: nat,
                    start: seq<Monitoring.BatchMetrics>, h: seq<Monitoring.BatchMetrics>, fed: Option<Monitoring.BatchMetrics>,
                    after: seq<Monitoring.BatchMetrics>)
    requires h == start + ChunkBatches(name, accepts, gen, clock, c)
    requires fed == FeedOpen(Some(Opened(name, ChunkBatchId(c + 1), ChunkTags(c + 1), clock.chunkStart(c))), ChunkResults(accepts, gen(c)))
    requires after == h + (if fed.Some? then [Monitoring.Closed(fed.value, clock.chunkEnd(c).time, clock.chunkEnd(c).usage)] else [])
    ensures after == start + ChunkBatches(name, accepts, gen, clock, c + 1)
  {
    assert fed.value == Feed(Opened(name, ChunkBatchId(c + 1), ChunkTags(c + 1), clock.chunkStart(c)), ChunkResults(accepts, gen(c)));
  }
}
