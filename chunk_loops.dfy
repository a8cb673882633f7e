// The chunk-level machinery the processors share, over an abstract row
// classification `plan`: storing one chunk with the two commit policies,
// the raw-copy-then-store chunk of the enhanced processors, and the chunk
// loops with a ceiling checked before each chunk, on rows seen or on rows
// stored.
module ChunkLoops {
  import opened Strings
  import opened Cells
  import opened Sink
  import opened Ingest
  import opened Chunks

  /** The rows stored over a sequence of chunks. */
  function TotalStored(chunks: seq<seq<Row>>, plan: Row -> Plan, accepts: TxnRow -> bool, onFailure: Kind): nat
  {
    if chunks == [] then 0
    else TotalStored(chunks[..|chunks| - 1], plan, accepts, onFailure) + TallyOf(chunks[|chunks| - 1], plan, accepts, onFailure).stored
  }

  /** The INSERTs that went through over a sequence of chunks, in order. */
  function TotalInserted(chunks: seq<seq<Row>>, plan: Row -> Plan, accepts: TxnRow -> bool): seq<TxnRow>
  {
    if chunks == [] then []
    else TotalInserted(chunks[..|chunks| - 1], plan, accepts) + Inserted(chunks[|chunks| - 1], plan, accepts)
  }

  /** The per-chunk stored counts, the amounts a stored-rows ceiling grows by. */
  function StoredCounts(chunks: seq<seq<Row>>, plan: Row -> Plan, accepts: TxnRow -> bool, onFailure: Kind): (s: seq<nat>)
    ensures |s| == |chunks| && forall i :: 0 <= i < |s| ==> s[i] == TallyOf(chunks[i], plan, accepts, onFailure).stored
  {
    seq(|chunks|, i requires 0 <= i < |chunks| => TallyOf(chunks[i], plan, accepts, onFailure).stored)
  }

  lemma TotalsStep(chunks: seq<seq<Row>>, i: nat, plan: Row -> Plan, accepts: TxnRow -> bool, onFailure: Kind)
    requires i < |chunks|
    ensures TotalStored(chunks[..i + 1], plan, accepts, onFailure) == TotalStored(chunks[..i], plan, accepts, onFailure) + TallyOf(chunks[i], plan, accepts, onFailure).stored
    ensures TotalInserted(chunks[..i + 1], plan, accepts) == TotalInserted(chunks[..i], plan, accepts) + Inserted(chunks[i], plan, accepts)
  {
    assert chunks[..i + 1][..i] == chunks[..i];
  }

  /** The total stored is the running sum of the per-chunk counts, and exactly the INSERTs that went through are counted. */
  lemma {:induction false} TotalStoredIsSum(chunks: seq<seq<Row>>, k: nat, plan: Row -> Plan, accepts: TxnRow -> bool, onFailure: Kind)
    requires k <= |chunks|
    ensures TotalStored(chunks[..k], plan, accepts, onFailure) == Sum(StoredCounts(chunks, plan, accepts, onFailure)[..k])
    ensures TotalStored(chunks[..k], plan, accepts, onFailure) == |TotalInserted(chunks[..k], plan, accepts)|
  {
    if k > 0 {
      TotalStoredIsSum(chunks, k - 1, plan, accepts, onFailure);
      TotalsStep(chunks, k - 1, plan, accepts, onFailure);
      SumStep(StoredCounts(chunks, plan, accepts, onFailure), k - 1);
      StoredIsInserted(chunks[k - 1], plan, accepts, onFailure);
    } else {
      assert chunks[..0] == [];
    }
  }

  /**
   * The chunk of the enhanced processors' store_processed_data_postgres:
   * with a connection that raises, 0 and nothing changes; otherwise the
   * row loop, then a commit when anything was stored and a rollback when
   * nothing was.
   */
  method StoreCommitIfAny(conn: Connection, rows: seq<Row>, plan: Row -> Plan, onFailure: Kind) returns (stored: nat)
    modifies conn
    ensures !conn.live ==> stored == 0 && unchanged(conn)
    ensures conn.live ==> stored == TallyOf(rows, plan, conn.accepts, onFailure).stored
    ensures conn.live ==> conn.pending == [] && conn.closed == old(conn.closed) && conn.aggregations == old(conn.aggregations)
    ensures conn.live ==> conn.committed == old(conn.committed) + (if stored > 0 then old(conn.pending) + Inserted(rows, plan, conn.accepts) else [])
    ensures conn.live ==> conn.commits == old(conn.commits) + (if stored > 0 then 1 else 0)
    ensures conn.live ==> conn.rollbacks == old(conn.rollbacks) + (if stored > 0 then 0 else 1)
  {
    if !conn.live {
      return 0;
    }
    var t := StoreRows(conn, rows, plan, onFailure);
    stored := t.stored;
    if stored > 0 {
      conn.Commit();
    } else {
      conn.Rollback();
    }
  }

  /** A chunk committed unconditionally after its row loop, on a connection that must answer. */
  method StoreCommit(conn: Connection, rows: seq<Row>, plan: Row -> Plan, onFailure: Kind) returns (stored: nat)
    requires conn.live
    modifies conn
    ensures stored == TallyOf(rows, plan, conn.accepts, onFailure).stored
    ensures conn.committed == old(conn.committed) + old(conn.pending) + Inserted(rows, plan, conn.accepts) && conn.pending == []
    ensures conn.commits == old(conn.commits) + 1 && conn.rollbacks == old(conn.rollbacks)
    ensures conn.closed == old(conn.closed) && conn.aggregations == old(conn.aggregations)
  {
    var t := StoreRows(conn, rows, plan, onFailure);
    stored := t.stored;
    conn.Commit();
  }

  function ChunkName(n: nat): string
  {
    "bank_transactions_chunk_" + NatToString(n) + ".csv"
  }

  /** The names of chunks 1..k. */
  function ChunkNames(k: nat): (names: seq<string>)
    ensures |names| == k && forall i :: 0 <= i < k ==> names[i] == ChunkName(i + 1)
  {
    if k == 0 then [] else ChunkNames(k - 1) + [ChunkName(k)]
  }

  /**
   * process_chunk_enhanced: the raw copy first, whose result is ignored, so
   * the chunk's count is the store's whatever happens to the copy.
   */
  method UploadAndStore(conn: Connection, store: ObjectStore, rows: seq<Row>, n: nat, plan: Row -> Plan, onFailure: Kind) returns (count: nat)
    modifies conn, store
    ensures count == if conn.live then TallyOf(rows, plan, conn.accepts, onFailure).stored else 0
    ensures store.objects == old(store.objects) + (if store.available && store.reachable then [ChunkName(n)] else [])
    ensures !conn.live ==> unchanged(conn)
    ensures conn.live ==> conn.pending == [] && conn.closed == old(conn.closed) && conn.aggregations == old(conn.aggregations)
    ensures conn.live ==> conn.committed == old(conn.committed) + (if count > 0 then old(conn.pending) + Inserted(rows, plan, conn.accepts) else [])
    ensures conn.live ==> conn.commits + conn.rollbacks == old(conn.commits) + old(conn.rollbacks) + 1
  {
    var _ := store.Put(ChunkName(n));
    count := StoreCommitIfAny(conn, rows, plan, onFailure);
  }

  /** test_connections: the database must answer, and the object store too when it is configured. */
  method TestConnections(conn: Connection, store: ObjectStore) returns (ok: bool)
    ensures ok <==> conn.live && (!store.available || store.reachable)
  {
    ok := conn.live && (!store.available || store.reachable);
  }

  /** One iteration of UploadLoop: chunk k is copied raw and stored after chunks 0..k-1. */
  method UploadNext(conn: Connection, store: ObjectStore, chunks: seq<seq<Row>>, k: nat, plan: Row -> Plan, onFailure: Kind,
                    ghost base: seq<TxnRow>, ghost objects: seq<string>) returns (count: nat)
    requires conn.live && k < |chunks| && conn.pending == []
    requires conn.committed == base + TotalInserted(chunks[..k], plan, conn.accepts)
    requires store.objects == objects + (if store.available && store.reachable then ChunkNames(k) else [])
    modifies conn, store
    ensures count == TallyOf(chunks[k], plan, conn.accepts, onFailure).stored
    ensures conn.committed == base + TotalInserted(chunks[..k + 1], plan, conn.accepts) && conn.pending == []
    ensures store.objects == objects + (if store.available && store.reachable then ChunkNames(k + 1) else [])
    ensures conn.closed == old(conn.closed) && conn.aggregations == old(conn.aggregations)
  {
    TotalsStep(chunks, k, plan, conn.accepts, onFailure);
    StoredIsInserted(chunks[k], plan, conn.accepts, onFailure);
    count := UploadAndStore(conn, store, chunks[k], k + 1, plan, onFailure);
    CommitAppend(base, TotalInserted(chunks[..k], plan, conn.accepts), Inserted(chunks[k], plan, conn.accepts), count, conn.committed);
  }

  /** The chunk's INSERTs, committed when there are any, extend what the earlier chunks committed. */
  lemma CommitAppend<T>(base: seq<T>, before: seq<T>, inserted: seq<T>, count: nat, after: seq<T>)
    requires count == |inserted|
    requires after == (base + before) + (if count > 0 then [] + inserted else [])
    ensures after == base + (before + inserted)
  {
    if count == 0 {
      assert inserted == [];
    }
  }

  /**
   * The enhanced processors' chunk loop: before each chunk, stop once
   * `limit` rows have been seen; each chunk is copied raw and stored with
   * the commit-if-any policy.
   */
  method UploadLoop(conn: Connection, store: ObjectStore, chunks: seq<seq<Row>>, plan: Row -> Plan, onFailure: Kind, limit: nat)
    returns (k: nat, totalProcessed: nat, totalStored: nat)
    requires conn.live && conn.pending == []
    modifies conn, store
    ensures k == Reached(Sizes(chunks), limit)
    ensures totalProcessed == Sum(Sizes(chunks)[..k])
    ensures totalStored == TotalStored(chunks[..k], plan, conn.accepts, onFailure)
    ensures conn.committed == old(conn.committed) + TotalInserted(chunks[..k], plan, conn.accepts)
    ensures store.objects == old(store.objects) + (if store.available && store.reachable then ChunkNames(k) else [])
    ensures conn.pending == [] && conn.closed == old(conn.closed) && conn.aggregations == old(conn.aggregations)
  {
    ghost var sizes := Sizes(chunks);
    k, totalProcessed, totalStored := 0, 0, 0;
    while k < |chunks| && totalProcessed < limit
      invariant 0 <= k <= |chunks|
      invariant k == 0 || Sum(sizes[..k - 1]) < limit
      invariant totalProcessed == Sum(sizes[..k])
      invariant totalStored == TotalStored(chunks[..k], plan, conn.accepts, onFailure)
      invariant conn.committed == old(conn.committed) + TotalInserted(chunks[..k], plan, conn.accepts)
      invariant store.objects == old(store.objects) + (if store.available && store.reachable then ChunkNames(k) else [])
      invariant conn.pending == [] && conn.closed == old(conn.closed) && conn.aggregations == old(conn.aggregations)
    {
      SumStep(sizes, k);
      TotalsStep(chunks, k, plan, conn.accepts, onFailure);
      var count := UploadNext(conn, store, chunks, k, plan, onFailure, old(conn.committed), old(store.objects));
      totalProcessed := totalProcessed + |chunks[k]|;
      totalStored := totalStored + count;
      k := k + 1;
    }
    ReachedAt(sizes, limit, k);
  }

  /** One iteration of the committing chunk loops: chunk k is stored and committed after chunks 0..k-1. */
  method CommitNext(conn: Connection, chunks: seq<seq<Row>>, k: nat, plan: Row -> Plan, onFailure: Kind, ghost base: seq<TxnRow>) returns (stored: nat)
    requires conn.live && k < |chunks| && conn.pending == []
    requires conn.committed == base + TotalInserted(chunks[..k], plan, conn.accepts)
    modifies conn
    ensures stored == TallyOf(chunks[k], plan, conn.accepts, onFailure).stored
    ensures conn.committed == base + TotalInserted(chunks[..k + 1], plan, conn.accepts) && conn.pending == []
    ensures conn.commits == old(conn.commits) + 1 && conn.rollbacks == old(conn.rollbacks)
    ensures conn.closed == old(conn.closed) && conn.aggregations == old(conn.aggregations)
  {
    TotalsStep(chunks, k, plan, conn.accepts, onFailure);
    stored := StoreCommit(conn, chunks[k], plan, onFailure);
  }

  /**
   * A chunk loop that stops, before each chunk, once `limit` rows have been
   * seen, committing every chunk.
   */
  method SeenLoop(conn: Connection, chunks: seq<seq<Row>>, plan: Row -> Plan, onFailure: Kind, limit: nat)
    returns (k: nat, totalProcessed: nat, totalStored: nat)
    requires conn.live && conn.pending == []
    modifies conn
    ensures k == Reached(Sizes(chunks), limit)
    ensures totalProcessed == Sum(Sizes(chunks)[..k])
    ensures totalStored == TotalStored(chunks[..k], plan, conn.accepts, onFailure)
    ensures conn.committed == old(conn.committed) + TotalInserted(chunks[..k], plan, conn.accepts)
    ensures conn.commits == old(conn.commits) + k && conn.rollbacks == old(conn.rollbacks)
    ensures conn.pending == [] && conn.closed == old(conn.closed) && conn.aggregations == old(conn.aggregations)
  {
    ghost var sizes := Sizes(chunks);
    k, totalProcessed, totalStored := 0, 0, 0;
    while k < |chunks| && totalProcessed < limit
      invariant 0 <= k <= |chunks|
      invariant k == 0 || Sum(sizes[..k - 1]) < limit
      invariant totalProcessed == Sum(sizes[..k])
      invariant totalStored == TotalStored(chunks[..k], plan, conn.accepts, onFailure)
      invariant conn.committed == old(conn.committed) + TotalInserted(chunks[..k], plan, conn.accepts)
      invariant conn.commits == old(conn.commits) + k && conn.rollbacks == old(conn.rollbacks)
      invariant conn.pending == [] && conn.closed == old(conn.closed) && conn.aggregations == old(conn.aggregations)
    {
      SumStep(sizes, k);
      TotalsStep(chunks, k, plan, conn.accepts, onFailure);
      var stored := CommitNext(conn, chunks, k, plan, onFailure, old(conn.committed));
      totalProcessed := totalProcessed + |chunks[k]|;
      totalStored := totalStored + stored;
      k := k + 1;
    }
    ReachedAt(sizes, limit, k);
  }

  /**
   * A chunk loop that stops, before each chunk, once `limit` rows have been
   * stored, committing every chunk.
   */
  method StoredLoop(conn: Connection, chunks: seq<seq<Row>>, plan: Row -> Plan, onFailure: Kind, limit: nat)
    returns (k: nat, totalStored: nat)
    requires conn.live && conn.pending == []
    modifies conn
    ensures k == Reached(StoredCounts(chunks, plan, conn.accepts, onFailure), limit)
    ensures totalStored == Sum(StoredCounts(chunks, plan, conn.accepts, onFailure)[..k])
    ensures conn.committed == old(conn.committed) + TotalInserted(chunks[..k], plan, conn.accepts)
    ensures conn.commits == old(conn.commits) + k && conn.rollbacks == old(conn.rollbacks)
    ensures conn.pending == [] && conn.closed == old(conn.closed) && conn.aggregations == old(conn.aggregations)
  {
    ghost var counts := StoredCounts(chunks, plan, conn.accepts, onFailure);
    k, totalStored := 0, 0;
    while k < |chunks| && totalStored < limit
      invariant 0 <= k <= |chunks|
      invariant k == 0 || Sum(counts[..k - 1]) < limit
      invariant totalStored == Sum(counts[..k])
      invariant conn.committed == old(conn.committed) + TotalInserted(chunks[..k], plan, conn.accepts)
      invariant conn.commits == old(conn.commits) + k && conn.rollbacks == old(conn.rollbacks)
      invariant conn.pending == [] && conn.closed == old(conn.closed) && conn.aggregations == old(conn.aggregations)
    {
      SumStep(counts, k);
      var stored := CommitNext(conn, chunks, k, plan, onFailure, old(conn.committed));
      totalStored := totalStored + stored;
      k := k + 1;
    }
    ReachedAt(counts, limit, k);
  }
}
