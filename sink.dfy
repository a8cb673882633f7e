// The storage the processors write to, kept abstract: a PostgreSQL connection
// that executes one INSERT at a time inside a transaction, the MinIO bucket
// the raw chunks are copied to, and the batch client of src/database.py.
module Sink {
  import opened Calendar
  import opened Cells
  import opened PyFloat

  /** A value bound to one placeholder of the INSERT statement. */
  datatype Param = SqlNull | SqlText(s: string) | SqlDate(d: Date) | SqlFloat(f: Float) | SqlCell(c: Cell)

  /** The nine columns of one INSERT INTO transactions, in statement order. */
  datatype TxnRow = TxnRow(
    transactionId: Param, customerId: Param, customerDob: Param,
    custGender: Param, custLocation: Param, custAccountBalance: Param,
    transactionDate: Param, transactionTime: Param, transactionAmount: Param)

  /**
   * A psycopg2 connection. A connection that is not `live` raises on every
   * call; a live one runs an INSERT exactly when `accepts` holds for its
   * parameters. Inserted rows stay `pending` until a commit makes them
   * `committed` or a rollback discards them.
   */
  class Connection {
    const live: bool
    const accepts: TxnRow -> bool
    var pending: seq<TxnRow>
    var committed: seq<TxnRow>
    var commits: nat
    var rollbacks: nat
    var aggregations: nat
    var closed: bool

    constructor (live: bool, accepts: TxnRow -> bool)
      ensures this.live == live && this.accepts == accepts
      ensures pending == [] && committed == [] && commits == 0 && rollbacks == 0 && aggregations == 0 && !closed
    {
      this.live := live;
      this.accepts := accepts;
      pending := [];
      committed := [];
      commits := 0;
      rollbacks := 0;
      aggregations := 0;
      closed := false;
    }

    /** cursor.execute(INSERT ...): false where it raises. */
    method Execute(r: TxnRow) returns (ok: bool)
      requires live
      modifies this
      ensures ok == accepts(r)
      ensures pending == old(pending) + (if ok then [r] else [])
      ensures committed == old(committed) && commits == old(commits) && rollbacks == old(rollbacks)
      ensures aggregations == old(aggregations) && closed == old(closed)
    {
      ok := accepts(r);
      if ok {
        pending := pending + [r];
      }
    }

    method Commit()
      requires live
      modifies this
      ensures committed == old(committed) + old(pending) && pending == []
      ensures commits == old(commits) + 1 && rollbacks == old(rollbacks)
      ensures aggregations == old(aggregations) && closed == old(closed)
    {
      committed := committed + pending;
      pending := [];
      commits := commits + 1;
    }

    method Rollback()
      requires live
      modifies this
      ensures pending == [] && committed == old(committed)
      ensures rollbacks == old(rollbacks) + 1 && commits == old(commits)
      ensures aggregations == old(aggregations) && closed == old(closed)
    {
      pending := [];
      rollbacks := rollbacks + 1;
    }

    /** The aggregation statements followed by their commit. */
    method CreateAggregations()
      requires live
      modifies this
      ensures aggregations == old(aggregations) + 1
      ensures committed == old(committed) + old(pending) && pending == []
      ensures commits == old(commits) + 1 && rollbacks == old(rollbacks) && closed == old(closed)
    {
      aggregations := aggregations + 1;
      committed := committed + pending;
      pending := [];
      commits := commits + 1;
    }

    method Close()
      modifies this
      ensures closed
      ensures pending == old(pending) && committed == old(committed) && commits == old(commits)
      ensures rollbacks == old(rollbacks) && aggregations == old(aggregations)
    {
      closed := true;
    }
  }

  /**
   * The raw-data bucket. `available` is false when the client library or the
   * client is missing (uploads are then skipped and reported as done); an
   * available store that is not `reachable` raises on every request.
   */
  class ObjectStore {
    const available: bool
    const reachable: bool
    var objects: seq<string>

    constructor (available: bool, reachable: bool)
      ensures this.available == available && this.reachable == reachable && objects == []
    {
      this.available := available;
      this.reachable := reachable;
      objects := [];
    }

    /** store_raw_data_minio: true when skipped or uploaded, false when the upload raised. */
    method Put(name: string) returns (ok: bool)
      modifies this
      ensures ok == (!available || reachable)
      ensures objects == if available && reachable then old(objects) + [name] else old(objects)
    {
      if !available {
        return true;
      }
      if reachable {
        objects := objects + [name];
        return true;
      }
      return false;
    }
  }

  /** The count DatabaseClient.insert_transaction_batch reports: 0 for an empty batch or one that raised, its length otherwise. */
  function BatchInserted<T>(accepts: seq<T> -> bool, batch: seq<T>): (n: nat)
    ensures n == 0 || n == |batch|
    ensures n > 0 <==> batch != [] && accepts(batch)
  {
    if batch != [] && accepts(batch) then |batch| else 0
  }

  /**
   * DatabaseClient of src/database.py: one executemany and commit per batch;
   * a batch either goes in whole or is rolled back whole. `accepts` says
   * which batches the database takes.
   */
  class BatchClient<T> {
    const accepts: seq<T> -> bool
    var stored: seq<T>
    var closed: bool

    constructor (accepts: seq<T> -> bool)
      ensures this.accepts == accepts && stored == [] && !closed
    {
      this.accepts := accepts;
      stored := [];
      closed := false;
    }

    method InsertBatch(batch: seq<T>) returns (n: nat)
      modifies this
      ensures n == BatchInserted(accepts, batch)
      ensures stored == old(stored) + (if n > 0 then batch else []) && closed == old(closed)
    {
      if batch == [] {
        return 0;
      }
      if accepts(batch) {
        stored := stored + batch;
        return |batch|;
      }
      return 0;
    }

    method Close()
      modifies this
      ensures closed && stored == old(stored)
    {
      closed := true;
    }
  }
}
