// src/validated_processor_database.py: ValidatedBatchProcessor, which
// validates generated records and saves the valid ones through whatever
// save method a DatabaseClient exposes, probing a fixed list of method
// names, and falls back to the simulated count without a client or after
// an exception. The client is a parameter: the attribute names it exposes,
// whether a batch save raises, and what each per-record save returns.
module ValidatedDatabase {
  import opened Wrappers
  import opened Transactions
  import opened AdvancedValidation
  import opened Validated

  /**
   * A connected client: the attributes `hasattr` finds, whether calling
   * a batch method on the records raises (its result is ignored), and a
   * per-record method's truthiness, None when it raises.
   */
  datatype Client = Client(methods: set<string>, batchRaises: (string, seq<Txn>) -> bool,
                           saveOne: (string, Txn) -> Option<bool>)

  /** The batch save methods, probed in this order. */
  const SaveMethods: seq<string> := ["save_batch_transactions", "insert_transactions", "save_transactions", "process_batch", "batch_insert"]

  /** The per-record save methods, tried in this order. */
  const IndividualMethods: seq<string> := ["save_transaction", "insert_transaction", "add_transaction"]

  /** What `hasattr` finds on the DatabaseClient of src/database.py: its connection and its methods. */
  const ShippedClientMethods: set<string> :=
    {"conn", "_connect_with_retry", "insert_transaction_batch", "get_transaction_count", "test_connection", "close"}

  /**
   * The inner loop for one record: each exposed per-record method in turn
   * until one returns truthy (counted, break), None when a call raises (the
   * record is skipped). Once the list is exhausted the `else` of the loop
   * counts the record. As written it does so whatever happened before;
   * `asWritten` false counts it only when no method was exposed, which is
   * what the source's comment says the branch is for. `tried` records that
   * some method was called.
   */
  function SaveOne(names: seq<string>, c: Client, t: Txn, tried: bool, asWritten: bool): Option<bool>
    decreases |names|
  {
    if names == [] then Some(asWritten || !tried)
    else if names[0] in c.methods then
      match c.saveOne(names[0], t)
      case None => None
      case Some(ok) => if ok then Some(true) else SaveOne(names[1..], c, t, true, asWritten)
    else SaveOne(names[1..], c, t, tried, asWritten)
  }

  /** As written, the loop never leaves a record uncounted unless a call raised: a save returning False still counts. */
  lemma {:induction false} SaveOneAsWritten(names: seq<string>, c: Client, t: Txn, tried: bool)
    ensures SaveOne(names, c, t, tried, true) != Some(false)
    decreases |names|
  {
    if names != [] {
      SaveOneAsWritten(names[1..], c, t, true);
      SaveOneAsWritten(names[1..], c, t, tried);
    }
  }

  /** names[k] is exposed and returns truthy, and every exposed method before it returned falsy. */
  ghost predicate SavedBy(names: seq<string>, c: Client, t: Txn, k: nat)
  {
    k < |names| && names[k] in c.methods && c.saveOne(names[k], t) == Some(true)
    && forall j :: 0 <= j < k && names[j] in c.methods ==> c.saveOne(names[j], t) == Some(false)
  }

  /** No name of the list is exposed. */
  ghost predicate NoneExposed(names: seq<string>, c: Client)
  {
    forall i :: 0 <= i < |names| ==> names[i] !in c.methods
  }

  /** SavedBy one further along the list: the first method, if exposed, returned falsy. */
  lemma SavedByStep(names: seq<string>, c: Client, t: Txn, k: nat)
    requires names != []
    ensures SavedBy(names, c, t, k + 1) <==>
      (names[0] in c.methods ==> c.saveOne(names[0], t) == Some(false)) && SavedBy(names[1..], c, t, k)
  {
    var rest := names[1..];
    assert forall j :: 1 <= j < |names| ==> names[j] == rest[j - 1];
    if SavedBy(rest, c, t, k) && (names[0] in c.methods ==> c.saveOne(names[0], t) == Some(false)) {
      forall j | 0 <= j < k + 1 && names[j] in c.methods
        ensures c.saveOne(names[j], t) == Some(false)
      {
        if j > 0 {
          assert names[j] == rest[j - 1];
        }
      }
    }
  }

  /**
   * With the `else` kept for its stated purpose, a record counts exactly
   * when some exposed method returns truthy, every exposed method before
   * it having returned falsy, or when no method is exposed at all.
   */
  lemma {:induction false} SaveOneIntended(names: seq<string>, c: Client, t: Txn, tried: bool)
    ensures SaveOne(names, c, t, tried, false) == Some(true) <==>
      (exists k: nat :: SavedBy(names, c, t, k)) || (!tried && NoneExposed(names, c))
    decreases |names|
  {
    if names != [] {
      var rest := names[1..];
      var rtried := tried || names[0] in c.methods;
      SaveOneIntended(rest, c, t, rtried);
      assert NoneExposed(names, c) <==> names[0] !in c.methods && NoneExposed(rest, c) by {
        assert forall j :: 1 <= j < |names| ==> names[j] == rest[j - 1];
      }
      if names[0] in c.methods && c.saveOne(names[0], t) == Some(true) {
        assert SavedBy(names, c, t, 0);
      } else if names[0] in c.methods && c.saveOne(names[0], t).None? {
        forall k: nat ensures !SavedBy(names, c, t, k) {
          if k > 0 {
            SavedByStep(names, c, t, k - 1);
          }
        }
      } else {
        if names[0] in c.methods {
          var o := c.saveOne(names[0], t);
          assert o.Some? && !o.value;
          assert o == Some(false);
        }
        assert !SavedBy(names, c, t, 0);
        forall k: nat | SavedBy(rest, c, t, k) ensures SavedBy(names, c, t, k + 1) {
          SavedByStep(names, c, t, k);
        }
        forall k: nat | SavedBy(names, c, t, k) ensures SavedBy(rest, c, t, k - 1) {
          SavedByStep(names, c, t, k - 1);
        }
      }
    } else {
      assert forall k: nat :: !SavedBy(names, c, t, k);
    }
  }

  /** A client that exposes no per-record method counts every record, as written and as intended. */
  lemma {:induction false} SaveOneNoMethods(names: seq<string>, c: Client, t: Txn, asWritten: bool)
    requires forall i :: 0 <= i < |names| ==> names[i] !in c.methods
    ensures SaveOne(names, c, t, false, asWritten) == Some(true)
    decreases |names|
  {
    if names != [] {
      assert forall i :: 0 <= i < |names[1..]| ==> names[1..][i] == names[i + 1];
      SaveOneNoMethods(names[1..], c, t, asWritten);
    }
  }

  /** saved_count over the records, one per record the inner loop counted. */
  function SavedCount(ts: seq<Txn>, c: Client, asWritten: bool): nat
  {
    if ts == [] then 0
    else SavedCount(ts[..|ts| - 1], c, asWritten)
         + if SaveOne(IndividualMethods, c, ts[|ts| - 1], false, asWritten) == Some(true) then 1 else 0
  }

  /**
   * The individual saves count at most every record; they count every
   * record when no per-record method is exposed, and, as written, whenever
   * no call raises.
   */
  lemma {:induction false} SavedCountSpec(ts: seq<Txn>, c: Client, asWritten: bool)
    ensures SavedCount(ts, c, asWritten) <= |ts|
    ensures (forall i :: 0 <= i < |IndividualMethods| ==> IndividualMethods[i] !in c.methods) ==> SavedCount(ts, c, asWritten) == |ts|
    ensures asWritten && (forall i :: 0 <= i < |ts| ==> SaveOne(IndividualMethods, c, ts[i], false, true).Some?) ==> SavedCount(ts, c, asWritten) == |ts|
  {
    if ts != [] {
      var init := ts[..|ts| - 1];
      SavedCountSpec(init, c, asWritten);
      assert forall i :: 0 <= i < |init| ==> init[i] == ts[i];
      if forall i :: 0 <= i < |IndividualMethods| ==> IndividualMethods[i] !in c.methods {
        SaveOneNoMethods(IndividualMethods, c, ts[|ts| - 1], asWritten);
      }
      SaveOneAsWritten(IndividualMethods, c, ts[|ts| - 1], false);
    }
  }

  /** The per-record loop of save_to_database, with its saved_count. */
  method SaveIndividually(c: Client, ts: seq<Txn>, asWritten: bool) returns (saved: nat)
    ensures saved == SavedCount(ts, c, asWritten)
  {
    saved := 0;
    var i := 0;
    while i < |ts|
      invariant 0 <= i <= |ts| && saved == SavedCount(ts[..i], c, asWritten)
    {
      assert ts[..i + 1][..i] == ts[..i];
      if SaveOne(IndividualMethods, c, ts[i], false, asWritten) == Some(true) {
        saved := saved + 1;
      }
      i := i + 1;
    }
    assert ts[..i] == ts;
  }

  /** What save_to_database returns. */
  function SaveResult(client: Option<Client>, ts: seq<Txn>, asWritten: bool): Option<int>
  {
    match client
    case None => Widened(FallbackCount(ts))
    case Some(c) =>
      match FirstPresent(SaveMethods, c.methods)
      case Some(name) => if c.batchRaises(name, ts) then Widened(FallbackCount(ts)) else Some(|ts|)
      case None => Some(SavedCount(ts, c, asWritten))
  }

  /** save_to_database. */
  method SaveToDatabase(client: Option<Client>, ts: seq<Txn>, asWritten: bool) returns (r: Option<int>)
    ensures r == SaveResult(client, ts, asWritten)
  {
    if client.None? {
      return Widened(FallbackCount(ts));
    }
    var c := client.value;
    match FirstPresent(SaveMethods, c.methods) {
      case Some(name) =>
        if c.batchRaises(name, ts) {
          return Widened(FallbackCount(ts));
        }
        return Some(|ts|);
      case None =>
        var saved := SaveIndividually(c, ts, asWritten);
        return Some(saved);
    }
  }

  /**
   * A client's first exposed batch method, in the order of SaveMethods, is
   * called once and all records are taken as saved, unless it raises and
   * the fallback counts instead.
   */
  lemma SaveResultBatch(c: Client, ts: seq<Txn>, asWritten: bool, k: nat)
    requires k < |SaveMethods| && SaveMethods[k] in c.methods
    requires forall j :: 0 <= j < k ==> SaveMethods[j] !in c.methods
    ensures SaveResult(Some(c), ts, asWritten)
            == if c.batchRaises(SaveMethods[k], ts) then Widened(FallbackCount(ts)) else Some(|ts|)
  {
    var found := FirstPresent(SaveMethods, c.methods);
    var m :| 0 <= m < |SaveMethods| && SaveMethods[m] == found.value && SaveMethods[m] in c.methods
             && forall j :: 0 <= j < m ==> SaveMethods[j] !in c.methods;
    assert m == k;
  }

  /** The shipped DatabaseClient exposes none of the save methods, so every record is counted through the `else` of the per-record loop. */
  lemma ShippedClientCountsAll(c: Client, ts: seq<Txn>, asWritten: bool)
    requires c.methods == ShippedClientMethods
    ensures SaveResult(Some(c), ts, asWritten) == Some(|ts|)
  {
    ShippedHasNone();
    SavedCountSpec(ts, c, asWritten);
  }

  /** No count exceeds the number of records handed in. */
  lemma SaveResultBound(client: Option<Client>, ts: seq<Txn>, asWritten: bool)
    ensures SaveResult(client, ts, asWritten).Some? ==> 0 <= SaveResult(client, ts, asWritten).value <= |ts|
  {
    FallbackSpec(ts);
    if client.Some? {
      SavedCountSpec(ts, client.value, asWritten);
    }
  }

  /** None of the batch or per-record save methods is among the shipped client's attributes. */
  lemma ShippedHasNone()
    ensures forall i :: 0 <= i < |SaveMethods| ==> SaveMethods[i] !in ShippedClientMethods
    ensures forall i :: 0 <= i < |IndividualMethods| ==> IndividualMethods[i] !in ShippedClientMethods
  {
  }

  /**
   * A client that exposes only save_transaction, which returns False for
   * every record: as written every record is counted as saved, as intended
   * none is.
   */
  lemma FalseSavesCounted(c: Client, ts: seq<Txn>)
    requires c.methods == {"save_transaction"}
    requires forall t :: c.saveOne("save_transaction", t) == Some(false)
    ensures SaveResult(Some(c), ts, true) == Some(|ts|)
    ensures SaveResult(Some(c), ts, false) == Some(0)
  {
    assert FirstPresent(SaveMethods, c.methods).None?;
    SavedCountSpec(ts, c, true);
    forall i | 0 <= i < |ts|
      ensures SaveOne(IndividualMethods, c, ts[i], false, true).Some?
    {
      SaveOneAsWritten(IndividualMethods, c, ts[i], false);
      assert SaveOne(IndividualMethods, c, ts[i], false, true) == Some(true);
    }
    NothingSavedIntended(c, ts);
  }

  /** The corrected count for the client of FalseSavesCounted: no record counts. */
  lemma {:induction false} NothingSavedIntended(c: Client, ts: seq<Txn>)
    requires c.methods == {"save_transaction"}
    requires forall t :: c.saveOne("save_transaction", t) == Some(false)
    ensures SavedCount(ts, c, false) == 0
  {
    if ts != [] {
      NothingSavedIntended(c, ts[..|ts| - 1]);
      SaveOneIntended(IndividualMethods, c, ts[|ts| - 1], false);
      assert IndividualMethods[0] in c.methods;
    }
  }

  /**
   * run_production_pipeline over the generated records. There is no check
   * for an empty list, so validate_transactions' log line raises
   * ZeroDivisionError for it; otherwise only the valid records are saved.
   */
  method RunProductionPipeline(client: Option<Client>, generated: seq<Txn>, asWritten: bool) returns (r: Option<PipelineResult>)
    ensures generated == [] ==> r.None?
    ensures generated != [] ==> r == Summary(generated, SaveResult(client, Kept(generated, Validate()), asWritten))
  {
    var checked := ValidateTransactions(generated);
    if checked.None? {
      return None;
    }
    var valid := checked.value.0;
    var report := checked.value.1;
    if valid != [] {
      var processed := SaveToDatabase(client, valid, asWritten);
      SummaryOf(generated, valid, report, processed);
      match processed {
        case None =>
          r := None;
        case Some(n) =>
          r := Some(Done(true, n, |generated|, |valid|, |generated| - |valid|, report));
      }
    } else {
      SummaryOf(generated, valid, report, SaveResult(client, valid, asWritten));
      r := Some(Done(false, 0, |generated|, 0, |generated|, report));
    }
  }

  /**
   * What a production run reports: success exactly when some record
   * validated, rejected = original - valid, and a processed count that is
   * never more than the valid records.
   */
  lemma ProductionSummarySpec(ts: seq<Txn>, client: Option<Client>, asWritten: bool)
    ensures var r := Summary(ts, SaveResult(client, Kept(ts, Validate()), asWritten));
      r.Some? ==> (r.value.Done?
        && (r.value.success <==> r.value.validCount > 0)
        && r.value.rejectedCount == r.value.originalCount - r.value.validCount
        && r.value.originalCount == |ts|
        && 0 <= r.value.processedCount <= r.value.validCount)
  {
    SaveResultBound(client, Kept(ts, Validate()), asWritten);
    BoundedSummary(ts, SaveResult(client, Kept(ts, Validate()), asWritten));
  }
}
