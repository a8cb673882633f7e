// src/advanced_pipeline.py: AdvancedPipeline, which validates each record
// with the five DataValidator checks, sends invalid records to the error
// handler as data errors, retries the processing of valid ones through the
// handler, and splits a batch into processed and failed records. The random
// draws, the clock and the sleeps are parameters.
module AdvancedPipeline {
  import opened Wrappers
  import opened Strings
  import opened Timestamps
  import opened Transactions
  import opened Counters
  import opened Validator
  import opened ErrorHandling

  /**
   * validate_single_transaction: whether every check holds, and the names
   * of those that do not, in dictionary order; None where comparing the
   * amount raises TypeError.
   */
  function ValidateSingle(t: Txn, now: Moment): (r: Option<(bool, seq<Check>)>)
    ensures r.None? <==> ComparableAmount(t).None?
    ensures r.Some? ==> Some(r.value.0) == Validity(t, now) && (r.value.0 <==> r.value.1 == [])
    ensures r.Some? ==> forall c :: c in r.value.1 <==> !Holds(t, ComparableAmount(t).value, now, c)
  {
    ValiditySpec(t, now);
    match FailedChecks(t, now)
    case None => None
    case Some(f) => Some((f == [], f))
  }

  /** What process_single_transaction returns: the processed record, None, or the TypeError it lets out. */
  datatype Processed = Succeeded(record: Txn) | Failed | Aborted

  /** `if result:` on what the retry loop returned: None and an empty dict are false. */
  predicate TruthyRecord(r: Option<Txn>)
  {
    r.Some? && r.value != map[]
  }

  /** The error type process_single_transaction reports for a record, if it reaches the handler. */
  function HandledAs(t: Txn, now: Moment): Option<string>
  {
    if TransactionIdKey !in t then None
    else match ValidateSingle(t, now)
    case None => None
    case Some(v) => Some(if v.0 then "processing_error" else "data_validation_error")
  }

  /**
   * process_single_transaction for a record whose processing operation
   * gives `op`: a record without a transaction_id raises KeyError when
   * its message is built, an invalid record fails, a valid one succeeds
   * when the retried operation returns a truthy result.
   */
  function ProcessOutcome(t: Txn, now: Moment, op: Operation<Txn>): Processed
  {
    if TransactionIdKey !in t then Aborted
    else match ValidateSingle(t, now)
    case None => Aborted
    case Some(v) =>
      if !v.0 then Failed
      else if TruthyRecord(RetryResult(op, MaxRetries)) then Succeeded(RetryResult(op, MaxRetries).value)
      else Failed
  }

  /** A record succeeds exactly when it passes all five checks and one of the three attempts returns a non-empty record. */
  lemma ProcessOutcomeSpec(t: Txn, now: Moment, op: Operation<Txn>)
    ensures ProcessOutcome(t, now, op).Aborted? <==> TransactionIdKey !in t || Validity(t, now).None?
    ensures ProcessOutcome(t, now, op).Succeeded? <==>
      TransactionIdKey in t && Validity(t, now) == Some(true) && Failures(op, MaxRetries) < MaxRetries && op(Failures(op, MaxRetries)).value != map[]
    ensures ProcessOutcome(t, now, op).Succeeded? ==> ProcessOutcome(t, now, op).record == op(Failures(op, MaxRetries)).value
  {
    var k := Failures(op, MaxRetries);
    if k < MaxRetries {
      assert RetryResult(op, MaxRetries) == op(k);
    } else {
      assert RetryResult(op, MaxRetries) == None;
    }
  }

  /** The record counts of generate_comprehensive_report's pipeline summary. */
  datatype PipelineSummary = PipelineSummary(total: nat, successful: nat, failed: nat, successRate: real)

  /** total = successful + failed, and success_rate = successful / total, 0 for an empty run. */
  function SummaryOf(successful: nat, failed: nat): (s: PipelineSummary)
    ensures s.total == s.successful + s.failed && s.successful == successful && s.failed == failed
    ensures 0.0 <= s.successRate <= 1.0
    ensures s.successRate == 0.0 <==> successful == 0
    ensures s.successRate == 1.0 <==> successful > 0 && failed == 0
  {
    var total := successful + failed;
    var rate := if total > 0 then successful as real / total as real else 0.0;
    assert total > 0 ==> (rate == 1.0 <==> successful == total) by {
      if total > 0 {
        assert rate * total as real == successful as real;
      }
    }
    PipelineSummary(total, successful, failed, rate)
  }

  /** A batch run: the processed records, the failed inputs, how many records reached the handler, and whether one raised. */
  datatype BatchRun = BatchRun(successful: seq<Txn>, failed: seq<Txn>, handled: nat, aborted: bool)

  /** process_transactions_batch, record i processed as proc(ts[i], i) says; a raise stops the run. */
  function BatchRunOf(ts: seq<Txn>, proc: (Txn, nat) -> Processed): BatchRun
  {
    if ts == [] then BatchRun([], [], 0, false)
    else
      var r := BatchRunOf(ts[..|ts| - 1], proc);
      var i := |ts| - 1;
      if r.aborted then r
      else match proc(ts[i], i)
        case Succeeded(x) => r.(successful := r.successful + [x], handled := r.handled + 1)
        case Failed => r.(failed := r.failed + [ts[i]], handled := r.handled + 1)
        case Aborted => r.(aborted := true)
  }

  /**
   * A run stops exactly when some record raises; otherwise every record
   * lands in exactly one list and every record reached the handler.
   */
  lemma {:induction false} BatchStops(ts: seq<Txn>, proc: (Txn, nat) -> Processed)
    ensures var r := BatchRunOf(ts, proc);
      && (r.aborted <==> exists i :: 0 <= i < |ts| && proc(ts[i], i).Aborted?)
      && (!r.aborted ==> |r.successful| + |r.failed| == |ts| == r.handled)
  {
    if ts != [] {
      var init := ts[..|ts| - 1];
      var n := |ts| - 1;
      BatchStops(init, proc);
      var r := BatchRunOf(init, proc);
      assert forall i :: 0 <= i < n ==> init[i] == ts[i];
      if r.aborted {
        var i :| 0 <= i < n && proc(init[i], i).Aborted?;
        assert proc(ts[i], i).Aborted?;
      } else {
        assert forall i :: 0 <= i < n ==> !proc(ts[i], i).Aborted?;
      }
    }
  }

  /** Each failed entry is an input that failed, and each processed entry is the result of an input that succeeded. */
  lemma {:induction false} BatchMembers(ts: seq<Txn>, proc: (Txn, nat) -> Processed)
    ensures forall j :: 0 <= j < |BatchRunOf(ts, proc).failed| ==>
      exists i :: 0 <= i < |ts| && ts[i] == BatchRunOf(ts, proc).failed[j] && proc(ts[i], i).Failed?
    ensures forall j :: 0 <= j < |BatchRunOf(ts, proc).successful| ==>
      exists i :: 0 <= i < |ts| && proc(ts[i], i) == Succeeded(BatchRunOf(ts, proc).successful[j])
  {
    if ts != [] {
      var init := ts[..|ts| - 1];
      var n := |ts| - 1;
      BatchMembers(init, proc);
      var r := BatchRunOf(init, proc);
      var r' := BatchRunOf(ts, proc);
      assert forall i :: 0 <= i < n ==> init[i] == ts[i];
      assert |r.failed| <= |r'.failed| && forall j :: 0 <= j < |r.failed| ==> r'.failed[j] == r.failed[j];
      assert |r.successful| <= |r'.successful| && forall j :: 0 <= j < |r.successful| ==> r'.successful[j] == r.successful[j];
      assert forall j :: |r.failed| <= j < |r'.failed| ==> r'.failed[j] == ts[n] && proc(ts[n], n).Failed?;
      assert forall j :: |r.successful| <= j < |r'.successful| ==> proc(ts[n], n) == Succeeded(r'.successful[j]);
      forall j | 0 <= j < |r'.failed|
        ensures exists i :: 0 <= i < |ts| && ts[i] == r'.failed[j] && proc(ts[i], i).Failed?
      {
        if j < |r.failed| {
          var i :| 0 <= i < n && init[i] == r.failed[j] && proc(init[i], i).Failed?;
          assert ts[i] == r'.failed[j];
        } else {
          assert ts[n] == r'.failed[j];
        }
      }
      forall j | 0 <= j < |r'.successful|
        ensures exists i :: 0 <= i < |ts| && proc(ts[i], i) == Succeeded(r'.successful[j])
      {
        if j < |r.successful| {
          var i :| 0 <= i < n && proc(init[i], i) == Succeeded(r.successful[j]);
          assert proc(ts[i], i) == Succeeded(r'.successful[j]);
        } else {
          assert proc(ts[n], n) == Succeeded(r'.successful[j]);
        }
      }
    } else {
      assert BatchRunOf(ts, proc) == BatchRun([], [], 0, false);
    }
  }

  /** The processing of record i: ProcessOutcome with its own operation ops(i). */
  function Processor(now: Moment, ops: nat -> Operation<Txn>): (Txn, nat) -> Processed
  {
    (t: Txn, i: nat) => ProcessOutcome(t, now, ops(i))
  }

  class Pipeline {
    const validator: DataValidator
    const errorHandler: ErrorHandler
    var processedCount: nat

    ghost predicate Valid()
      reads this, errorHandler
    {
      errorHandler.Valid()
    }

    constructor ()
      ensures Valid() && fresh(validator) && fresh(errorHandler)
      ensures processedCount == 0 && validator.validationErrors == [] && errorHandler.errorCount == 0
    {
      validator := new DataValidator();
      errorHandler := new ErrorHandler();
      processedCount := 0;
    }

    /**
     * process_single_transaction: a record whose amount does not compare,
     * or that has no transaction_id, raises before the handler is reached; an invalid one is reported as a
     * data error; a valid one is retried as a processing error, and
     * processed_count grows only for a truthy result.
     */
    method ProcessSingle(t: Txn, now: Moment, op: Operation<Txn>) returns (result: Processed)
      requires Valid()
      modifies this, errorHandler
      ensures Valid()
      ensures result == ProcessOutcome(t, now, op)
      ensures processedCount == old(processedCount) + (if result.Succeeded? then 1 else 0)
      ensures match HandledAs(t, now)
        case None => errorHandler.errorCount == old(errorHandler.errorCount) && errorHandler.errorTypes == old(errorHandler.errorTypes)
        case Some(e) => errorHandler.errorCount == old(errorHandler.errorCount) + 1 && errorHandler.errorTypes == Bump(old(errorHandler.errorTypes), e)
    {
      var v := ValidateSingle(t, now);
      if v.None? || TransactionIdKey !in t {
        return Aborted;
      }
      if !v.value.0 {
        var _ := errorHandler.HandleError<Txn>("data_validation_error", None);
        return Failed;
      }
      assert StrategyOf("processing_error") == RetryTransient;
      var outcome := errorHandler.HandleError("processing_error", Some(op));
      if TruthyRecord(outcome.result) {
        processedCount := processedCount + 1;
        result := Succeeded(outcome.result.value);
      } else {
        result := Failed;
      }
    }

    /** ProcessSingle as one step of the batch loop: record i with its own operation. */
    method ProcessAt(t: Txn, i: nat, now: Moment, ops: nat -> Operation<Txn>) returns (result: Processed)
      requires Valid()
      modifies this, errorHandler
      ensures Valid()
      ensures result == Processor(now, ops)(t, i)
      ensures processedCount == old(processedCount) + (if result.Succeeded? then 1 else 0)
      ensures errorHandler.errorCount == old(errorHandler.errorCount) + (if result.Aborted? then 0 else 1)
    {
      result := ProcessSingle(t, now, ops(i));
    }

    /**
     * process_transactions_batch: each record goes to the processed list
     * (as its processed result) or to the failed list, in input order; a
     * record that raises ends the run.
     */
    method ProcessBatch(ts: seq<Txn>, now: Moment, ops: nat -> Operation<Txn>) returns (successful: seq<Txn>, failed: seq<Txn>, aborted: bool)
      requires Valid()
      modifies this, errorHandler
      ensures Valid()
      ensures var r := BatchRunOf(ts, Processor(now, ops));
        successful == r.successful && failed == r.failed && aborted == r.aborted
        && errorHandler.errorCount == old(errorHandler.errorCount) + r.handled
      ensures processedCount == old(processedCount) + |successful|
    {
      successful, failed, aborted := [], [], false;
      ghost var start := errorHandler.errorCount;
      var i := 0;
      while i < |ts|
        invariant 0 <= i <= |ts| && Valid() && errorHandler.errorCount >= start
        invariant BatchRunOf(ts[..i], Processor(now, ops)) == BatchRun(successful, failed, errorHandler.errorCount - start, false)
        invariant processedCount == old(processedCount) + |successful|
      {
        ghost var handled := errorHandler.errorCount - start;
        var result := ProcessAt(ts[i], i, now, ops);
        if result.Aborted? {
          RunRaises(ts, Processor(now, ops), i, successful, failed, handled);
          return successful, failed, true;
        }
        RunStep(ts, Processor(now, ops), i, successful, failed, handled, result);
        if result.Succeeded? {
          successful := successful + [result.record];
        } else {
          failed := failed + [ts[i]];
        }
        i := i + 1;
      }
      assert ts[..i] == ts;
    }

    /** simulate_database_operation: a database_connection error whose operation is retried. */
    method DatabaseOperation(op: Operation<string>) returns (r: Option<string>)
      requires Valid()
      modifies errorHandler
      ensures Valid()
      ensures r == RetryResult(op, MaxRetries)
      ensures errorHandler.errorCount == old(errorHandler.errorCount) + 1
    {
      assert StrategyOf("database_connection") == RetryTransient;
      var outcome := errorHandler.HandleError("database_connection", Some(op));
      r := outcome.result;
    }

    /** The pipeline summary of generate_comprehensive_report. */
    function Summary(successful: seq<Txn>, failed: seq<Txn>): PipelineSummary
    {
      SummaryOf(|successful|, |failed|)
    }
  }

  /** Record i that does not raise lands in one of the two lists and reaches the handler. */
  lemma RunStep(ts: seq<Txn>, proc: (Txn, nat) -> Processed, i: nat, successful: seq<Txn>, failed: seq<Txn>, handled: nat,
                result: Processed)
    requires i < |ts| && BatchRunOf(ts[..i], proc) == BatchRun(successful, failed, handled, false)
    requires result == proc(ts[i], i) && !result.Aborted?
    ensures BatchRunOf(ts[..i + 1], proc)
      == BatchRun(successful + (if result.Succeeded? then [result.record] else []),
                  failed + (if result.Succeeded? then [] else [ts[i]]), handled + 1, false)
  {
    assert ts[..i + 1][..i] == ts[..i];
  }

  /** Record i that raises ends the run with the lists as they were. */
  lemma RunRaises(ts: seq<Txn>, proc: (Txn, nat) -> Processed, i: nat, successful: seq<Txn>, failed: seq<Txn>, handled: nat)
    requires i < |ts| && BatchRunOf(ts[..i], proc) == BatchRun(successful, failed, handled, false)
    requires proc(ts[i], i).Aborted?
    ensures BatchRunOf(ts, proc) == BatchRun(successful, failed, handled, true)
  {
    assert ts[..i + 1][..i] == ts[..i];
    RaisedStaysBatch(ts, proc, i + 1);
  }

  /** Once a record has raised, the later ones change nothing. */
  lemma {:induction false} RaisedStaysBatch(ts: seq<Txn>, proc: (Txn, nat) -> Processed, i: nat)
    requires 0 < i <= |ts| && BatchRunOf(ts[..i], proc).aborted
    ensures BatchRunOf(ts, proc) == BatchRunOf(ts[..i], proc)
    decreases |ts| - i
  {
    if i < |ts| {
      assert ts[..i + 1][..i] == ts[..i];
      RaisedStaysBatch(ts, proc, i + 1);
    } else {
      assert ts[..i] == ts;
    }
  }

  /** The validator is never given a record here, so its part of the report is the empty one: no checks, success rate 1. */
  lemma UnusedValidator()
    ensures Validator.ReportOf([]).summary == Validator.Summary(0, 0, 0.0, 1.0)
  {
  }

  // ---------------------------------------------------------------------
  // generate_sample_data.

  /** The defect of sample record i: one in five records, its kind chosen by i % 4. */
  datatype Defect = NoDefect | EmptyAccount | NegativeAmount | UnknownCurrency | UnreadableTimestamp

  function DefectOf(i: nat): Defect
  {
    if i % 5 != 0 then NoDefect
    else if i % 4 == 0 then EmptyAccount
    else if i % 4 == 1 then NegativeAmount
    else if i % 4 == 2 then UnknownCurrency
    else UnreadableTimestamp
  }

  /** The defect pattern repeats every 20 records. */
  lemma DefectCycle(i: nat)
    ensures DefectOf(i + 20) == DefectOf(i)
  {
    assert (i + 20) % 4 == i % 4 && (i + 20) % 5 == i % 5;
  }

  /** Records 0, 5, 10, 15 carry the four defects in turn: the k-th multiple of 5 gets kind k % 4. */
  lemma DefectKinds(i: nat)
    ensures DefectOf(i) == NoDefect <==> i % 5 != 0
    ensures i % 5 == 0 ==> DefectOf(i) == [EmptyAccount, NegativeAmount, UnknownCurrency, UnreadableTimestamp][i / 5 % 4]
  {
    if i % 5 == 0 {
      var k := i / 5;
      assert i == 4 * k + k;
      assert i % 4 == k % 4;
    }
  }

  /** What generate_sample_data takes from random and the clock for one record. */
  datatype Draw = Draw(amount: real, currency: string, stamp: string)

  /** `f'TX{i:04d}'` and `f'ACC{i:05d}'`. */
  function TxId(i: nat): string
  {
    "TX" + PadZeros(i, 4)
  }

  function AccountOf(i: nat): string
  {
    "ACC" + PadZeros(i, 5)
  }

  function Record(id: string, account: string, amount: real, currency: string, stamp: string): Txn
  {
    map[TransactionIdKey := Str(id), AccountIdKey := Str(account), AmountKey := Num(amount), CurrencyKey := Str(currency), TimestampKey := Str(stamp)]
  }

  lemma RecordFields(id: string, account: string, amount: real, currency: string, stamp: string)
    ensures var t := Record(id, account, amount, currency, stamp);
      && Lookup(t, AccountIdKey) == Some(Str(account)) && Lookup(t, AmountKey) == Some(Num(amount))
      && Lookup(t, CurrencyKey) == Some(Str(currency)) && Lookup(t, TimestampKey) == Some(Str(stamp))
      && ComparableAmount(t) == Some(amount) && Lookup(t, TransactionIdKey) == Some(Str(id))
  {
  }

  /** The fields of sample record i: a defect replaces one field, and each kind of defect writes its own currency. */
  function SampleAccount(i: nat): string
  {
    if DefectOf(i) == EmptyAccount then "" else AccountOf(i)
  }

  function SampleAmount(i: nat, d: Draw): real
  {
    if DefectOf(i) == NegativeAmount then -d.amount else d.amount
  }

  function SampleCurrency(i: nat, d: Draw): string
  {
    match DefectOf(i)
    case NoDefect => d.currency
    case EmptyAccount => "USD"
    case NegativeAmount => "EUR"
    case UnknownCurrency => "XYZ"
    case UnreadableTimestamp => "GBP"
  }

  function SampleStamp(i: nat, d: Draw): string
  {
    if DefectOf(i) == UnreadableTimestamp then "invalid_date" else d.stamp
  }

  function Sample(i: nat, d: Draw): Txn
  {
    Record(TxId(i), SampleAccount(i), SampleAmount(i, d), SampleCurrency(i, d), SampleStamp(i, d))
  }

  /** generate_sample_data: one record per draw, record i built from draw i. */
  method GenerateSampleData(draws: seq<Draw>) returns (data: seq<Txn>)
    ensures |data| == |draws| && forall i :: 0 <= i < |data| ==> data[i] == Sample(i, draws[i])
  {
    data := [];
    var i := 0;
    while i < |draws|
      invariant 0 <= i <= |draws| && |data| == i
      invariant forall j :: 0 <= j < i ==> data[j] == Sample(j, draws[j])
    {
      data := data + [Sample(i, draws[i])];
      i := i + 1;
    }
  }

  /** The draws generate_sample_data makes: an amount in [10, 1000], a listed currency, a clock time that passes the timestamp check. */
  predicate Plausible(d: Draw, now: Moment)
  {
    10.0 <= d.amount <= 1000.0 && d.currency in Currencies && TimestampValid(Some(Str(d.stamp)), now)
  }

  /** A record fails exactly the checks its fields fail. */
  lemma FieldsListed(t: Txn, now: Moment, account: string, amount: real, currency: string, stamp: string, expected: seq<Check>)
    requires Fields(t, account, amount, currency, stamp) && OtherChecksListed(expected, account, amount, currency)
    requires (ValidTimestamp in expected) == !TimestampValid(Some(Str(stamp)), now)
    ensures FailedChecks(t, now) == Some(expected)
  {
    FieldChecks(t, now, account, amount, currency, stamp);
    ListedByCheck(t, now, amount, expected);
  }

  /** The one check each kind of defect breaks. */
  function Breaks(defect: Defect): seq<Check>
  {
    match defect
    case NoDefect => []
    case EmptyAccount => [AccountNotEmpty]
    case NegativeAmount => [AmountPositive]
    case UnknownCurrency => [ValidCurrency]
    case UnreadableTimestamp => [ValidTimestamp]
  }

  /** With plausible draws, sample record i fails exactly the check its defect breaks, and no other. */
  lemma SampleChecks(i: nat, d: Draw, now: Moment)
    requires Plausible(d, now)
    ensures FailedChecks(Sample(i, d), now) == Some(Breaks(DefectOf(i)))
  {
    var t := Sample(i, d);
    var account, amount, currency, stamp := SampleAccount(i), SampleAmount(i, d), SampleCurrency(i, d), SampleStamp(i, d);
    RecordFields(TxId(i), account, amount, currency, stamp);
    if DefectOf(i) == UnreadableTimestamp {
      assert !TimestampValid(Some(Str(stamp)), now) by {
        NoLeadingDigit(stamp, true);
      }
    }
    FieldsListed(t, now, account, amount, currency, stamp, Breaks(DefectOf(i)));
  }

  /** With plausible draws, sample record i is valid exactly when i is not a multiple of 5. */
  lemma SampleValidity(i: nat, d: Draw, now: Moment)
    requires Plausible(d, now)
    ensures Validity(Sample(i, d), now) == Some(i % 5 != 0)
  {
    SampleChecks(i, d, now);
    DefectKinds(i);
  }

}
