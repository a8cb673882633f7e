// src/debug_pipeline.py: DebugPipeline, which runs the five DataValidator
// checks on each record, skips the invalid ones, and keeps a valid record
// when its retried processing returns a non-empty message. pandas is bound
// only when the file runs as a script; imported, the timestamp check always
// fails. Printing, the clock and the random draws are left out or passed in.
module DebugPipeline {
  import opened Wrappers
  import opened Strings
  import opened Counters
  import opened Timestamps
  import opened Transactions
  import opened Validator
  import opened ErrorHandling
  import opened AdvancedPipeline

  /** Whether the module runs as `__main__` (pd bound) or was imported (pd unbound). */
  datatype Context = AsScript | Imported

  /** _is_valid_timestamp: imported, the name pd is unbound and the bare except turns the NameError into False. */
  predicate DebugTimestampValid(v: Option<Value>, now: Moment, ctx: Context)
  {
    ctx == AsScript && TimestampValid(v, now)
  }

  /**
   * debug_validation: the conjunction of the five checks; None where it
   * raises, because the amount does not compare (TypeError) or the record
   * has no transaction_id to print (KeyError).
   */
  function DebugValidation(t: Txn, now: Moment, ctx: Context): (r: Option<bool>)
  {
    match ComparableAmount(t)
    case None => None
    case Some(a) =>
      if TransactionIdKey !in t then None
      else Some(Holds(t, a, now, AmountPositive) && DebugTimestampValid(Lookup(t, TimestampKey), now, ctx)
                && Holds(t, a, now, AccountNotEmpty) && Holds(t, a, now, ReasonableAmount) && Holds(t, a, now, ValidCurrency))
  }

  /** Run as a script, debug_validation agrees with DataValidator.validate_transaction; imported, it refuses every record it does not raise on. */
  lemma DebugValidationSpec(t: Txn, now: Moment)
    ensures TransactionIdKey in t ==> DebugValidation(t, now, AsScript) == Validity(t, now)
    ensures TransactionIdKey in t ==> DebugValidation(t, now, Imported) == (if ComparableAmount(t).None? then None else Some(false))
    ensures DebugValidation(t, now, AsScript).None? <==> DebugValidation(t, now, Imported).None?
    ensures DebugValidation(t, now, AsScript).None? <==> TransactionIdKey !in t || ComparableAmount(t).None?
  {
    ValiditySpec(t, now);
    if ComparableAmount(t).Some? && TransactionIdKey in t {
      var a := ComparableAmount(t).value;
      assert DebugTimestampValid(Lookup(t, TimestampKey), now, AsScript) == Holds(t, a, now, ValidTimestamp);
      assert (forall c :: Holds(t, a, now, c)) <==>
        Holds(t, a, now, AmountPositive) && Holds(t, a, now, ValidTimestamp) && Holds(t, a, now, AccountNotEmpty)
        && Holds(t, a, now, ReasonableAmount) && Holds(t, a, now, ValidCurrency);
    }
  }

  /** `if result:` on the retried operation's message. */
  predicate TruthyText(r: Option<string>)
  {
    r.Some? && r.value != ""
  }

  /**
   * One record of process_transactions_debug: an invalid record is
   * skipped, a valid one is kept (itself, not the message) when the
   * retried operation returns a non-empty message.
   */
  function DebugOutcome(t: Txn, now: Moment, ctx: Context, op: Operation<string>): Processed
  {
    match DebugValidation(t, now, ctx)
    case None => Aborted
    case Some(ok) =>
      if !ok then Failed
      else if TruthyText(RetryResult(op, MaxRetries)) then Succeeded(t)
      else Failed
  }

  function DebugProcessor(now: Moment, ctx: Context, ops: nat -> Operation<string>): (Txn, nat) -> Processed
  {
    (t: Txn, i: nat) => DebugOutcome(t, now, ctx, ops(i))
  }

  /** The error handler's counters: error_count, error_types, retry_attempts, and the waits slept so far. */
  datatype HandlerState = HandlerState(errorCount: nat, errorTypes: Counter<string>, retryAttempts: Counter<string>, waits: seq<nat>)

  function Snapshot(h: ErrorHandler): HandlerState
    reads h
  {
    HandlerState(h.errorCount, h.errorTypes, h.retryAttempts, h.waits)
  }

  /**
   * handle_error('processing_error', ..., process_operation): the error is
   * counted under its type, then the operation is retried, each failed call
   * bumping retry_attempts['processing_error'] and each call preceded by its
   * wait.
   */
  function ProcessingErrorHandled(s: HandlerState, op: Operation<string>): HandlerState
  {
    HandlerState(s.errorCount + 1, Bump(s.errorTypes, "processing_error"),
                 BumpMany(s.retryAttempts, "processing_error", Failures(op, MaxRetries)),
                 s.waits + Backoff(Attempts(op, MaxRetries)))
  }

  /**
   * What record i does to the handler: only a record that validated reaches
   * it. The `except` branch that reports an 'unexpected_error' is never
   * taken, because nothing in the `try` raises once the record validated.
   */
  function DebugHandlerStep(t: Txn, i: nat, now: Moment, ctx: Context, ops: nat -> Operation<string>, s: HandlerState): HandlerState
  {
    if DebugValidation(t, now, ctx) == Some(true) then ProcessingErrorHandled(s, ops(i)) else s
  }

  /** The handler after process_transactions_debug has run over ts from the state s; a raising record ends the run. */
  function DebugHandlerRun(ts: seq<Txn>, now: Moment, ctx: Context, ops: nat -> Operation<string>, s: HandlerState): HandlerState
  {
    if ts == [] then s
    else
      var init := ts[..|ts| - 1];
      var h := DebugHandlerRun(init, now, ctx, ops, s);
      if BatchRunOf(init, DebugProcessor(now, ctx, ops)).aborted then h
      else DebugHandlerStep(ts[|ts| - 1], |ts| - 1, now, ctx, ops, h)
  }

  /**
   * Over a run, the handler records one processing_error per record that
   * reached it: at least one per kept record and at most one per record the
   * run handled. Imported, no record validates, so the handler is untouched.
   */
  lemma {:induction false} DebugHandlerCounts(ts: seq<Txn>, now: Moment, ctx: Context, ops: nat -> Operation<string>, s: HandlerState)
    ensures var h := DebugHandlerRun(ts, now, ctx, ops, s);
      var r := BatchRunOf(ts, DebugProcessor(now, ctx, ops));
      && s.errorCount + |r.successful| <= h.errorCount <= s.errorCount + r.handled
      && Get(h.errorTypes, "processing_error") + s.errorCount == Get(s.errorTypes, "processing_error") + h.errorCount
      && (ctx == Imported ==> h == s)
  {
    if ts != [] {
      var init := ts[..|ts| - 1];
      var n := |ts| - 1;
      DebugHandlerCounts(init, now, ctx, ops, s);
      var h0 := DebugHandlerRun(init, now, ctx, ops, s);
      var r0 := BatchRunOf(init, DebugProcessor(now, ctx, ops));
      if !r0.aborted {
        var o := DebugProcessor(now, ctx, ops)(ts[n], n);
        var h := DebugHandlerStep(ts[n], n, now, ctx, ops, h0);
        var r := BatchRunOf(ts, DebugProcessor(now, ctx, ops));
        assert DebugHandlerRun(ts, now, ctx, ops, s) == h;
        assert r.handled == r0.handled + (if o.Aborted? then 0 else 1);
        assert |r.successful| == |r0.successful| + (if o.Succeeded? then 1 else 0);
        StepFacts(ts[n], n, now, ctx, ops, h0);
        if h != h0 {
          HandledCounts(h0, ops(n));
        }
      }
    }
  }

  /** Over a run no error type but processing_error and no other retry counter moves, and the earlier waits are kept. */
  lemma {:induction false} DebugHandlerKeepsOthers(ts: seq<Txn>, now: Moment, ctx: Context, ops: nat -> Operation<string>, s: HandlerState)
    ensures var h := DebugHandlerRun(ts, now, ctx, ops, s);
      && (forall e :: e != "processing_error" ==> Get(h.errorTypes, e) == Get(s.errorTypes, e))
      && (forall e :: e != "processing_error" ==> Get(h.retryAttempts, e) == Get(s.retryAttempts, e))
      && |s.waits| <= |h.waits| && h.waits[..|s.waits|] == s.waits
  {
    if ts != [] {
      var init := ts[..|ts| - 1];
      var n := |ts| - 1;
      DebugHandlerKeepsOthers(init, now, ctx, ops, s);
      var h0 := DebugHandlerRun(init, now, ctx, ops, s);
      var r0 := BatchRunOf(init, DebugProcessor(now, ctx, ops));
      if !r0.aborted {
        var h := DebugHandlerStep(ts[n], n, now, ctx, ops, h0);
        assert DebugHandlerRun(ts, now, ctx, ops, s) == h;
        StepFacts(ts[n], n, now, ctx, ops, h0);
        if h != h0 {
          HandledCounts(h0, ops(n));
          assert h.waits[..|s.waits|] == h0.waits[..|s.waits|];
        }
      }
    }
  }

  /** A record either leaves the handler alone and is not kept, or adds one processing_error and does not raise; imported, it leaves it alone. */
  lemma StepFacts(t: Txn, i: nat, now: Moment, ctx: Context, ops: nat -> Operation<string>, h0: HandlerState)
    ensures var o := DebugProcessor(now, ctx, ops)(t, i);
      var h := DebugHandlerStep(t, i, now, ctx, ops, h0);
      && (h == h0 ==> !o.Succeeded?)
      && (h != h0 ==> h == ProcessingErrorHandled(h0, ops(i)) && !o.Aborted?)
      && (ctx == Imported ==> h == h0)
  {
    assert DebugProcessor(now, ctx, ops)(t, i) == DebugOutcome(t, now, ctx, ops(i));
    if DebugValidation(t, now, ctx) == Some(true) {
      assert ProcessingErrorHandled(h0, ops(i)).errorCount != h0.errorCount;
    }
  }

  /** One processing_error: one more error of that type, its failed calls as retries, the earlier waits kept. */
  lemma HandledCounts(h0: HandlerState, op: Operation<string>)
    ensures var h := ProcessingErrorHandled(h0, op);
      && h.errorCount == h0.errorCount + 1
      && Get(h.errorTypes, "processing_error") == Get(h0.errorTypes, "processing_error") + 1
      && (forall e :: e != "processing_error" ==> Get(h.errorTypes, e) == Get(h0.errorTypes, e))
      && (forall e :: e != "processing_error" ==> Get(h.retryAttempts, e) == Get(h0.retryAttempts, e))
      && h.waits[..|h0.waits|] == h0.waits
  {
    BumpSpec(h0.errorTypes, "processing_error");
    BumpManySpec(h0.retryAttempts, "processing_error", Failures(op, MaxRetries));
  }

  /** A kept record is the input record itself, and it passed every check. */
  lemma DebugOutcomeSpec(t: Txn, now: Moment, ctx: Context, op: Operation<string>)
    ensures DebugOutcome(t, now, ctx, op).Succeeded? ==> DebugOutcome(t, now, ctx, op).record == t && DebugValidation(t, now, ctx) == Some(true)
    ensures DebugOutcome(t, now, ctx, op).Aborted? <==> DebugValidation(t, now, ctx).None?
    ensures ctx == Imported ==> !DebugOutcome(t, now, ctx, op).Succeeded?
  {
  }

  /** Imported, process_transactions_debug keeps nothing. */
  lemma ImportedKeepsNothing(ts: seq<Txn>, now: Moment, ops: nat -> Operation<string>)
    ensures BatchRunOf(ts, DebugProcessor(now, Imported, ops)).successful == []
  {
    var r := BatchRunOf(ts, DebugProcessor(now, Imported, ops));
    BatchMembers(ts, DebugProcessor(now, Imported, ops));
    if r.successful != [] {
      var i :| 0 <= i < |ts| && DebugProcessor(now, Imported, ops)(ts[i], i) == Succeeded(r.successful[0]);
      DebugOutcomeSpec(ts[i], now, Imported, ops(i));
      assert false;
    }
  }

  /** Once a record has raised, the later records leave the handler alone. */
  lemma {:induction false} HandlerRaisedStays(ts: seq<Txn>, now: Moment, ctx: Context, ops: nat -> Operation<string>, s: HandlerState, i: nat)
    requires 0 < i <= |ts| && BatchRunOf(ts[..i], DebugProcessor(now, ctx, ops)).aborted
    ensures DebugHandlerRun(ts, now, ctx, ops, s) == DebugHandlerRun(ts[..i], now, ctx, ops, s)
    decreases |ts| - i
  {
    if i < |ts| {
      assert ts[..i + 1][..i] == ts[..i];
      RaisedStaysBatch(ts[..i + 1], DebugProcessor(now, ctx, ops), i);
      assert ts[..i + 1][..i + 1] == ts[..i + 1];
      HandlerRaisedStays(ts, now, ctx, ops, s, i + 1);
    } else {
      assert ts[..i] == ts;
    }
  }

  class Pipeline {
    const validator: DataValidator
    const errorHandler: ErrorHandler
    var processedCount: nat

    ghost predicate Valid()
      reads errorHandler
    {
      errorHandler.Valid()
    }

    constructor ()
      ensures Valid() && fresh(validator) && fresh(errorHandler)
      ensures processedCount == 0 && validator.validationErrors == [] && errorHandler.errorCount == 0
    {
      validator := new DataValidator();
      errorHandler := new ErrorHandler();
      processedCount := 0;
    }

    /** The body of process_transactions_debug's loop for record i. */
    method ProcessOne(t: Txn, i: nat, now: Moment, ctx: Context, ops: nat -> Operation<string>) returns (result: Processed)
      requires Valid()
      modifies this, errorHandler
      ensures Valid()
      ensures result == DebugProcessor(now, ctx, ops)(t, i)
      ensures processedCount == old(processedCount) + (if result.Succeeded? then 1 else 0)
      ensures Snapshot(errorHandler) == DebugHandlerStep(t, i, now, ctx, ops, old(Snapshot(errorHandler)))
    {
      ghost var before := Snapshot(errorHandler);
      var v := DebugValidation(t, now, ctx);
      assert DebugHandlerStep(t, i, now, ctx, ops, before) == if v == Some(true) then ProcessingErrorHandled(before, ops(i)) else before;
      if v == Some(true) {
        var message := RetryProcessing(ops(i));
        if TruthyText(message) {
          processedCount := processedCount + 1;
          result := Succeeded(t);
        } else {
          result := Failed;
        }
      } else {
        result := if v.None? then Aborted else Failed;
      }
      assert DebugProcessor(now, ctx, ops)(t, i) == DebugOutcome(t, now, ctx, ops(i));
    }

    /** A processing_error handed to the error handler: its operation is retried. */
    method RetryProcessing(op: Operation<string>) returns (message: Option<string>)
      requires Valid()
      modifies errorHandler
      ensures Valid()
      ensures message == RetryResult(op, MaxRetries)
      ensures Snapshot(errorHandler) == ProcessingErrorHandled(old(Snapshot(errorHandler)), op)
    {
      assert StrategyOf("processing_error") == RetryTransient;
      var outcome := errorHandler.HandleError("processing_error", Some(op));
      message := outcome.result;
    }

    /**
     * process_transactions_debug: the records that validated and whose
     * processing returned a truthy message, in input order; a record that
     * raises ends the run.
     */
    method ProcessDebug(ts: seq<Txn>, now: Moment, ctx: Context, ops: nat -> Operation<string>) returns (valid: seq<Txn>, aborted: bool)
      requires Valid()
      modifies this, errorHandler
      ensures Valid()
      ensures valid == BatchRunOf(ts, DebugProcessor(now, ctx, ops)).successful
      ensures aborted == BatchRunOf(ts, DebugProcessor(now, ctx, ops)).aborted
      ensures processedCount == old(processedCount) + |valid|
      ensures Snapshot(errorHandler) == DebugHandlerRun(ts, now, ctx, ops, old(Snapshot(errorHandler)))
    {
      valid, aborted := [], false;
      ghost var start := Snapshot(errorHandler);
      ghost var skipped: seq<Txn> := [];
      ghost var handled: nat := 0;
      var i := 0;
      while i < |ts|
        invariant 0 <= i <= |ts| && Valid()
        invariant BatchRunOf(ts[..i], DebugProcessor(now, ctx, ops)) == BatchRun(valid, skipped, handled, false)
        invariant processedCount == old(processedCount) + |valid|
        invariant Snapshot(errorHandler) == DebugHandlerRun(ts[..i], now, ctx, ops, start)
      {
        var result := ProcessOne(ts[i], i, now, ctx, ops);
        assert ts[..i + 1][..i] == ts[..i];
        if result.Aborted? {
          RunRaises(ts, DebugProcessor(now, ctx, ops), i, valid, skipped, handled);
          HandlerRaisedStays(ts, now, ctx, ops, start, i + 1);
          return valid, true;
        }
        RunStep(ts, DebugProcessor(now, ctx, ops), i, valid, skipped, handled, result);
        if result.Succeeded? {
          valid := valid + [result.record];
        } else {
          skipped := skipped + [ts[i]];
        }
        handled := handled + 1;
        i := i + 1;
      }
      assert ts[..i] == ts;
    }
  }

  // ---------------------------------------------------------------------
  // generate_sample_data.

  /** What generate_sample_data takes from random and the clock for one record. */
  datatype DebugDraw = DebugDraw(amount: real, currency: string, validCurrency: string, stamp: string)

  /**
   * Sample record i. In the branch for i % 4 == 0 the account test
   * `i % 2 == 0` and the timestamp test `i % 4 == 0` always hold, so those
   * records always get an empty account and 'invalid_date'; the amount is
   * negative when i % 3 == 0 and otherwise drawn from [10, 2000000].
   */
  function DebugSample(i: nat, d: DebugDraw): Txn
  {
    if i % 4 == 0 then
      Record(TxId(i), if i % 2 == 0 then "" else AccountOf(i), if i % 3 == 0 then -d.amount else d.amount,
             d.currency, if i % 4 == 0 then "invalid_date" else d.stamp)
    else Record(TxId(i), AccountOf(i), d.amount, d.validCurrency, d.stamp)
  }

  lemma EvenOfFour(i: nat)
    requires i % 4 == 0
    ensures i % 2 == 0
  {
    var q := i / 4;
    assert i == 4 * q;
    assert i == 2 * (2 * q) && (2 * (2 * q)) % 2 == 0;
  }

  /** The inner conditions repeat the branch's: every record of that branch has an empty account and the text 'invalid_date'. */
  lemma FlaggedSample(i: nat, d: DebugDraw)
    requires i % 4 == 0
    ensures Lookup(DebugSample(i, d), AccountIdKey) == Some(Str(""))
    ensures Lookup(DebugSample(i, d), TimestampKey) == Some(Str("invalid_date"))
  {
    EvenOfFour(i);
    RecordFields(TxId(i), "", if i % 3 == 0 then -d.amount else d.amount, d.currency, "invalid_date");
  }

  /** generate_sample_data: one record per draw. */
  method GenerateSampleData(draws: seq<DebugDraw>) returns (data: seq<Txn>)
    ensures |data| == |draws| && forall i :: 0 <= i < |data| ==> data[i] == DebugSample(i, draws[i])
  {
    data := [];
    var i := 0;
    while i < |draws|
      invariant 0 <= i <= |draws| && |data| == i
      invariant forall j :: 0 <= j < i ==> data[j] == DebugSample(j, draws[j])
    {
      data := data + [DebugSample(i, draws[i])];
      i := i + 1;
    }
  }

  /** The draws of the valid branch: an amount in [10, 1000], a listed currency, a clock time that passes the timestamp check. */
  predicate PlausibleDraw(d: DebugDraw, now: Moment)
  {
    10.0 <= d.amount <= 1000.0 && d.validCurrency in Currencies && TimestampValid(Some(Str(d.stamp)), now)
  }

  /** A record of the i % 4 == 0 branch is refused for its empty account, wherever it runs. */
  lemma FlaggedRefused(i: nat, d: DebugDraw, now: Moment, ctx: Context)
    requires i % 4 == 0
    ensures DebugValidation(DebugSample(i, d), now, ctx) == Some(false)
  {
    var amount := if i % 3 == 0 then -d.amount else d.amount;
    var t := DebugSample(i, d);
    EvenOfFour(i);
    RecordFields(TxId(i), "", amount, d.currency, "invalid_date");
    assert !Holds(t, amount, now, AccountNotEmpty);
  }

  /** Run as a script, a record of the other branch with plausible draws passes all five checks. */
  lemma OrdinaryAccepted(i: nat, d: DebugDraw, now: Moment)
    requires PlausibleDraw(d, now) && i % 4 != 0
    ensures DebugValidation(DebugSample(i, d), now, AsScript) == Some(true)
  {
    var t := DebugSample(i, d);
    RecordFields(TxId(i), AccountOf(i), d.amount, d.validCurrency, d.stamp);
    FieldsListed(t, now, AccountOf(i), d.amount, d.validCurrency, d.stamp, []);
    DebugValidationSpec(t, now);
  }

  /** Run as a script with plausible draws, record i validates exactly when i % 4 != 0. */
  lemma DebugSampleValidity(i: nat, d: DebugDraw, now: Moment)
    requires PlausibleDraw(d, now)
    ensures DebugValidation(DebugSample(i, d), now, AsScript) == Some(i % 4 != 0)
  {
    if i % 4 == 0 {
      FlaggedRefused(i, d, now, AsScript);
    } else {
      OrdinaryAccepted(i, d, now);
    }
  }
}
