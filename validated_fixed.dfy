// src/validated_processor_fixed.py: ValidatedBatchProcessor, which validates
// the records first and hands only the valid ones to an existing processor
// found by reflection, or to the simulated fallback count. The reflective
// discovery is outside the model: the processor it found is a parameter.
module ValidatedFixed {
  import opened Wrappers
  import opened Transactions
  import opened AdvancedValidation
  import opened Validated

  /**
   * What an existing processor returns, as process_transactions looks at
   * it: an int, an object with `get` (whose 'processed_count' entry may be
   * missing), or anything else.
   */
  datatype ProcessorResult = IntResult(n: int) | Mapping(processedCount: Option<int>) | NoGet

  /**
   * What `_import_existing_processor` left behind: nothing, a callable, or
   * an instance exposing a set of attribute names. A call returns None
   * when it raises.
   */
  datatype Existing =
    | NoProcessor
    | Function(call: seq<Txn> -> Option<ProcessorResult>)
    | Instance(methods: set<string>, invoke: (string, seq<Txn>) -> Option<ProcessorResult>)

  /** The processing methods an instance is probed for, in order. */
  const ProcessMethods: seq<string> := ["process_batch", "process", "run"]

  /** "Ensure result is a count": an int as it is, a mapping's processed_count, otherwise the number of records handed in. */
  function Coerce(result: ProcessorResult, handed: nat): int
  {
    match result
    case IntResult(n) => n
    case Mapping(count) => count.GetOr(handed)
    case NoGet => handed
  }

  /** A call's outcome, coerced; an exception passes through. */
  function CoerceCall(call: Option<ProcessorResult>, handed: nat): Option<int>
  {
    match call
    case None => None
    case Some(result) => Some(Coerce(result, handed))
  }

  /** process_transactions. */
  function ProcessTransactions(existing: Existing, useExisting: bool, ts: seq<Txn>): Option<int>
  {
    if useExisting && !existing.NoProcessor? then
      match existing
      case Function(call) => CoerceCall(call(ts), |ts|)
      case Instance(methods, invoke) =>
        match FirstPresent(ProcessMethods, methods)
        case Some(name) => CoerceCall(invoke(name, ts), |ts|)
        case None => Widened(FallbackCount(ts))
    else Widened(FallbackCount(ts))
  }

  /**
   * Without an existing processor, or when told not to use it, the count
   * is the fallback's: the number of records with a positive amount. A
   * callable is called once; an instance has the first of process_batch,
   * process and run that it exposes called, and none of them means the
   * fallback. Whatever came back becomes a count: an int is kept, a
   * mapping gives its processed_count or the number of records, anything
   * else the number of records.
   */
  lemma ProcessTransactionsSpec(existing: Existing, useExisting: bool, ts: seq<Txn>)
    ensures var r := ProcessTransactions(existing, useExisting, ts);
      && ((!useExisting || existing.NoProcessor?) ==>
            (r.None? <==> exists i :: 0 <= i < |ts| && ComparableAmount(ts[i]).None?)
            && (r.Some? ==> r.value == CountPositive(ts)))
      && (useExisting && existing.Function? ==> r == CoerceCall(existing.call(ts), |ts|))
      && (useExisting && existing.Instance? && (forall i :: 0 <= i < |ProcessMethods| ==> ProcessMethods[i] !in existing.methods) ==>
            r == Widened(FallbackCount(ts)))
      && (useExisting && existing.Instance? && (exists i :: 0 <= i < |ProcessMethods| && ProcessMethods[i] in existing.methods) ==>
            exists k :: 0 <= k < |ProcessMethods| && ProcessMethods[k] in existing.methods
                        && (forall j :: 0 <= j < k ==> ProcessMethods[j] !in existing.methods)
                        && r == CoerceCall(existing.invoke(ProcessMethods[k], ts), |ts|))
  {
    FallbackSpec(ts);
    if existing.Instance? {
      var found := FirstPresent(ProcessMethods, existing.methods);
      if found.Some? {
        var k :| 0 <= k < |ProcessMethods| && ProcessMethods[k] == found.value && ProcessMethods[k] in existing.methods
                 && forall j :: 0 <= j < k ==> ProcessMethods[j] !in existing.methods;
      }
    }
  }

  /**
   * run_validated_pipeline: no records give the "No transactions" result;
   * otherwise only the valid records are processed, and the result counts
   * them against the original ones.
   */
  method RunValidatedPipeline(existing: Existing, generateData: bool, generated: seq<Txn>, inputData: Option<seq<Txn>>)
    returns (r: Option<PipelineResult>)
    ensures var ts := InputRecords(generateData, generated, inputData);
      && (r == Some(NoTransactions) <==> ts == [])
      && (ts != [] ==> r == Summary(ts, ProcessTransactions(existing, true, Kept(ts, Validate()))))
      && (r.Some? && r.value.Done? ==>
            (r.value.success <==> r.value.validCount > 0)
            && r.value.rejectedCount == r.value.originalCount - r.value.validCount
            && r.value.originalCount == |ts|)
  {
    var ts := InputRecords(generateData, generated, inputData);
    if ts == [] {
      return Some(NoTransactions);
    }
    var checked := ValidateTransactions(ts);
    var valid := checked.value.0;
    var report := checked.value.1;
    if valid != [] {
      var processed := ProcessTransactions(existing, true, valid);
      SummaryOf(ts, valid, report, processed);
      SummarySpec(ts, processed);
      match processed {
        case None =>
          r := None;
        case Some(n) =>
          r := Some(Done(true, n, |ts|, |valid|, |ts| - |valid|, report));
      }
    } else {
      ghost var unused := ProcessTransactions(existing, true, valid);
      SummaryOf(ts, valid, report, unused);
      SummarySpec(ts, unused);
      r := Some(Done(false, 0, |ts|, 0, |ts|, report));
    }
  }
}
