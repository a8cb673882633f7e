// What the three ValidatedBatchProcessor variants of
// src/validated_processor_fixed.py, src/validated_processor_final.py and
// src/validated_processor_database.py share: the simulated fallback count,
// validate_transactions over AdvancedDataValidator, the probing of a fixed
// list of attribute names, and the result dictionary of a pipeline run.
// An exception that escapes a step is None throughout.
module Validated {
  import opened Wrappers
  import opened Transactions
  import opened AdvancedValidation

  /**
   * `_fallback_process` over the records in order: each record with
   * `t.get('amount', 0) > 0` is counted, and the first amount that is
   * text or None makes the comparison with 0 raise TypeError.
   */
  function FallbackCount(ts: seq<Txn>): Option<nat>
  {
    if ts == [] then Some(0)
    else match FallbackCount(ts[..|ts| - 1])
      case None => None
      case Some(n) =>
        match ComparableAmount(ts[|ts| - 1])
        case None => None
        case Some(x) => Some(n + if x > 0.0 then 1 else 0)
  }

  /**
   * The fallback raises exactly when some amount cannot be compared with 0;
   * otherwise it counts the records whose amount is positive, which is
   * every record exactly when every amount is positive.
   */
  lemma {:induction false} FallbackSpec(ts: seq<Txn>)
    ensures FallbackCount(ts).None? <==> exists i :: 0 <= i < |ts| && ComparableAmount(ts[i]).None?
    ensures FallbackCount(ts).Some? ==> FallbackCount(ts).value == CountPositive(ts) <= |ts|
    ensures FallbackCount(ts) == Some(|ts|) <==> forall i :: 0 <= i < |ts| ==> PositiveAmount(ts[i])
  {
    if ts != [] {
      var init := ts[..|ts| - 1];
      var n := |ts| - 1;
      FallbackSpec(init);
      assert forall i :: 0 <= i < n ==> init[i] == ts[i];
      if FallbackCount(init).None? {
        var i :| 0 <= i < n && ComparableAmount(init[i]).None?;
        assert ComparableAmount(ts[i]).None?;
      }
      if FallbackCount(ts) == Some(|ts|) {
        assert FallbackCount(init) == Some(n) && PositiveAmount(ts[n]);
      }
    }
  }

  /** Once some record has raised, the records after it change nothing. */
  lemma {:induction false} FallbackRaisedStays(ts: seq<Txn>, i: nat)
    requires i <= |ts| && FallbackCount(ts[..i]).None?
    ensures FallbackCount(ts).None?
    decreases |ts| - i
  {
    if i < |ts| {
      assert ts[..i + 1][..i] == ts[..i];
      FallbackRaisedStays(ts, i + 1);
    } else {
      assert ts[..i] == ts;
    }
  }

  /** `_fallback_process` of src/validated_processor_fixed.py and src/validated_processor_final.py: a counting loop. */
  method FallbackProcess(ts: seq<Txn>) returns (r: Option<nat>)
    ensures r == FallbackCount(ts)
  {
    var processed := 0;
    var i := 0;
    while i < |ts|
      invariant 0 <= i <= |ts| && FallbackCount(ts[..i]) == Some(processed)
    {
      assert ts[..i + 1][..i] == ts[..i];
      match ComparableAmount(ts[i]) {
        case None =>
          FallbackRaisedStays(ts, i + 1);
          return None;
        case Some(x) =>
          if x > 0.0 {
            processed := processed + 1;
          }
      }
      i := i + 1;
    }
    assert ts[..i] == ts;
    return Some(processed);
  }

  /** Every record the filter keeps is one it accepts. */
  lemma {:induction false} KeptAccepted<T>(ts: seq<T>, accept: T -> bool)
    ensures forall j :: 0 <= j < |Kept(ts, accept)| ==> accept(Kept(ts, accept)[j])
  {
    if ts != [] {
      KeptAccepted(ts[..|ts| - 1], accept);
    }
  }

  /** A record that passes validation has an amount that is a positive number or text. */
  lemma AcceptedAmount(t: Txn)
    requires Accepted(t)
    ensures AmountKey in t && (t[AmountKey].Str? || (t[AmountKey].Num? && t[AmountKey].x > 0.0))
  {
  }

  /**
   * The fallback run on validated records counts every one of them when
   * their amounts are numbers; when one of them carries its amount as
   * text (which float() accepted), comparing it with 0 raises TypeError.
   */
  lemma FallbackOnValid(ts: seq<Txn>)
    ensures var valid := Kept(ts, Validate());
      (forall i :: 0 <= i < |valid| ==> AmountKey in valid[i] && valid[i][AmountKey].Num?) <==> FallbackCount(valid) == Some(|valid|)
  {
    var valid: seq<Txn> := Kept(ts, Validate());
    KeptAccepted(ts, Validate());
    forall i | 0 <= i < |valid|
      ensures AmountKey in valid[i] && (valid[i][AmountKey].Str? || (valid[i][AmountKey].Num? && valid[i][AmountKey].x > 0.0))
    {
      assert Validate()(valid[i]);
      AcceptedAmount(valid[i]);
    }
    FallbackSpec(valid);
  }

  /**
   * validate_transactions: validate_batch and generate_validation_report
   * over the same records. Its log line divides by the total, so an empty
   * list raises ZeroDivisionError.
   */
  method ValidateTransactions(ts: seq<Txn>) returns (r: Option<(seq<Txn>, Report<Txn>)>)
    ensures r.None? <==> ts == []
    ensures r.Some? ==> r.value.0 == Kept(ts, Validate()) && r.value.1 == ReportOf(ts, Validate())
  {
    var valid := ValidateBatch(ts);
    var report := GenerateValidationReport(ts);
    ReportCounts(ts, Validate());
    if report.totalTransactions == 0 {
      return None;
    }
    return Some((valid, report));
  }

  /** The first of names, in list order, that the object exposes: the loops over method names with their break. */
  function FirstPresent(names: seq<string>, present: set<string>): (r: Option<string>)
    ensures r.None? <==> forall i :: 0 <= i < |names| ==> names[i] !in present
    ensures r.Some? ==> exists k :: 0 <= k < |names| && names[k] == r.value && names[k] in present
                                    && forall j :: 0 <= j < k ==> names[j] !in present
  {
    if names == [] then None
    else if names[0] in present then Some(names[0])
    else
      var r := FirstPresent(names[1..], present);
      assert forall i :: 1 <= i < |names| ==> names[i] == names[1..][i - 1];
      if r.Some? then
        var k :| 0 <= k < |names[1..]| && names[1..][k] == r.value && names[1..][k] in present
                 && forall j :: 0 <= j < k ==> names[1..][j] !in present;
        assert names[k + 1] == r.value && forall j :: 0 <= j < k + 1 ==> names[j] !in present;
        r
      else r
  }

  /** `input_data or []` when not generating: absent and empty input both mean no records. */
  function InputRecords(generateData: bool, generated: seq<Txn>, inputData: Option<seq<Txn>>): seq<Txn>
  {
    if generateData then generated else inputData.GetOr([])
  }

  /** A count, or the exception raised instead, as the int a result dictionary holds. */
  function Widened(count: Option<nat>): Option<int>
  {
    match count
    case None => None
    case Some(n) => Some(n)
  }

  /** A run's result dictionary; `NoTransactions` is `{success: False, error: "No transactions"}`. */
  datatype PipelineResult =
    | NoTransactions
    | Done(success: bool, processedCount: int, originalCount: nat, validCount: nat, rejectedCount: int, report: Report<Txn>)

  /**
   * The result of a run over a non-empty list once validation has split
   * it: with no valid record, the "All transactions failed validation"
   * dictionary; otherwise the processed count of the valid records,
   * or the exception that processing raised.
   */
  function Summary(ts: seq<Txn>, processed: Option<int>): Option<PipelineResult>
  {
    var valid: seq<Txn> := Kept(ts, Validate());
    var report := ReportOf(ts, Validate());
    if valid == [] then Some(Done(false, 0, |ts|, 0, |ts|, report))
    else match processed
      case None => None
      case Some(n) => Some(Done(true, n, |ts|, |valid|, |ts| - |valid|, report))
  }

  /** Summary written over the list and report validation produced, for a caller that holds them. */
  lemma SummaryOf(ts: seq<Txn>, valid: seq<Txn>, report: Report<Txn>, processed: Option<int>)
    requires valid == Kept(ts, Validate()) && report == ReportOf(ts, Validate())
    ensures valid == [] ==> Summary(ts, processed) == Some(Done(false, 0, |ts|, 0, |ts|, report))
    ensures valid != [] && processed.None? ==> Summary(ts, processed).None?
    ensures valid != [] && processed.Some? ==>
      Summary(ts, processed) == Some(Done(true, processed.value, |ts|, |valid|, |ts| - |valid|, report))
  {
  }

  /**
   * success holds exactly when some record validated; the valid and the
   * rejected records add up to the original ones, and all three agree with
   * the validation report, which lists one error per rejected record.
   */
  lemma SummarySpec(ts: seq<Txn>, processed: Option<int>)
    ensures var r := Summary(ts, processed);
      r.Some? ==> (r.value.Done?
        && (r.value.success <==> r.value.validCount > 0)
        && (r.value.success <==> Kept(ts, Validate()) != [])
        && r.value.rejectedCount == r.value.originalCount - r.value.validCount
        && r.value.originalCount == |ts| == r.value.report.totalTransactions
        && r.value.validCount == r.value.report.validTransactions
        && r.value.rejectedCount == r.value.report.invalidTransactions == |r.value.report.validationErrors|
        && (!r.value.success ==> r.value.processedCount == 0))
    ensures Summary(ts, processed).None? <==> Kept(ts, Validate()) != [] && processed.None?
  {
    ReportCounts(ts, Validate());
  }

  /**
   * A run whose processing step never counts more than the valid records
   * reports a processed count between 0 and the valid count, alongside the
   * properties of SummarySpec.
   */
  lemma BoundedSummary(ts: seq<Txn>, processed: Option<int>)
    requires processed.Some? ==> 0 <= processed.value <= |Kept(ts, Validate())|
    ensures var r := Summary(ts, processed);
      r.Some? ==> (r.value.Done?
        && (r.value.success <==> r.value.validCount > 0)
        && r.value.rejectedCount == r.value.originalCount - r.value.validCount
        && r.value.originalCount == |ts|
        && 0 <= r.value.processedCount <= r.value.validCount)
  {
    SummarySpec(ts, processed);
  }
}
