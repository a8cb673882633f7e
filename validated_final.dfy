// src/validated_processor_final.py: ValidatedBatchProcessor, which validates
// the records first and saves the valid ones through a DatabaseManager in
// 1000-record slices, falling back to the simulated count on any exception.
// The manager is a parameter: whether its import and construction
// succeed, what each save returns or whether it raises, and whether close
// raises.
module ValidatedFinal {
  import opened Wrappers
  import opened Transactions
  import opened AdvancedValidation
  import opened Chunks
  import opened Validated

  /** chunk_size in process_with_existing_pipeline. */
  const SliceSize := 1000

  /** A constructed DatabaseManager: save_batch_transactions' truthiness (None when it raises), and whether close returns. */
  datatype Manager = Manager(save: seq<Txn> -> Option<bool>, closes: bool)

  /**
   * src/database.py defines DatabaseClient and no DatabaseManager, so the
   * import inside the try raises ImportError before anything is saved and
   * the shipped program always takes the fallback.
   */
  const ShippedManager: Option<Manager> := None

  /** The slices `transactions[i:i + chunk_size]` for i in range(0, len(transactions), chunk_size). */
  function Slices(ts: seq<Txn>): seq<seq<Txn>>
  {
    Split(ts, SliceSize)
  }

  /** n added to a count, unless that count is an exception. */
  function Plus(n: nat, rest: Option<nat>): Option<nat>
  {
    match rest
    case None => None
    case Some(m) => Some(n + m)
  }

  /** The records the slices add: a truthy save adds the slice's length, a falsy one nothing, and a raising one ends in an exception. */
  function SavedSlices(pieces: seq<seq<Txn>>, save: seq<Txn> -> Option<bool>): Option<nat>
  {
    if pieces == [] then Some(0)
    else match save(pieces[0])
      case None => None
      case Some(ok) => Plus(if ok then |pieces[0]| else 0, SavedSlices(pieces[1..], save))
  }

  /** What process_with_existing_pipeline returns: the saved count, or the fallback's after any exception. */
  function ExistingPipelineCount(ts: seq<Txn>, manager: Option<Manager>): Option<nat>
  {
    match manager
    case None => FallbackCount(ts)
    case Some(m) =>
      match SavedSlices(Slices(ts), m.save)
      case None => FallbackCount(ts)
      case Some(n) => if m.closes then Some(n) else FallbackCount(ts)
  }

  /** process_with_existing_pipeline. */
  method ProcessWithExistingPipeline(ts: seq<Txn>, manager: Option<Manager>) returns (r: Option<nat>)
    ensures r == ExistingPipelineCount(ts, manager)
  {
    if manager.None? {
      r := FallbackProcess(ts);
      return;
    }
    var m := manager.value;
    var pieces := Slices(ts);
    var processed: nat := 0;
    var k := 0;
    while k < |pieces|
      invariant 0 <= k <= |pieces|
      invariant SavedSlices(pieces, m.save) == Plus(processed, SavedSlices(pieces[k..], m.save))
    {
      assert pieces[k..][1..] == pieces[k + 1..];
      var chunk := pieces[k];
      match m.save(chunk) {
        case None =>
          r := FallbackProcess(ts);
          return;
        case Some(ok) =>
          if ok {
            processed := processed + |chunk|;
          }
      }
      k := k + 1;
    }
    if !m.closes {
      r := FallbackProcess(ts);
      return;
    }
    return Some(processed);
  }

  /**
   * The slices never add more than the records they hold, add all of them
   * when every save is truthy, none when every save is falsy, and end in
   * an exception as soon as one save raises.
   */
  lemma {:induction false} SavedSlicesSpec(pieces: seq<seq<Txn>>, save: seq<Txn> -> Option<bool>)
    ensures SavedSlices(pieces, save).Some? ==> SavedSlices(pieces, save).value <= |Concat(pieces)|
    ensures SavedSlices(pieces, save).None? <==> exists i :: 0 <= i < |pieces| && save(pieces[i]).None?
    ensures (forall i :: 0 <= i < |pieces| ==> save(pieces[i]) == Some(true)) ==> SavedSlices(pieces, save) == Some(|Concat(pieces)|)
    ensures (forall i :: 0 <= i < |pieces| ==> save(pieces[i]) == Some(false)) ==> SavedSlices(pieces, save) == Some(0)
  {
    if pieces != [] {
      var rest := pieces[1..];
      SavedSlicesSpec(rest, save);
      assert forall i :: 1 <= i < |pieces| ==> pieces[i] == rest[i - 1];
      assert Concat(pieces) == pieces[0] + Concat(rest);
      if SavedSlices(rest, save).None? {
        var i :| 0 <= i < |rest| && save(rest[i]).None?;
        assert save(pieces[i + 1]).None?;
      }
    }
  }

  /**
   * The shipped manager always means the fallback count. With any
   * manager the count is at most the number of records; it is all of them
   * when every slice is saved and close returns; and a slice that raises,
   * or a close that raises, throws the partial count away for the
   * fallback's.
   */
  lemma ExistingPipelineSpec(ts: seq<Txn>, manager: Option<Manager>)
    ensures ExistingPipelineCount(ts, ShippedManager) == FallbackCount(ts)
    ensures ExistingPipelineCount(ts, manager).Some? ==> ExistingPipelineCount(ts, manager).value <= |ts|
    ensures (manager.Some? && manager.value.closes
             && forall i :: 0 <= i < |Slices(ts)| ==> manager.value.save(Slices(ts)[i]) == Some(true))
      ==> ExistingPipelineCount(ts, manager) == Some(|ts|)
    ensures (manager.Some? && ((exists i :: 0 <= i < |Slices(ts)| && manager.value.save(Slices(ts)[i]).None?)
                               || !manager.value.closes))
      ==> ExistingPipelineCount(ts, manager) == FallbackCount(ts)
  {
    FallbackSpec(ts);
    SplitConcat(ts, SliceSize);
    assert Concat(Slices(ts)) == ts;
    if manager.Some? {
      SavedSlicesSpec(Slices(ts), manager.value.save);
    }
  }

  /** The bound of ExistingPipelineSpec on its own: never more than the records handed in. */
  lemma ExistingPipelineBound(ts: seq<Txn>, manager: Option<Manager>)
    ensures var count := ExistingPipelineCount(ts, manager); count.Some? ==> count.value <= |ts|
  {
    ExistingPipelineSpec(ts, manager);
  }

  /** The processing step of a run: process_with_existing_pipeline on the valid records, as the int the result holds. */
  method SaveValid(valid: seq<Txn>, manager: Option<Manager>) returns (count: Option<int>)
    ensures count == Widened(ExistingPipelineCount(valid, manager))
    ensures count.Some? ==> 0 <= count.value <= |valid|
  {
    var saved := ProcessWithExistingPipeline(valid, manager);
    ExistingPipelineBound(valid, manager);
    count := Widened(saved);
  }

  /**
   * run_validated_pipeline: no records give the "No transactions" result;
   * otherwise only the valid records are saved, and the result counts them
   * against the original ones (FinalSummarySpec).
   */
  method RunValidatedPipeline(manager: Option<Manager>, generateData: bool, generated: seq<Txn>, inputData: Option<seq<Txn>>)
    returns (r: Option<PipelineResult>)
    ensures InputRecords(generateData, generated, inputData) == [] ==> r == Some(NoTransactions)
    ensures InputRecords(generateData, generated, inputData) != [] ==> r.None? || r.value.Done?
    ensures var ts := InputRecords(generateData, generated, inputData);
      ts != [] ==> r == Summary(ts, Widened(ExistingPipelineCount(Kept(ts, Validate()), manager)))
  {
    var ts := InputRecords(generateData, generated, inputData);
    if ts == [] {
      return Some(NoTransactions);
    }
    var checked := ValidateTransactions(ts);
    var valid := checked.value.0;
    var report := checked.value.1;
    if valid != [] {
      var count := SaveValid(valid, manager);
      SummaryOf(ts, valid, report, count);
      match count {
        case None =>
          r := None;
        case Some(n) =>
          r := Some(Done(true, n, |ts|, |valid|, |ts| - |valid|, report));
      }
    } else {
      SummaryOf(ts, valid, report, Widened(ExistingPipelineCount(valid, manager)));
      r := Some(Done(false, 0, |ts|, 0, |ts|, report));
    }
  }

  /**
   * What a run over records reports: success exactly when some record
   * validated, rejected = original - valid, and a processed count that is
   * never more than the valid records.
   */
  lemma FinalSummarySpec(ts: seq<Txn>, manager: Option<Manager>)
    ensures var r := Summary(ts, Widened(ExistingPipelineCount(Kept(ts, Validate()), manager)));
      r.Some? ==> (r.value.Done?
        && (r.value.success <==> r.value.validCount > 0)
        && r.value.rejectedCount == r.value.originalCount - r.value.validCount
        && r.value.originalCount == |ts|
        && 0 <= r.value.processedCount <= r.value.validCount)
  {
    var valid: seq<Txn> := Kept(ts, Validate());
    var saved := ExistingPipelineCount(valid, manager);
    ExistingPipelineBound(valid, manager);
    assert saved.Some? ==> saved.value <= |valid|;
    BoundedSummary(ts, Widened(saved));
  }
}
