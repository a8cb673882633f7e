// final_working_processor_fixed.py: validate_data_quality, which checks a
// generated sample for the five required fields and three field formats,
// and main, which runs it on 500 records, compares the share of
// well-formed records with 95%, runs the monitored chunk loop with the
// demonstration parameters and closes the connection. The sample is a
// parameter (it comes from DataGenerator.generate_batch); logging, the
// issue counter and the database count are left out.
module FinalWorkingQuality {
  import opened Wrappers
  import opened Chunks
  import opened Sink
  import opened Transactions
  import opened FinalWorking
  import Monitoring

  const AmountField := "transaction_amount"
  const DateField := "transaction_date"
  const TimeField := "transaction_time"
  const RequiredFields: seq<string> := [TransactionIdKey, CustomerIdKey, AmountField, DateField, TimeField]

  const BadTransactionId := "Invalid transaction ID format"
  const BadCustomerId := "Invalid customer ID format"
  const BadAmount := "Invalid transaction amount"

  /** validation_results. */
  datatype QualityReport = QualityReport(totalChecked: nat, validStructure: nat, invalidStructure: nat, missingFields: nat,
                                         qualityIssues: seq<string>)

  predicate StartsWith(s: string, prefix: string)
  {
    |prefix| <= |s| && s[..|prefix|] == prefix
  }

  /** `all(field in record for field in required_fields)`. */
  predicate Complete(t: Txn)
  {
    TransactionIdKey in t && CustomerIdKey in t && AmountField in t && DateField in t && TimeField in t
  }

  /** The fields of `fields` the record lacks, in their order. */
  function MissingFrom(t: Txn, fields: seq<string>): (m: seq<string>)
    ensures forall f :: f in m <==> f in fields && f !in t
  {
    if fields == [] then []
    else MissingFrom(t, fields[..|fields| - 1]) + (if fields[|fields| - 1] in t then [] else [fields[|fields| - 1]])
  }

  /** `[field for field in required_fields if field not in record]`. */
  function Missing(t: Txn): seq<string>
  {
    MissingFrom(t, RequiredFields)
  }

  /** A record misses no required field exactly when it has them all. */
  lemma MissingIffIncomplete(t: Txn)
    ensures Missing(t) == [] <==> Complete(t)
    ensures forall f :: f in Missing(t) <==> f in RequiredFields && f !in t
  {
    if Missing(t) != [] {
      var f := Missing(t)[0];
      assert f in Missing(t);
    } else {
      assert forall f :: f in RequiredFields ==> f in t;
      assert RequiredFields[0] in t && RequiredFields[1] in t && RequiredFields[2] in t && RequiredFields[3] in t && RequiredFields[4] in t;
    }
  }

  /** The list as Python prints it, for plain field names: `['a', 'b']`. */
  function ListRepr(fields: seq<string>): string
  {
    "[" + Quoted(fields) + "]"
  }

  function Quoted(fields: seq<string>): string
  {
    if fields == [] then ""
    else if |fields| == 1 then "'" + fields[0] + "'"
    else Quoted(fields[..|fields| - 1]) + ", '" + fields[|fields| - 1] + "'"
  }

  /** `f"Missing fields: {missing}"`. */
  function MissingIssue(missing: seq<string>): string
  {
    "Missing fields: " + ListRepr(missing)
  }

  /**
   * The three format checks of a complete record. None where one raises:
   * an id that is not text has no startswith (AttributeError), an amount
   * that is not a number does not compare with 0 (TypeError).
   */
  function FieldIssues(t: Txn): (r: Option<seq<string>>)
    requires Complete(t)
  {
    var id := t[TransactionIdKey];
    var customer := t[CustomerIdKey];
    var amount := t[AmountField];
    if !id.Str? || !customer.Str? || !amount.Num? then None
    else Some((if StartsWith(id.s, "tx_") then [] else [BadTransactionId])
              + (if StartsWith(customer.s, "cust_") then [] else [BadCustomerId])
              + (if amount.x <= 0.0 then [BadAmount] else []))
  }

  /** Each issue is one of the three messages, in check order, each at most once; a record with none has all three formats right. */
  lemma FieldIssuesSpec(t: Txn)
    requires Complete(t) && FieldIssues(t).Some?
    ensures var issues := FieldIssues(t).value;
      |issues| <= 3
      && (BadTransactionId in issues <==> !StartsWith(t[TransactionIdKey].s, "tx_"))
      && (BadCustomerId in issues <==> !StartsWith(t[CustomerIdKey].s, "cust_"))
      && (BadAmount in issues <==> t[AmountField].x <= 0.0)
      && forall m :: m in issues ==> m == BadTransactionId || m == BadCustomerId || m == BadAmount
  {
  }

  /** One pass of the loop over the sample. */
  function QualityStep(r: QualityReport, t: Txn): Option<QualityReport>
  {
    if Complete(t) then
      match FieldIssues(t)
      case None => None
      case Some(issues) =>
        Some(r.(validStructure := r.validStructure + 1,
                invalidStructure := r.invalidStructure + (if issues != [] then 1 else 0),
                qualityIssues := r.qualityIssues + issues))
    else Some(r.(missingFields := r.missingFields + 1, qualityIssues := r.qualityIssues + [MissingIssue(Missing(t))]))
  }

  /** The loop from `init` over rs, in order; None once a record raises. */
  function Scan(init: QualityReport, rs: seq<Txn>): Option<QualityReport>
  {
    if rs == [] then Some(init)
    else
      match Scan(init, rs[..|rs| - 1])
      case None => None
      case Some(r) => QualityStep(r, rs[|rs| - 1])
  }

  /** What validate_data_quality returns for the sample, before its success rate. */
  function QualityOf(sample: seq<Txn>): Option<QualityReport>
  {
    Scan(QualityReport(|sample|, 0, 0, 0, []), sample)
  }

  /** The number of records that have every required field. */
  function CountComplete(rs: seq<Txn>): (n: nat)
    ensures n <= |rs|
  {
    if rs == [] then 0 else CountComplete(rs[..|rs| - 1]) + (if Complete(rs[|rs| - 1]) then 1 else 0)
  }

  predicate Raises(t: Txn)
  {
    Complete(t) && FieldIssues(t).None?
  }

  /** The loop raises exactly when some complete record has an id or an amount of the wrong type. */
  lemma {:induction false} ScanRaises(init: QualityReport, rs: seq<Txn>)
    ensures Scan(init, rs).None? <==> exists i :: 0 <= i < |rs| && Raises(rs[i])
  {
    if rs != [] {
      var front := rs[..|rs| - 1];
      ScanRaises(init, front);
      if Scan(init, rs).None? && Scan(init, front).Some? {
        assert Raises(rs[|rs| - 1]);
      }
      if i :| 0 <= i < |rs| && Raises(rs[i]) {
        if i < |rs| - 1 {
          assert front[i] == rs[i];
        }
      } else {
        forall i | 0 <= i < |front| ensures !Raises(front[i]) {
          assert front[i] == rs[i];
        }
      }
    }
  }

  /**
   * The counters the loop keeps: the sample size never changes, every
   * record counts once as complete or as missing fields, a record with
   * issues is complete, and each adds one to three messages while each
   * incomplete record adds one.
   */
  lemma {:induction false} ScanCounts(init: QualityReport, rs: seq<Txn>)
    requires Scan(init, rs).Some?
    ensures var r := Scan(init, rs).value;
      r.totalChecked == init.totalChecked
      && r.validStructure == init.validStructure + CountComplete(rs)
      && r.missingFields == init.missingFields + (|rs| - CountComplete(rs))
      && init.invalidStructure <= r.invalidStructure <= init.invalidStructure + CountComplete(rs)
      && |init.qualityIssues| <= |r.qualityIssues| && r.qualityIssues[..|init.qualityIssues|] == init.qualityIssues
      && (r.invalidStructure - init.invalidStructure) + (r.missingFields - init.missingFields)
         <= |r.qualityIssues| - |init.qualityIssues|
         <= 3 * (r.invalidStructure - init.invalidStructure) + (r.missingFields - init.missingFields)
  {
    if rs != [] {
      var front := rs[..|rs| - 1];
      var t := rs[|rs| - 1];
      ScanCounts(init, front);
      var p := Scan(init, front).value;
      assert p.qualityIssues[..|init.qualityIssues|] == init.qualityIssues;
      if Complete(t) {
        FieldIssuesSpec(t);
        var issues := FieldIssues(t).value;
        assert (p.qualityIssues + issues)[..|init.qualityIssues|] == p.qualityIssues[..|init.qualityIssues|];
      } else {
        assert (p.qualityIssues + [MissingIssue(Missing(t))])[..|init.qualityIssues|] == p.qualityIssues[..|init.qualityIssues|];
      }
    }
  }

  /** The report's figures agree: valid + missing == total_checked, invalid <= valid, and between one and three messages per flagged record. */
  lemma QualityCounts(sample: seq<Txn>)
    requires QualityOf(sample).Some?
    ensures var r := QualityOf(sample).value;
      r.totalChecked == |sample| && r.validStructure == CountComplete(sample)
      && r.validStructure + r.missingFields == |sample|
      && r.invalidStructure <= r.validStructure
      && r.invalidStructure + r.missingFields <= |r.qualityIssues| <= 3 * r.invalidStructure + r.missingFields
  {
    ScanCounts(QualityReport(|sample|, 0, 0, 0, []), sample);
  }

  /** A record as generate_batch builds it: 'tx_…' and 'cust_…' ids, an amount in [1, 1000], date and time as text. */
  predicate Generated(t: Txn)
  {
    t.Keys == {TransactionIdKey, CustomerIdKey, AmountField, DateField, TimeField}
    && t[TransactionIdKey].Str? && StartsWith(t[TransactionIdKey].s, "tx_")
    && t[CustomerIdKey].Str? && StartsWith(t[CustomerIdKey].s, "cust_")
    && t[AmountField].Num? && 1.0 <= t[AmountField].x <= 1000.0
    && t[DateField].Str? && t[TimeField].Str?
  }

  lemma GeneratedClean(t: Txn)
    requires Generated(t)
    ensures Complete(t) && FieldIssues(t).Some? && FieldIssues(t).value == []
  {
    assert TransactionIdKey in t.Keys && CustomerIdKey in t.Keys && AmountField in t.Keys && DateField in t.Keys && TimeField in t.Keys;
  }

  lemma {:induction false} ScanGenerated(init: QualityReport, rs: seq<Txn>)
    requires forall i :: 0 <= i < |rs| ==> Generated(rs[i])
    ensures Scan(init, rs) == Some(init.(validStructure := init.validStructure + |rs|))
  {
    if rs != [] {
      var front := rs[..|rs| - 1];
      forall i | 0 <= i < |front| ensures Generated(front[i]) {
        assert front[i] == rs[i];
      }
      ScanGenerated(init, front);
      var p := Scan(init, front).value;
      var t := rs[|rs| - 1];
      GeneratedClean(t);
      assert p.qualityIssues + FieldIssues(t).value == p.qualityIssues;
      assert Scan(init, rs) == QualityStep(p, t);
    }
  }

  /** A sample as the generator produces it is fully valid: no invalid record, no missing field, no issue. */
  lemma GeneratedSampleClean(sample: seq<Txn>)
    requires forall i :: 0 <= i < |sample| ==> Generated(sample[i])
    ensures QualityOf(sample) == Some(QualityReport(|sample|, |sample|, 0, 0, []))
  {
    ScanGenerated(QualityReport(|sample|, 0, 0, 0, []), sample);
  }

  lemma ScanPrefix(init: QualityReport, rs: seq<Txn>, i: nat)
    requires i < |rs|
    ensures Scan(init, rs[..i + 1]) ==
      match Scan(init, rs[..i])
      case None => None
      case Some(r) => QualityStep(r, rs[i])
  {
    assert rs[..i + 1][..i] == rs[..i];
  }

  /**
   * validate_data_quality: the report of the loop over the sample, or None
   * where a record raises or sample_size is 0 (the success rate divides by it).
   */
  method ValidateDataQuality(sample: seq<Txn>, sampleSize: int) returns (report: Option<QualityReport>)
    ensures report == if sampleSize == 0 then None else QualityOf(sample)
  {
    var r := QualityReport(|sample|, 0, 0, 0, []);
    ghost var init := r;
    var i := 0;
    while i < |sample|
      invariant 0 <= i <= |sample|
      invariant Scan(init, sample[..i]) == Some(r)
    {
      var record := sample[i];
      ScanPrefix(init, sample, i);
      if Complete(record) {
        r := r.(validStructure := r.validStructure + 1);
        var fieldIssues := FieldIssues(record);
        if fieldIssues.None? {
          ScanRaises(init, sample[..i + 1]);
          ScanRaises(init, sample);
          assert sample[..i + 1][i] == sample[i];
          return None;
        }
        if fieldIssues.value != [] {
          r := r.(invalidStructure := r.invalidStructure + 1, qualityIssues := r.qualityIssues + fieldIssues.value);
        } else {
          assert r.qualityIssues + fieldIssues.value == r.qualityIssues;
        }
      } else {
        r := r.(missingFields := r.missingFields + 1, qualityIssues := r.qualityIssues + [MissingIssue(Missing(record))]);
      }
      i := i + 1;
    }
    assert sample[..i] == sample;
    if sampleSize == 0 {
      return None;
    }
    report := Some(r);
  }

  /** main's gate: `valid_structure / total_checked < 0.95`, with the division exact. */
  predicate BelowThreshold(r: QualityReport)
    requires r.totalChecked > 0
  {
    (r.validStructure as real) / (r.totalChecked as real) < 0.95
  }

  /** Below 95% means fewer than 19 in every 20 records well-formed. */
  lemma ThresholdIff(r: QualityReport)
    requires r.totalChecked > 0
    ensures BelowThreshold(r) <==> 20 * r.validStructure < 19 * r.totalChecked
  {
    var a := r.validStructure as real;
    var b := r.totalChecked as real;
    var q := a / b;
    var c := 0.95 * b;
    assert q * b == a;
    MulLess(q, 0.95, b);
    assert q < 0.95 <==> a < c;
    assert a < c <==> 20.0 * a < 19.0 * b;
    assert (20 * r.validStructure) as real == 20.0 * a && (19 * r.totalChecked) as real == 19.0 * b;
  }

  lemma MulLess(x: real, y: real, p: real)
    requires p > 0.0
    ensures x < y <==> x * p < y * p
  {
    if x < y {
      assert (y - x) * p > 0.0;
    } else {
      assert (x - y) * p >= 0.0;
    }
  }

  // ---------------------------------------------------------------------
  // main.

  const MainSample := 500
  const MainTotal := 1000000
  const MainChunk := 100000
  const MainLimit := 300000

  /** How main ends: an exception caught by its handler, or the run with the gate's verdict and the stored total. */
  datatype MainOutcome = Crashed | Finished(validation: QualityReport, belowThreshold: bool, result: nat)

  /**
   * main: validate a 500-record sample, log the gate's verdict, process
   * 1,000,000 records in chunks of 100,000 up to 300,000 stored, and close
   * the connection in `finally` whatever happened. The validation raising,
   * or an empty sample (the gate divides by its size), goes to the handler
   * before any chunk is processed.
   */
  method RunMain(db: BatchClient<Record>, monitor: Monitoring.PipelineMonitor, monitored: bool, sample: seq<Txn>,
                 gen: nat -> seq<Txn>, clock: Clock)
    returns (outcome: MainOutcome)
    requires monitored ==> monitor.Valid()
    modifies db, monitor, monitor.alertManager
    ensures db.closed
    ensures outcome.Crashed? <==> QualityOf(sample).None? || sample == []
    ensures outcome.Crashed? ==> db.stored == old(db.stored) && unchanged(monitor)
    ensures outcome.Finished? ==>
      outcome.validation == QualityOf(sample).value
      && outcome.belowThreshold == (20 * outcome.validation.validStructure < 19 * |sample|)
      && outcome.result == Sum(StoredCounts(db.accepts, gen, ChunkCount(MainTotal, MainChunk))[..Processed(db.accepts, gen, MainTotal, MainChunk, MainLimit)])
      && db.stored == old(db.stored) + AllAccepted(db.accepts, gen, Processed(db.accepts, gen, MainTotal, MainChunk, MainLimit))
      && (monitored ==>
            monitor.metricsHistory == old(monitor.metricsHistory)
              + MonitoredHistory(monitor.pipelineName, db.accepts, gen, clock, Processed(db.accepts, gen, MainTotal, MainChunk, MainLimit)))
  {
    var report := ValidateDataQuality(sample, MainSample);
    if report.Some? {
      QualityCounts(sample);
    }
    if report.None? || report.value.totalChecked == 0 {
      db.Close();
      return Crashed;
    }
    var validation := report.value;
    var below := (validation.validStructure as real) / (validation.totalChecked as real) < 0.95;
    ThresholdIff(validation);
    var result, _ := ProcessMonitored(db, monitor, monitored, gen, clock, MainTotal, MainChunk, MainLimit);
    db.Close();
    outcome := Finished(validation, below, result);
  }

  // ---------------------------------------------------------------------
  // The demonstration parameters.

  lemma {:induction false} StoredWhenAccepted(accepts: seq<Record> -> bool, pieces: seq<seq<Record>>)
    requires forall b :: accepts(b)
    ensures Stored(Results(accepts, pieces)) == Attempted(Results(accepts, pieces))
  {
    if pieces != [] {
      var front := pieces[..|pieces| - 1];
      StoredWhenAccepted(accepts, front);
      ResultsStep(accepts, front, pieces[|pieces| - 1]);
      assert front + [pieces[|pieces| - 1]] == pieces;
      TotalsStep(Results(accepts, front), BatchResult(|pieces[|pieces| - 1]|, BatchInserted(accepts, pieces[|pieces| - 1])));
    }
  }

  /** When the client takes every batch, a chunk stores all its records. */
  lemma ChunkStoredAll(accepts: seq<Record> -> bool, rows: seq<Txn>)
    requires forall b :: accepts(b)
    ensures ChunkStored(accepts, rows) == |rows|
  {
    StoredWhenAccepted(accepts, Split(Inserted(rows), BatchSize));
    AttemptedIsLength(accepts, Inserted(rows));
  }

  /**
   * With main's parameters and a database that takes every batch, ten
   * chunks are planned, three are processed for exactly 300,000 records,
   * and the monitored variant's "Chunks processed" line says 4, counting
   * the iteration that stopped at the ceiling.
   */
  lemma MainParameters(accepts: seq<Record> -> bool, gen: nat -> seq<Txn>)
    requires forall b :: accepts(b)
    requires forall i :: 0 <= i < 10 ==> |gen(i)| == MainChunk
    ensures ChunkCount(MainTotal, MainChunk) == 10
    ensures Processed(accepts, gen, MainTotal, MainChunk, MainLimit) == 3
    ensures Sum(StoredCounts(accepts, gen, 10)[..3]) == MainLimit
  {
    assert ChunkCount(MainTotal, MainChunk) == 10;
    var s := StoredCounts(accepts, gen, 10);
    FullChunks(accepts, gen, s);
    ThreeFull(s);
    ReachedAt(s, MainLimit, 3);
  }

  lemma FullChunks(accepts: seq<Record> -> bool, gen: nat -> seq<Txn>, s: seq<nat>)
    requires forall b :: accepts(b)
    requires forall i :: 0 <= i < 10 ==> |gen(i)| == MainChunk
    requires s == StoredCounts(accepts, gen, 10)
    ensures forall i :: 0 <= i < 10 ==> s[i] == MainChunk
  {
    forall i | 0 <= i < 10 ensures s[i] == MainChunk {
      ChunkStoredAll(accepts, gen(i));
    }
  }

  lemma ThreeFull(s: seq<nat>)
    requires |s| == 10 && forall i :: 0 <= i < 10 ==> s[i] == MainChunk
    ensures Sum(s[..2]) < MainLimit && Sum(s[..3]) == MainLimit
  {
    assert s[..0] == [];
    SumStep(s, 0);
    SumStep(s, 1);
    SumStep(s, 2);
  }
}
