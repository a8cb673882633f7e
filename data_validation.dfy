// src/data_validation.py: AdvancedDataValidator, which checks that the
// required keys are present, that the amount converts to a positive number
// and that the timestamp is ISO 8601, filters a batch and reports the
// positions of the records that fail.
module AdvancedValidation {
  import opened Wrappers
  import opened Strings
  import opened Calendar
  import opened PyFloat
  import opened Timestamps
  import opened Transactions

  const RequiredFields: seq<string> := [TransactionIdKey, AmountKey, TimestampKey, AccountIdKey]

  /** `float(transaction['amount'])` succeeds and is not at most zero. */
  predicate AmountAccepted(v: Value)
  {
    match ToFloat(v)
    case None => false
    case Some(f) => NotAtMostZero(f)
  }

  /** `datetime.fromisoformat(ts.replace('Z', '+00:00'))` succeeds; a value that is not text has no replace and raises. */
  predicate TimestampAccepted(v: Value)
  {
    match v
    case Str(s) => FromIsoFormat(ReplaceZ(s)).Some?
    case _ => false
  }

  /** validate_transaction: every exception inside it ends in False. */
  predicate Accepted(t: Txn)
  {
    (forall k :: k in RequiredFields ==> k in t)
    && AmountAccepted(t[AmountKey]) && TimestampAccepted(t[TimestampKey])
  }

  /** The records of ts that `accept` takes, in their order. */
  function Kept<T>(ts: seq<T>, accept: T -> bool): (r: seq<T>)
    ensures |r| <= |ts|
  {
    if ts == [] then [] else Kept(ts[..|ts| - 1], accept) + (if accept(ts[|ts| - 1]) then [ts[|ts| - 1]] else [])
  }

  function Validate(): Txn -> bool
  {
    t => Accepted(t)
  }

  /** validate_batch: [] for an empty batch, otherwise the accepted records in input order. */
  method ValidateBatch(ts: seq<Txn>) returns (valid: seq<Txn>)
    ensures valid == Kept(ts, Validate())
  {
    if ts == [] {
      return [];
    }
    valid := [];
    var i := 0;
    while i < |ts|
      invariant 0 <= i <= |ts| && valid == Kept(ts[..i], Validate())
    {
      assert ts[..i + 1][..i] == ts[..i];
      if Accepted(ts[i]) {
        valid := valid + [ts[i]];
      }
      i := i + 1;
    }
    assert ts[..i] == ts;
  }

  /** ts[i] went into the result at position j, and positions grow with j. */
  ghost predicate KeptAt<T>(ts: seq<T>, accept: T -> bool, r: seq<T>, pos: seq<nat>)
  {
    |pos| == |r| && (forall j :: 0 <= j < |pos| ==> pos[j] < |ts| && ts[pos[j]] == r[j] && accept(r[j]))
    && (forall j, k :: 0 <= j < k < |pos| ==> pos[j] < pos[k])
    && (forall i :: 0 <= i < |ts| && accept(ts[i]) ==> exists j :: 0 <= j < |pos| && pos[j] == i)
  }

  /** Positions whose entries agree with a witness on a prefix, extended by at most the last record. */
  lemma KeptExtend<T>(ts: seq<T>, accept: T -> bool, r: seq<T>, pos: seq<nat>, r': seq<T>, pos': seq<nat>)
    requires ts != [] && KeptAt(ts[..|ts| - 1], accept, r, pos)
    requires |pos'| == |r'| && |pos| <= |pos'| <= |pos| + 1
    requires forall j :: 0 <= j < |pos| ==> pos'[j] == pos[j] && r'[j] == r[j]
    requires |pos'| == |pos| + 1 <==> accept(ts[|ts| - 1])
    requires |pos'| == |pos| + 1 ==> pos'[|pos|] == |ts| - 1 && r'[|pos|] == ts[|ts| - 1]
    ensures KeptAt(ts, accept, r', pos')
  {
    var init := ts[..|ts| - 1];
    var n := |ts| - 1;
    assert forall i :: 0 <= i < n ==> init[i] == ts[i];
    forall i | 0 <= i < |ts| && accept(ts[i])
      ensures exists j :: 0 <= j < |pos'| && pos'[j] == i
    {
      if i < n {
        var j :| 0 <= j < |pos| && pos[j] == i;
        assert pos'[j] == i;
      } else {
        assert pos'[|pos|] == i;
      }
    }
  }

  /** The result keeps exactly the accepted records, each once, in input order. */
  lemma {:induction false} KeptSpec<T>(ts: seq<T>, accept: T -> bool)
    ensures exists pos :: KeptAt(ts, accept, Kept(ts, accept), pos)
  {
    if ts == [] {
      var none: seq<nat> := [];
      assert KeptAt(ts, accept, Kept(ts, accept), none);
    } else {
      var init := ts[..|ts| - 1];
      var n := |ts| - 1;
      KeptSpec(init, accept);
      var pos: seq<nat> :| KeptAt(init, accept, Kept(init, accept), pos);
      var r := Kept(init, accept);
      if accept(ts[n]) {
        var pos': seq<nat> := pos + [n];
        assert Kept(ts, accept) == r + [ts[n]];
        KeptExtend(ts, accept, r, pos, r + [ts[n]], pos');
        assert KeptAt(ts, accept, Kept(ts, accept), pos');
      } else {
        assert Kept(ts, accept) == r;
        KeptExtend(ts, accept, r, pos, r, pos);
        assert KeptAt(ts, accept, Kept(ts, accept), pos);
      }
    }
  }

  /** generate_validation_report's entry for a failing record: its index and the record. */
  datatype IndexedError<T> = IndexedError(index: nat, transaction: T)

  datatype Report<T> = Report(totalTransactions: nat, validTransactions: nat, invalidTransactions: nat, validationErrors: seq<IndexedError<T>>)

  /** The report over the first records of ts, which is where positions come from. */
  function ReportOf<T>(ts: seq<T>, accept: T -> bool): Report<T>
  {
    if ts == [] then Report(0, 0, 0, [])
    else
      var r := ReportOf(ts[..|ts| - 1], accept);
      var i := |ts| - 1;
      if accept(ts[i]) then r.(totalTransactions := |ts|, validTransactions := r.validTransactions + 1)
      else r.(totalTransactions := |ts|, invalidTransactions := r.invalidTransactions + 1,
              validationErrors := r.validationErrors + [IndexedError(i, ts[i])])
  }

  /** generate_validation_report. */
  method GenerateValidationReport(ts: seq<Txn>) returns (report: Report<Txn>)
    ensures report == ReportOf(ts, Validate())
  {
    report := Report(|ts|, 0, 0, []);
    var i := 0;
    while i < |ts|
      invariant 0 <= i <= |ts| && report == ReportOf(ts[..i], Validate()).(totalTransactions := |ts|)
    {
      assert ts[..i + 1][..i] == ts[..i];
      if Accepted(ts[i]) {
        report := report.(validTransactions := report.validTransactions + 1);
      } else {
        report := report.(invalidTransactions := report.invalidTransactions + 1,
                          validationErrors := report.validationErrors + [IndexedError(i, ts[i])]);
      }
      i := i + 1;
    }
    assert ts[..i] == ts;
  }

  /** The counts add up to the total, one error per failing record. */
  lemma {:induction false} ReportCounts<T>(ts: seq<T>, accept: T -> bool)
    ensures var r := ReportOf(ts, accept);
      && r.totalTransactions == |ts| && r.validTransactions + r.invalidTransactions == |ts|
      && |r.validationErrors| == r.invalidTransactions && r.validTransactions == |Kept(ts, accept)|
  {
    if ts != [] {
      ReportCounts(ts[..|ts| - 1], accept);
    }
  }

  /** The report over ts is the one over all but the last record, with that record counted. */
  lemma ReportSnoc<T>(ts: seq<T>, accept: T -> bool)
    requires ts != []
    ensures var e := ReportOf(ts[..|ts| - 1], accept).validationErrors;
      ReportOf(ts, accept).validationErrors == if accept(ts[|ts| - 1]) then e else e + [IndexedError(|ts| - 1, ts[|ts| - 1])]
  {
  }

  /** Each error carries the position of its record, and the positions strictly increase. */
  lemma {:induction false} ReportIndices<T>(ts: seq<T>, accept: T -> bool)
    ensures var e := ReportOf(ts, accept).validationErrors;
      && (forall j :: 0 <= j < |e| ==> e[j].index < |ts| && ts[e[j].index] == e[j].transaction && !accept(e[j].transaction))
      && (forall j, k :: 0 <= j < k < |e| ==> e[j].index < e[k].index)
  {
    if ts != [] {
      var init := ts[..|ts| - 1];
      var n := |ts| - 1;
      ReportIndices(init, accept);
      ReportSnoc(ts, accept);
      var e := ReportOf(init, accept).validationErrors;
      var e' := ReportOf(ts, accept).validationErrors;
      assert forall i :: 0 <= i < |init| ==> init[i] == ts[i];
      assert forall j :: 0 <= j < |e| ==> e'[j] == e[j] && e[j].index < n;
      if !accept(ts[n]) {
        assert e'[|e|] == IndexedError(n, ts[n]);
      }
    }
  }

  /** A position is listed exactly when its record fails. */
  lemma {:induction false} ReportListsFailures<T>(ts: seq<T>, accept: T -> bool)
    ensures var e := ReportOf(ts, accept).validationErrors;
      forall i :: 0 <= i < |ts| ==> (!accept(ts[i]) <==> exists j :: 0 <= j < |e| && e[j].index == i)
  {
    if ts != [] {
      var init := ts[..|ts| - 1];
      var n := |ts| - 1;
      ReportListsFailures(init, accept);
      ReportIndices(init, accept);
      ReportSnoc(ts, accept);
      var e := ReportOf(init, accept).validationErrors;
      var e' := ReportOf(ts, accept).validationErrors;
      assert forall j :: 0 <= j < |e| ==> e'[j] == e[j] && e[j].index < n;
      forall i | 0 <= i < |ts|
        ensures !accept(ts[i]) <==> exists j :: 0 <= j < |e'| && e'[j].index == i
      {
        if i < n {
          assert init[i] == ts[i];
          if !accept(ts[i]) {
            var j :| 0 <= j < |e| && e[j].index == i;
            assert e'[j].index == i;
          }
          if exists j :: 0 <= j < |e'| && e'[j].index == i {
            var j :| 0 <= j < |e'| && e'[j].index == i;
            assert j < |e|;
            assert e[j].index == i;
          }
        } else if !accept(ts[i]) {
          assert e'[|e|].index == i;
        } else {
          assert e' == e;
        }
      }
    }
  }

  // ---------------------------------------------------------------------
  // The test data of main().

  /** A record with all four keys, a numeric amount and a timestamp text. */
  predicate Shaped(t: Txn, amount: real, stamp: string)
  {
    Lookup(t, TransactionIdKey).Some? && Lookup(t, AccountIdKey).Some?
    && Lookup(t, AmountKey) == Some(Num(amount)) && Lookup(t, TimestampKey) == Some(Str(stamp))
  }

  lemma HasRequired(t: Txn, amount: real, stamp: string)
    requires Shaped(t, amount, stamp)
    ensures forall k :: k in RequiredFields ==> k in t
  {
  }

  /** A positive amount with a `2024-01-15THH:MM:00` timestamp is accepted. */
  lemma MorningAccepted(t: Txn, amount: real, s: string, h: nat, mi: nat)
    requires Shaped(t, amount, s) && amount > 0.0
    requires |s| == 19 && s[..11] == "2024-01-15T" && s[13] == ':' && s[16..] == ":00"
    requires Two(s, 11) == Some(h) && Two(s, 14) == Some(mi) && h <= 23 && mi <= 59
    ensures Accepted(t)
  {
    HasRequired(t, amount, s);
    forall k | 0 <= k < |s|
      ensures s[k] != 'Z'
    {
      if k < 11 {
        assert s[k] == s[..11][k];
      } else if k >= 16 {
        assert s[k] == s[16..][k - 16];
      }
    }
    ReplaceZNoZ(s);
    assert s[..10] == s[..11][..10] && s[10] == s[..11][10];
    Jan15Stamp(s, false, h, mi);
  }

  /** An amount at most zero is refused, whatever the timestamp. */
  lemma NotPositiveRejected(t: Txn, amount: real, s: string)
    requires Shaped(t, amount, s) && amount <= 0.0
    ensures !Accepted(t)
  {
  }

  /** A timestamp starting with a character that is neither a digit nor `Z` is refused. */
  lemma NonDateRejected(t: Txn, amount: real, s: string)
    requires Shaped(t, amount, s) && s != [] && !IsDigit(s[0]) && s[0] != 'Z'
    ensures !Accepted(t)
  {
    assert ReplaceZ(s) == [s[0]] + ReplaceZ(s[1..]);
    NoLeadingDigit(ReplaceZ(s), false);
  }

  /** Three records of which only the first is accepted. */
  lemma ReportOfThree<T>(t1: T, t2: T, t3: T, accept: T -> bool)
    requires accept(t1) && !accept(t2) && !accept(t3)
    ensures ReportOf([t1, t2, t3], accept) == Report(3, 1, 2, [IndexedError(1, t2), IndexedError(2, t3)])
  {
    assert [t1, t2, t3][..2] == [t1, t2] && [t1, t2][..1] == [t1] && [t1][..0] == [];
    assert ReportOf([t1], accept) == Report(1, 1, 0, []);
  }

  /** The three records of main(): only T001 passes, T002 for its negative amount and T003 for its timestamp fail. */
  lemma BuiltInData(t1: Txn, t2: Txn, t3: Txn)
    requires Shaped(t1, 100.0, "2024-01-15T10:30:00")
    requires Shaped(t2, -50.0, "2024-01-15T11:00:00")
    requires Shaped(t3, 200.0, "invalid_date")
    ensures var r := ReportOf([t1, t2, t3], Validate());
      && r.totalTransactions == 3 && r.validTransactions == 1 && r.invalidTransactions == 2
      && r.validationErrors == [IndexedError(1, t2), IndexedError(2, t3)]
  {
    MorningAccepted(t1, 100.0, "2024-01-15T10:30:00", 10, 30);
    NotPositiveRejected(t2, -50.0, "2024-01-15T11:00:00");
    NonDateRejected(t3, 200.0, "invalid_date");
    ReportOfThree(t1, t2, t3, Validate());
  }
}
