// src/data_validator.py: five checks per transaction, a log of the records
// that failed, batch counts and a report over the log.
module Validator {
  import opened Wrappers
  import opened Calendar
  import opened Strings
  import opened Timestamps
  import opened Transactions
  import opened Counters

  /** The five checks, in the order the checks dictionary lists them. */
  datatype Check = AmountPositive | ValidTimestamp | AccountNotEmpty | ReasonableAmount | ValidCurrency

  const CheckOrder: seq<Check> := [AmountPositive, ValidTimestamp, AccountNotEmpty, ReasonableAmount, ValidCurrency]

  /** A check's position in the dictionary. */
  function Rank(c: Check): nat
  {
    match c
    case AmountPositive => 0
    case ValidTimestamp => 1
    case AccountNotEmpty => 2
    case ReasonableAmount => 3
    case ValidCurrency => 4
  }

  /** The dictionary key under which the check is reported. */
  function CheckName(c: Check): string
  {
    match c
    case AmountPositive => "amount_positive"
    case ValidTimestamp => "valid_timestamp"
    case AccountNotEmpty => "account_not_empty"
    case ReasonableAmount => "reasonable_amount"
    case ValidCurrency => "valid_currency"
  }

  const AmountLimit := 1000000.0
  const Currencies: seq<string> := ["USD", "EUR", "GBP"]

  /**
   * _is_valid_timestamp: a falsy value is refused; text that pandas reads
   * must have a year of 2020 or later and not lie after `now`. An aware
   * time cannot be compared with the naive `now` and raises, which the
   * bare except also turns into False, as does a time past the last
   * instant a Timestamp holds (OutOfBoundsDatetime). pandas reads a number as
   * nanoseconds since the epoch; its year is 2020 or later exactly when
   * the count is at least that of 2020-01-01 00:00 (YearFrom2020), and it
   * is not after `now` exactly when its count is not larger (EpochOrder).
   * datetime.now() always has a month of 1..12.
   */
  predicate TimestampValid(v: Option<Value>, now: Moment)
  {
    match v
    case Some(Str(s)) => TextStampValid(s, now)
    case Some(Num(x)) => NumberStampValid(x, now)
    case _ => false
  }

  /** _is_valid_timestamp on text. */
  predicate TextStampValid(s: string, now: Moment)
  {
    s != "" && match PandasDatetime(s)
      case None => false
      case Some(m) => m.date.year >= 2020 && m.offset.None? && EpochNanos(m) < Int64Bound && NotLater(m, now)
  }

  /** _is_valid_timestamp on a number. */
  predicate NumberStampValid(x: real, now: Moment)
  {
    x != 0.0 && 1 <= now.date.month <= 12 && match NumberNanos(x)
      case None => false
      case Some(n) => n >= EpochNanos(Start2020) && n <= EpochNanos(now)
  }

  /** One check of a record whose amount compares as the number `amount`. */
  predicate Holds(t: Txn, amount: real, now: Moment, c: Check)
  {
    match c
    case AmountPositive => amount > 0.0
    case ValidTimestamp => TimestampValid(Lookup(t, TimestampKey), now)
    case AccountNotEmpty => Truthy(Lookup(t, AccountIdKey))
    case ReasonableAmount => amount <= AmountLimit
    case ValidCurrency => match Lookup(t, CurrencyKey) case Some(Str(s)) => s in Currencies case _ => false
  }

  /** The checks of cs that fail, in the order of cs. */
  function FailedAmong(t: Txn, amount: real, now: Moment, cs: seq<Check>): seq<Check>
  {
    if cs == [] then [] else (if Holds(t, amount, now, cs[0]) then [] else [cs[0]]) + FailedAmong(t, amount, now, cs[1..])
  }

  /** `failed_checks`; None when building the checks dictionary raises TypeError (an amount that is text or None). */
  function FailedChecks(t: Txn, now: Moment): Option<seq<Check>>
  {
    match ComparableAmount(t)
    case None => None
    case Some(a) => Some(FailedAmong(t, a, now, CheckOrder))
  }

  /** validate_transaction's return value, None where it raises. */
  function Validity(t: Txn, now: Moment): Option<bool>
  {
    match FailedChecks(t, now)
    case None => None
    case Some(f) => Some(f == [])
  }

  /** A check fails exactly when it is listed, and the list keeps the order of cs. */
  lemma {:induction false} FailedAmongSpec(t: Txn, amount: real, now: Moment, cs: seq<Check>)
    requires forall i, j :: 0 <= i < j < |cs| ==> Rank(cs[i]) < Rank(cs[j])
    ensures var f := FailedAmong(t, amount, now, cs);
      && (forall c :: c in f <==> c in cs && !Holds(t, amount, now, c))
      && (forall i, j :: 0 <= i < j < |f| ==> Rank(f[i]) < Rank(f[j]))
  {
    if cs != [] {
      var rest := cs[1..];
      FailedAmongSpec(t, amount, now, rest);
      var f := FailedAmong(t, amount, now, rest);
      assert forall c :: c in rest ==> Rank(cs[0]) < Rank(c) by {
        assert forall j :: 0 <= j < |rest| ==> rest[j] == cs[j + 1];
      }
      assert forall i :: 0 <= i < |f| ==> f[i] in rest;
    }
  }

  /** The record passes exactly when all five checks hold; the failed list names exactly the failing checks, each once and in dictionary order. */
  lemma ValiditySpec(t: Txn, now: Moment)
    ensures Validity(t, now).None? <==> ComparableAmount(t).None?
    ensures ComparableAmount(t).Some? ==> var a := ComparableAmount(t).value; var f := FailedChecks(t, now).value;
      && (Validity(t, now) == Some(true) <==> forall c :: Holds(t, a, now, c))
      && (forall c :: c in f <==> !Holds(t, a, now, c))
      && (forall i, j :: 0 <= i < j < |f| ==> Rank(f[i]) < Rank(f[j]))
  {
    if ComparableAmount(t).Some? {
      var a := ComparableAmount(t).value;
      FailedAmongSpec(t, a, now, CheckOrder);
      var f := FailedChecks(t, now).value;
      forall c ensures c in CheckOrder {
        assert CheckOrder[Rank(c)] == c;
      }
      if f != [] {
        assert f[0] in f;
      }
    }
  }

  /** An entry of validation_errors; the wall-clock timestamp of the entry is not modelled. */
  datatype ErrorEntry = ErrorEntry(record: Txn, failedChecks: seq<Check>)

  /** The failed lists a validator writes: non-empty and in dictionary order. */
  predicate WellOrdered(f: seq<Check>)
  {
    f != [] && forall i, j :: 0 <= i < j < |f| ==> Rank(f[i]) < Rank(f[j])
  }

  datatype BatchResult = BatchResult(validCount: nat, invalidCount: nat, totalProcessed: nat, validityRate: real)

  /** validate_batch's loop over a prefix: the counts, the entries logged, and whether a record raised (which ends the loop). */
  datatype Run = Run(valid: nat, invalid: nat, logged: seq<ErrorEntry>, raised: bool)

  /** One call of validate_transaction inside the loop. */
  function Step(r: Run, t: Txn, now: Moment): Run
  {
    if r.raised then r
    else match FailedChecks(t, now)
      case None => r.(raised := true)
      case Some(f) =>
        if f == [] then r.(valid := r.valid + 1)
        else r.(invalid := r.invalid + 1, logged := r.logged + [ErrorEntry(t, f)])
  }

  function RunOf(ts: seq<Txn>, now: Moment): Run
  {
    if ts == [] then Run(0, 0, [], false) else Step(RunOf(ts[..|ts| - 1], now), ts[|ts| - 1], now)
  }

  lemma RunSnoc(ts: seq<Txn>, t: Txn, now: Moment)
    ensures RunOf(ts + [t], now) == Step(RunOf(ts, now), t, now)
  {
    assert (ts + [t])[..|ts|] == ts;
  }

  /** Without a raising record every input is counted once, each invalid one logged once with its own failed list, in input order. */
  lemma {:induction false} RunSpec(ts: seq<Txn>, now: Moment)
    ensures var r := RunOf(ts, now);
      && (r.raised <==> exists i :: 0 <= i < |ts| && Validity(ts[i], now).None?)
      && |r.logged| == r.invalid && (!r.raised ==> r.valid + r.invalid == |ts|)
      && (forall e :: e in r.logged ==> IsErrorFor(ts, now, e))
  {
    if ts != [] {
      var init := ts[..|ts| - 1];
      RunSpec(init, now);
      assert forall i :: 0 <= i < |init| ==> init[i] == ts[i];
      var r := RunOf(init, now);
      if r.raised {
        var i :| 0 <= i < |init| && Validity(init[i], now).None?;
        assert Validity(ts[i], now).None?;
      }
      ErrorsForGrow(ts, now);
    }
  }

  /** The entries a record of ts would log, whatever came before it. */
  ghost predicate IsErrorFor(ts: seq<Txn>, now: Moment, e: ErrorEntry)
  {
    exists i :: 0 <= i < |ts| && FailedChecks(ts[i], now) == Some(e.failedChecks) && e.record == ts[i] && e.failedChecks != []
  }

  lemma ErrorsForGrow(ts: seq<Txn>, now: Moment)
    requires ts != []
    ensures forall e :: IsErrorFor(ts[..|ts| - 1], now, e) ==> IsErrorFor(ts, now, e)
    ensures var t := ts[|ts| - 1]; FailedChecks(t, now).Some? && FailedChecks(t, now).value != [] ==> IsErrorFor(ts, now, ErrorEntry(t, FailedChecks(t, now).value))
  {
    var init := ts[..|ts| - 1];
    forall e | IsErrorFor(init, now, e)
      ensures IsErrorFor(ts, now, e)
    {
      var i :| 0 <= i < |init| && FailedChecks(init[i], now) == Some(e.failedChecks) && e.record == init[i] && e.failedChecks != [];
      assert init[i] == ts[i];
    }
    var t := ts[|ts| - 1];
    if FailedChecks(t, now).Some? && FailedChecks(t, now).value != [] {
      assert ts[|ts| - 1] == t;
    }
  }

  /** validate_batch's dictionary for a batch that ran to the end. */
  function BatchOf(r: Run, total: nat): BatchResult
  {
    BatchResult(r.valid, r.invalid, total, if total == 0 then 0.0 else r.valid as real / total as real)
  }

  /** get_validation_report's summary. */
  datatype Summary = Summary(totalChecked: nat, errorsCount: nat, errorRate: real, successRate: real)

  datatype Report = Report(summary: Summary, errorBreakdown: Counter<Check>, sampleErrors: seq<ErrorEntry>)

  /** Bump each listed check once, in order. */
  function BumpAll(c: Counter<Check>, f: seq<Check>): Counter<Check>
    decreases |f|
  {
    if f == [] then c else BumpAll(Bump(c, f[0]), f[1..])
  }

  /** The error_patterns loop. */
  function Patterns(errors: seq<ErrorEntry>): Counter<Check>
  {
    if errors == [] then Empty() else BumpAll(Patterns(errors[..|errors| - 1]), errors[|errors| - 1].failedChecks)
  }

  /** The number of entries whose failed list names c. */
  function Naming(errors: seq<ErrorEntry>, c: Check): nat
  {
    if errors == [] then 0 else Naming(errors[..|errors| - 1], c) + (if c in errors[|errors| - 1].failedChecks then 1 else 0)
  }

  function ReportOf(errors: seq<ErrorEntry>): Report
  {
    var n := |errors|;
    var total := n + n;
    Report(
      Summary(total, n,
        if total > 0 then n as real / total as real else 0.0,
        if total > 0 then 1.0 - n as real / total as real else 1.0),
      Patterns(errors),
      if errors != [] then errors[..if n < 5 then n else 5] else [])
  }

  /** Bumping a list without repeats adds one to each listed check and nothing to the others. */
  lemma {:induction false} BumpAllSpec(c: Counter<Check>, f: seq<Check>)
    requires forall i, j :: 0 <= i < j < |f| ==> Rank(f[i]) < Rank(f[j])
    ensures forall k :: Get(BumpAll(c, f), k) == Get(c, k) + (if k in f then 1 else 0)
    decreases |f|
  {
    if f != [] {
      BumpSpec(c, f[0]);
      BumpAllSpec(Bump(c, f[0]), f[1..]);
      forall k ensures Get(BumpAll(c, f), k) == Get(c, k) + (if k in f then 1 else 0)
      {
        assert f[0] !in f[1..] by {
          assert forall j :: 1 <= j < |f| ==> Rank(f[0]) < Rank(f[j]);
          assert forall j :: 0 <= j < |f| - 1 ==> f[1..][j] == f[j + 1];
        }
      }
    }
  }

  /** error_breakdown[c] is the number of logged entries that name c. */
  lemma {:induction false} PatternsCount(errors: seq<ErrorEntry>)
    requires forall e :: e in errors ==> WellOrdered(e.failedChecks)
    ensures forall k :: Get(Patterns(errors), k) == Naming(errors, k)
  {
    if errors != [] {
      var init := errors[..|errors| - 1];
      assert forall e :: e in init ==> e in errors;
      PatternsCount(init);
      BumpAllSpec(Patterns(init), errors[|errors| - 1].failedChecks);
    }
  }

  /**
   * total_checked counts every entry twice, so the rates are one half as
   * soon as there is an entry, and 0 and 1 before; the sample is the
   * first five entries, or all of them below five.
   */
  lemma ReportSpec(errors: seq<ErrorEntry>)
    requires forall e :: e in errors ==> WellOrdered(e.failedChecks)
    ensures var r := ReportOf(errors);
      && r.summary.totalChecked == 2 * |errors| && r.summary.errorsCount == |errors|
      && (errors != [] ==> r.summary.errorRate == 0.5 && r.summary.successRate == 0.5)
      && (errors == [] ==> r.summary.errorRate == 0.0 && r.summary.successRate == 1.0)
      && (forall k :: Get(r.errorBreakdown, k) == Naming(errors, k))
      && |r.sampleErrors| == (if |errors| < 5 then |errors| else 5)
      && r.sampleErrors == errors[..|r.sampleErrors|]
  {
    PatternsCount(errors);
    if errors != [] {
      Half(|errors|);
    }
  }

  lemma Half(n: nat)
    requires n > 0
    ensures n as real / (n + n) as real == 0.5
  {
    assert (n + n) as real == 2.0 * n as real;
  }

  /**
   * DataValidator: `validation_errors` grows by one entry per invalid
   * record and is never cleared.
   */
  class DataValidator {
    var validationErrors: seq<ErrorEntry>

    /** Every logged list is non-empty and in dictionary order. */
    ghost predicate Valid()
      reads this
    {
      forall e :: e in validationErrors ==> WellOrdered(e.failedChecks)
    }

    constructor ()
      ensures Valid() && validationErrors == []
    {
      validationErrors := [];
    }

    /** validate_transaction: None where building the checks raises; an invalid record appends one entry naming its failed checks. */
    method ValidateTransaction(t: Txn, now: Moment) returns (r: Option<bool>)
      requires Valid()
      modifies this
      ensures Valid()
      ensures r == Validity(t, now)
      ensures validationErrors == old(validationErrors) + (if r == Some(false) then [ErrorEntry(t, FailedChecks(t, now).value)] else [])
    {
      ValiditySpec(t, now);
      var failed := FailedChecks(t, now);
      if failed.None? {
        return None;
      }
      if failed.value != [] {
        validationErrors := validationErrors + [ErrorEntry(t, failed.value)];
        return Some(false);
      }
      return Some(true);
    }

    /** validate_batch: one call per record until one raises; the dictionary when none does. */
    method ValidateBatch(ts: seq<Txn>, now: Moment) returns (r: Option<BatchResult>)
      requires Valid()
      modifies this
      ensures Valid()
      ensures var run := RunOf(ts, now);
        && validationErrors == old(validationErrors) + run.logged
        && (r.None? <==> run.raised)
        && (r.Some? ==> r.value == BatchOf(run, |ts|))
    {
      ghost var start := validationErrors;
      var valid, invalid := 0, 0;
      var i := 0;
      while i < |ts|
        invariant 0 <= i <= |ts| && Valid()
        invariant RunOf(ts[..i], now) == Run(valid, invalid, RunOf(ts[..i], now).logged, false)
        invariant validationErrors == start + RunOf(ts[..i], now).logged
      {
        assert ts[..i + 1][..i] == ts[..i] && ts[..i + 1][i] == ts[i];
        var ok := ValidateTransaction(ts[i], now);
        if ok.None? {
          RaisedStays(ts, i + 1, now);
          return None;
        }
        if ok.value {
          valid := valid + 1;
        } else {
          invalid := invalid + 1;
        }
        i := i + 1;
      }
      assert ts[..i] == ts;
      return Some(BatchResult(valid, invalid, |ts|, if |ts| == 0 then 0.0 else valid as real / |ts| as real));
    }

    function ValidationReport(): Report
      reads this
    {
      ReportOf(validationErrors)
    }
  }

  /** Once a record has raised, later records change nothing. */
  lemma {:induction false} RaisedStays(ts: seq<Txn>, i: nat, now: Moment)
    requires 0 < i <= |ts| && RunOf(ts[..i], now).raised
    ensures RunOf(ts, now) == RunOf(ts[..i], now)
    decreases |ts| - i
  {
    if i < |ts| {
      assert ts[..i + 1][..i] == ts[..i];
      RaisedStays(ts, i + 1, now);
    } else {
      assert ts[..i] == ts;
    }
  }

  // ---------------------------------------------------------------------
  // The five records of test_validator.py.

  /** A clock that is not before noon on 2024-01-15, when all test records are in the past. */
  predicate AfterTestData(now: Moment)
  {
    NotLater(Moment(Date(2024, 1, 15), SecondsOfDay(12, 0, 0), None), now)
  }

  /** A test record's timestamp of 2024-01-15 up to noon passes once the clock is past the test data. */
  lemma MorningHolds(t: Txn, a: real, now: Moment, s: string, h: nat, mi: nat)
    requires Lookup(t, TimestampKey) == Some(Str(s))
    requires |s| == 19 && s[..11] == "2024-01-15 " && s[13] == ':' && s[16..] == ":00"
    requires Two(s, 11) == Some(h) && Two(s, 14) == Some(mi) && h * 60 + mi <= 720 && mi <= 59
    requires AfterTestData(now)
    ensures Holds(t, a, now, ValidTimestamp)
  {
    assert s[..10] == s[..11][..10] && s[10] == s[..11][10];
    Jan15Stamp(s, true, h, mi);
  }

  /** A timestamp whose text starts with a year before 2020 fails, whether or not pandas reads the rest. */
  lemma EarlyYearFails(t: Txn, a: real, now: Moment, s: string)
    requires Lookup(t, TimestampKey) == Some(Str(s))
    requires |s| >= 4 && Two(s, 0).Some? && Two(s, 2).Some? && 100 * Two(s, 0).value + Two(s, 2).value < 2020
    ensures !Holds(t, a, now, ValidTimestamp)
  {
    if PandasDatetime(s).Some? {
      ParsedYear(s, true);
    }
  }

  /** Text that does not start with a digit, such as `invalid_date`, fails. */
  lemma UnreadableFails(t: Txn, a: real, now: Moment, s: string)
    requires Lookup(t, TimestampKey) == Some(Str(s)) && (s == [] || !IsDigit(s[0]))
    ensures !Holds(t, a, now, ValidTimestamp)
  {
    NoLeadingDigit(s, true);
  }

  /** A whole nanosecond count reads back as itself when an int64 other than NaT holds it, and as nothing otherwise. */
  lemma WholeNanos(n: int)
    ensures NumberNanos(n as real) == if -Int64Bound < n < Int64Bound then Some(n) else None
  {
    if n < 0 {
      assert -(n as real) == (-n) as real;
    }
  }

  /**
   * A number naming the instant of a naive moment m passes exactly when m
   * would: its year is 2020 or later, it is not after `now`, and a
   * Timestamp can hold it.
   */
  lemma NumericValid(now: Moment, m: Moment)
    requires ValidDate(m.date) && m.micros < MicrosPerDay && ValidDate(now.date) && now.micros < MicrosPerDay
    ensures NumberStampValid(EpochNanos(m) as real, now) <==> m.date.year >= 2020 && EpochNanos(m) < Int64Bound && NotLater(m, now)
  {
    var n := EpochNanos(m);
    WholeNanos(n);
    YearFrom2020(m);
    Start2020Nanos();
    EpochOrder(m, now);
    if m.date.year >= 2020 {
      assert n as real != 0.0;
    }
  }

  /** NumericValid for the timestamp check of a record. */
  lemma NumericTimestamp(t: Txn, a: real, now: Moment, m: Moment)
    requires ValidDate(m.date) && m.micros < MicrosPerDay && ValidDate(now.date) && now.micros < MicrosPerDay
    requires Lookup(t, TimestampKey) == Some(Num(EpochNanos(m) as real))
    ensures Holds(t, a, now, ValidTimestamp) <==> m.date.year >= 2020 && EpochNanos(m) < Int64Bound && NotLater(m, now)
  {
    NumericValid(now, m);
  }

  /** The same naive instant, spelled as text or given as its nanosecond count, gets the same verdict. */
  lemma SameInstantSameVerdict(s: string, now: Moment)
    requires PandasDatetime(s).Some? && PandasDatetime(s).value.offset.None?
    requires ValidDate(now.date) && now.micros < MicrosPerDay
    ensures TimestampValid(Some(Str(s)), now) == TimestampValid(Some(Num(EpochNanos(PandasDatetime(s).value) as real)), now)
  {
    var m := PandasDatetime(s).value;
    assert s != [] by {
      ParsedYear(s, true);
    }
    NumericValid(now, m);
  }

  /** 1.7e18 nanoseconds is 2023-11-14 22:13:20: valid on 1 January 2024, not a second earlier than it names, and 1.5e18 (2017) never. */
  lemma EpochNumberExamples()
    ensures EpochNanos(Moment(Date(2023, 11, 14), 80000000000, None)) == 1700000000000000000
    ensures TimestampValid(Some(Num(1700000000000000000.0)), Moment(Date(2024, 1, 1), 0, None))
    ensures !TimestampValid(Some(Num(1700000000000000000.0)), Moment(Date(2023, 11, 14), 79999000000, None))
    ensures !TimestampValid(Some(Num(1500000000000000000.0)), Moment(Date(2024, 1, 1), 0, None))
  {
    WholeNanos(1700000000000000000);
    WholeNanos(1500000000000000000);
  }

  /** ListedExactly with the five checks taken one at a time. */
  lemma ListedByCheck(t: Txn, now: Moment, a: real, expected: seq<Check>)
    requires ComparableAmount(t) == Some(a)
    requires forall i, j :: 0 <= i < j < |expected| ==> Rank(expected[i]) < Rank(expected[j])
    requires (AmountPositive in expected) == !Holds(t, a, now, AmountPositive)
    requires (ValidTimestamp in expected) == !Holds(t, a, now, ValidTimestamp)
    requires (AccountNotEmpty in expected) == !Holds(t, a, now, AccountNotEmpty)
    requires (ReasonableAmount in expected) == !Holds(t, a, now, ReasonableAmount)
    requires (ValidCurrency in expected) == !Holds(t, a, now, ValidCurrency)
    ensures FailedChecks(t, now) == Some(expected)
  {
    forall c ensures c in expected <==> !Holds(t, a, now, c)
    {
      match c
      case AmountPositive =>
      case ValidTimestamp =>
      case AccountNotEmpty =>
      case ReasonableAmount =>
      case ValidCurrency =>
    }
    ListedExactly(t, now, expected);
  }

  /** Fields of a test record: account, amount, currency and timestamp text. */
  predicate Fields(t: Txn, account: string, amount: real, currency: string, stamp: string)
  {
    Lookup(t, AccountIdKey) == Some(Str(account)) && Lookup(t, AmountKey) == Some(Num(amount))
    && Lookup(t, CurrencyKey) == Some(Str(currency)) && Lookup(t, TimestampKey) == Some(Str(stamp))
  }

  /** The five checks of a test record, read off its fields. */
  lemma FieldChecks(t: Txn, now: Moment, account: string, amount: real, currency: string, stamp: string)
    requires Fields(t, account, amount, currency, stamp)
    ensures ComparableAmount(t) == Some(amount)
    ensures Holds(t, amount, now, AmountPositive) == (amount > 0.0)
    ensures Holds(t, amount, now, ValidTimestamp) == TextStampValid(stamp, now)
    ensures Holds(t, amount, now, AccountNotEmpty) == (account != "")
    ensures Holds(t, amount, now, ReasonableAmount) == (amount <= AmountLimit)
    ensures Holds(t, amount, now, ValidCurrency) == (currency in Currencies)
  {
  }

  /** The checks other than the timestamp, read off the fields. */
  predicate OtherChecksListed(expected: seq<Check>, account: string, amount: real, currency: string)
  {
    && (forall i, j :: 0 <= i < j < |expected| ==> Rank(expected[i]) < Rank(expected[j]))
    && (AmountPositive in expected <==> amount <= 0.0)
    && (AccountNotEmpty in expected <==> account == "")
    && (ReasonableAmount in expected <==> amount > AmountLimit)
    && (ValidCurrency in expected <==> currency !in Currencies)
  }

  /** A test record stamped 2024-01-15 up to noon fails exactly the checks its other fields fail. */
  lemma MorningRecord(t: Txn, now: Moment, account: string, amount: real, currency: string, stamp: string, h: nat, mi: nat, expected: seq<Check>)
    requires Fields(t, account, amount, currency, stamp) && OtherChecksListed(expected, account, amount, currency) && ValidTimestamp !in expected
    requires |stamp| == 19 && stamp[..11] == "2024-01-15 " && stamp[13] == ':' && stamp[16..] == ":00"
    requires Two(stamp, 11) == Some(h) && Two(stamp, 14) == Some(mi) && h * 60 + mi <= 720 && mi <= 59
    requires AfterTestData(now)
    ensures FailedChecks(t, now) == Some(expected)
  {
    MorningHolds(t, amount, now, stamp, h, mi);
    ListedByCheck(t, now, amount, expected);
  }

  /** A test record whose timestamp fails, because its year is before 2020 or it is not a date at all. */
  lemma BadStampRecord(t: Txn, now: Moment, account: string, amount: real, currency: string, stamp: string, expected: seq<Check>)
    requires Fields(t, account, amount, currency, stamp) && OtherChecksListed(expected, account, amount, currency) && ValidTimestamp in expected
    requires (stamp == [] || !IsDigit(stamp[0]))
      || (|stamp| >= 4 && Two(stamp, 0).Some? && Two(stamp, 2).Some? && 100 * Two(stamp, 0).value + Two(stamp, 2).value < 2020)
    ensures FailedChecks(t, now) == Some(expected)
  {
    if stamp == [] || !IsDigit(stamp[0]) {
      UnreadableFails(t, amount, now, stamp);
    } else {
      EarlyYearFails(t, amount, now, stamp);
    }
    ListedByCheck(t, now, amount, expected);
  }

  lemma Record1(t: Txn, now: Moment)
    requires Fields(t, "ACC123", 100.50, "USD", "2024-01-15 10:30:00") && AfterTestData(now)
    ensures FailedChecks(t, now) == Some([])
  {
    MorningRecord(t, now, "ACC123", 100.50, "USD", "2024-01-15 10:30:00", 10, 30, []);
  }

  lemma Record2(t: Txn, now: Moment)
    requires Fields(t, "ACC456", 250.75, "EUR", "2024-01-15 11:45:00") && AfterTestData(now)
    ensures FailedChecks(t, now) == Some([])
  {
    MorningRecord(t, now, "ACC456", 250.75, "EUR", "2024-01-15 11:45:00", 11, 45, []);
  }

  /** T003: an empty account and a negative amount. */
  lemma Record3(t: Txn, now: Moment)
    requires Fields(t, "", -50.00, "USD", "2024-01-15 12:00:00") && AfterTestData(now)
    ensures FailedChecks(t, now) == Some([AmountPositive, AccountNotEmpty])
  {
    MorningRecord(t, now, "", -50.00, "USD", "2024-01-15 12:00:00", 12, 0, [AmountPositive, AccountNotEmpty]);
  }

  /** T004: a 2019 timestamp, an amount over the limit and an unknown currency. */
  lemma Record4(t: Txn, now: Moment)
    requires Fields(t, "ACC789", 5000000.00, "XYZ", "2019-01-01 00:00:00")
    ensures FailedChecks(t, now) == Some([ValidTimestamp, ReasonableAmount, ValidCurrency])
  {
    var stamp := "2019-01-01 00:00:00";
    assert Two(stamp, 0) == Some(20) && Two(stamp, 2) == Some(19);
    assert "XYZ" != "USD" && "XYZ" != "EUR" && "XYZ" != "GBP";
    BadStampRecord(t, now, "ACC789", 5000000.00, "XYZ", "2019-01-01 00:00:00", [ValidTimestamp, ReasonableAmount, ValidCurrency]);
  }

  /** T005: `invalid_date`. */
  lemma Record5(t: Txn, now: Moment)
    requires Fields(t, "ACC999", 75.25, "USD", "invalid_date")
    ensures FailedChecks(t, now) == Some([ValidTimestamp])
  {
    BadStampRecord(t, now, "ACC999", 75.25, "USD", "invalid_date", [ValidTimestamp]);
  }

  lemma NamingSnoc(errors: seq<ErrorEntry>, e: ErrorEntry, c: Check)
    ensures Naming(errors + [e], c) == Naming(errors, c) + (if c in e.failedChecks then 1 else 0)
  {
    assert (errors + [e])[..|errors|] == errors;
  }

  /**
   * test_validator.py: of the five records two pass and three are logged,
   * so the batch reports a validity rate of 0.4, the report counts six
   * checks with rates of one half, and the breakdown names the timestamp
   * check twice and every other check once.
   */
  lemma TestValidatorRun(t1: Txn, t2: Txn, t3: Txn, t4: Txn, t5: Txn, now: Moment)
    requires Fields(t1, "ACC123", 100.50, "USD", "2024-01-15 10:30:00")
    requires Fields(t2, "ACC456", 250.75, "EUR", "2024-01-15 11:45:00")
    requires Fields(t3, "", -50.00, "USD", "2024-01-15 12:00:00")
    requires Fields(t4, "ACC789", 5000000.00, "XYZ", "2019-01-01 00:00:00")
    requires Fields(t5, "ACC999", 75.25, "USD", "invalid_date")
    requires AfterTestData(now)
    ensures var run := RunOf([t1, t2, t3, t4, t5], now);
      && run == Run(2, 3, [ErrorEntry(t3, [AmountPositive, AccountNotEmpty]),
                          ErrorEntry(t4, [ValidTimestamp, ReasonableAmount, ValidCurrency]),
                          ErrorEntry(t5, [ValidTimestamp])], false)
      && BatchOf(run, 5).validityRate == 0.4
  {
    Record1(t1, now);
    Record2(t2, now);
    Record3(t3, now);
    Record4(t4, now);
    Record5(t5, now);
    var e3 := ErrorEntry(t3, [AmountPositive, AccountNotEmpty]);
    var e4 := ErrorEntry(t4, [ValidTimestamp, ReasonableAmount, ValidCurrency]);
    var e5 := ErrorEntry(t5, [ValidTimestamp]);
    RunSnoc([], t1, now);
    assert [] + [t1] == [t1];
    assert RunOf([t1], now) == Run(1, 0, [], false);
    RunSnoc([t1], t2, now);
    assert [t1] + [t2] == [t1, t2];
    assert RunOf([t1, t2], now) == Run(2, 0, [], false);
    RunSnoc([t1, t2], t3, now);
    assert [t1, t2] + [t3] == [t1, t2, t3];
    assert RunOf([t1, t2, t3], now) == Run(2, 1, [e3], false);
    RunSnoc([t1, t2, t3], t4, now);
    assert [t1, t2, t3] + [t4] == [t1, t2, t3, t4];
    assert RunOf([t1, t2, t3, t4], now) == Run(2, 2, [e3, e4], false);
    RunSnoc([t1, t2, t3, t4], t5, now);
    assert [t1, t2, t3, t4] + [t5] == [t1, t2, t3, t4, t5];
    assert RunOf([t1, t2, t3, t4, t5], now) == Run(2, 3, [e3, e4, e5], false);
  }

  lemma TestValidatorReport(e3: ErrorEntry, e4: ErrorEntry, e5: ErrorEntry)
    requires e3.failedChecks == [AmountPositive, AccountNotEmpty]
    requires e4.failedChecks == [ValidTimestamp, ReasonableAmount, ValidCurrency]
    requires e5.failedChecks == [ValidTimestamp]
    ensures var r := ReportOf([e3, e4, e5]);
      && r.summary == Summary(6, 3, 0.5, 0.5)
      && Get(r.errorBreakdown, ValidTimestamp) == 2
      && Get(r.errorBreakdown, AmountPositive) == 1 && Get(r.errorBreakdown, AccountNotEmpty) == 1
      && Get(r.errorBreakdown, ReasonableAmount) == 1 && Get(r.errorBreakdown, ValidCurrency) == 1
      && r.sampleErrors == [e3, e4, e5]
  {
    var errors := [e3, e4, e5];
    assert forall e :: e in errors ==> WellOrdered(e.failedChecks);
    ReportSpec(errors);
    TestNaming(e3, e4, e5);
  }

  lemma TestNaming(e3: ErrorEntry, e4: ErrorEntry, e5: ErrorEntry)
    requires e3.failedChecks == [AmountPositive, AccountNotEmpty]
    requires e4.failedChecks == [ValidTimestamp, ReasonableAmount, ValidCurrency]
    requires e5.failedChecks == [ValidTimestamp]
    ensures forall c :: Naming([e3, e4, e5], c) == (if c == ValidTimestamp then 2 else 1)
  {
    forall c ensures Naming([e3, e4, e5], c) == (if c == ValidTimestamp then 2 else 1)
    {
      NamingThree(e3, e4, e5, c);
    }
  }

  /** Three entries name a check once for each entry that lists it. */
  lemma NamingThree(e3: ErrorEntry, e4: ErrorEntry, e5: ErrorEntry, c: Check)
    ensures Naming([e3, e4, e5], c)
      == (if c in e3.failedChecks then 1 else 0) + (if c in e4.failedChecks then 1 else 0) + (if c in e5.failedChecks then 1 else 0)
  {
    NamingSnoc([], e3, c);
    NamingSnoc([e3], e4, c);
    NamingSnoc([e3, e4], e5, c);
    assert [] + [e3] == [e3] && [e3] + [e4] == [e3, e4] && [e3, e4] + [e5] == [e3, e4, e5];
  }

  /** Two lists in strict dictionary order with the same checks are the same list. */
  lemma {:induction false} SortedUnique(f: seq<Check>, g: seq<Check>)
    requires forall i, j :: 0 <= i < j < |f| ==> Rank(f[i]) < Rank(f[j])
    requires forall i, j :: 0 <= i < j < |g| ==> Rank(g[i]) < Rank(g[j])
    requires forall c :: c in f <==> c in g
    ensures f == g
  {
    if f != [] {
      assert f[0] in f;
    }
    if g != [] {
      assert g[0] in g;
    }
    if f != [] && g != [] {
      assert f[0] in g && g[0] in f;
      assert Rank(f[0]) == Rank(g[0]);
      assert f[0] == CheckOrder[Rank(f[0])] && g[0] == CheckOrder[Rank(g[0])];
      assert forall c :: c in f[1..] <==> c in f && c != f[0] by {
        assert forall j :: 0 <= j < |f[1..]| ==> f[1..][j] == f[j + 1];
      }
      assert forall c :: c in g[1..] <==> c in g && c != g[0] by {
        assert forall j :: 0 <= j < |g[1..]| ==> g[1..][j] == g[j + 1];
      }
      SortedUnique(f[1..], g[1..]);
      assert f == [f[0]] + f[1..] && g == [g[0]] + g[1..];
    }
  }

  /** A record whose amount compares and whose failing checks are exactly those of `expected` (in dictionary order) logs `expected`. */
  lemma ListedExactly(t: Txn, now: Moment, expected: seq<Check>)
    requires ComparableAmount(t).Some?
    requires forall i, j :: 0 <= i < j < |expected| ==> Rank(expected[i]) < Rank(expected[j])
    requires forall c :: c in expected <==> !Holds(t, ComparableAmount(t).value, now, c)
    ensures FailedChecks(t, now) == Some(expected)
  {
    ValiditySpec(t, now);
    SortedUnique(FailedChecks(t, now).value, expected);
  }
}
