// src/error_handler.py: an error counter per error type, a strategy per
// error type, and a retry loop with exponential backoff. Logging, the
// clock and time.sleep are left out; the sleeps are recorded as `waits`.
module ErrorHandling {
  import opened Wrappers
  import opened Counters

  /** What handle_error does with an error type. */
  datatype Strategy = RetryTransient | ContinueData | StopCritical | ContinueDefault

  function StrategyOf(errorType: string): (s: Strategy)
    ensures s == RetryTransient <==> errorType in {"network_error", "timeout_error", "database_connection", "processing_error"}
    ensures s == ContinueData <==> errorType in {"data_validation_error", "business_rule_violation"}
    ensures s == StopCritical <==> errorType in {"file_not_found", "configuration_error"}
  {
    if errorType in ["network_error", "timeout_error", "database_connection", "processing_error"] then RetryTransient
    else if errorType in ["data_validation_error", "business_rule_violation"] then ContinueData
    else if errorType in ["file_not_found", "configuration_error"] then StopCritical
    else ContinueDefault
  }

  /** handle_error's outcome: `return True`, `return None`, the RuntimeError, or what the retry loop returned (None when every attempt raised). */
  datatype Outcome<R> = ReturnedTrue | ReturnedNone | RaisedCritical | Retried(result: Option<R>)

  /** An operation as the results of its successive calls: None where the call raises. */
  type Operation<R> = nat -> Option<R>

  function Pow2(k: nat): (p: nat)
    ensures p >= 1
  {
    if k == 0 then 1 else 2 * Pow2(k - 1)
  }

  /** The waits before attempts 0..n-1: 1, 2, 4, ... seconds. */
  function Backoff(n: nat): (w: seq<nat>)
    ensures |w| == n && forall k :: 0 <= k < n ==> w[k] == Pow2(k)
  {
    if n == 0 then [] else Backoff(n - 1) + [Pow2(n - 1)]
  }

  /** The number of calls before the first that returns, at most n. */
  function Failures<R>(op: Operation<R>, n: nat): (k: nat)
    ensures k <= n
    ensures forall j :: 0 <= j < k ==> op(j).None?
    ensures k < n ==> op(k).Some?
  {
    if n == 0 then 0
    else
      var k := Failures(op, n - 1);
      if k < n - 1 || op(n - 1).Some? then k else n
  }

  /** The failure count is determined by the calls' outcomes: any k with the three properties is Failures(op, n). */
  lemma FailuresUnique<R>(op: Operation<R>, n: nat, k: nat)
    requires k <= n && (forall j :: 0 <= j < k ==> op(j).None?) && (k < n ==> op(k).Some?)
    ensures k == Failures(op, n)
  {
  }

  lemma FailuresStep<R>(op: Operation<R>, k: nat)
    requires Failures(op, k) == k && op(k).None?
    ensures Failures(op, k + 1) == k + 1
  {
  }

  /** A first success at call k < n fixes the count at k. */
  lemma FailuresAt<R>(op: Operation<R>, n: nat, k: nat)
    requires k < n && Failures(op, k) == k && op(k).Some?
    ensures Failures(op, n) == k
  {
    FailuresUnique(op, n, k);
  }

  /** What retry_operation returns: the first successful call's result, or None after n failures. */
  function RetryResult<R>(op: Operation<R>, n: nat): Option<R>
  {
    var k := Failures(op, n);
    if k < n then op(k) else None
  }

  /** The number of calls retry_operation makes, each preceded by a wait. */
  function Attempts<R>(op: Operation<R>, n: nat): (a: nat)
    ensures a <= n
  {
    var k := Failures(op, n);
    if k < n then k + 1 else n
  }

  /**
   * retry_operation's loop, on the waits and the retry counter it updates:
   * nothing can observe the handler between two calls.
   */
  method RetryLoop<R>(op: Operation<R>, errorType: string, maxRetries: nat, waits: seq<nat>, retryAttempts: Counter<string>)
    returns (r: Option<R>, slept: seq<nat>, failed: Counter<string>)
    ensures r == RetryResult(op, maxRetries)
    ensures slept == waits + Backoff(Attempts(op, maxRetries))
    ensures failed == BumpMany(retryAttempts, errorType, Failures(op, maxRetries))
  {
    var attempt := 0;
    slept, failed := waits, retryAttempts;
    while attempt < maxRetries
      invariant attempt <= maxRetries && Failures(op, attempt) == attempt
      invariant slept == waits + Backoff(attempt)
      invariant failed == BumpMany(retryAttempts, errorType, attempt)
    {
      slept := slept + [Pow2(attempt)];
      var result := op(attempt);
      if result.Some? {
        FailuresAt(op, maxRetries, attempt);
        return result, slept, failed;
      }
      FailuresStep(op, attempt);
      BumpManyStep(retryAttempts, errorType, attempt);
      failed := Bump(failed, errorType);
      attempt := attempt + 1;
    }
    r := None;
  }

  datatype ErrorReport = ErrorReport(totalErrors: nat, uniqueErrorTypes: nat, totalRetryAttempts: nat,
                                     mostCommonError: Option<string>, successRate: real)

  const MaxRetries: nat := 3

  class ErrorHandler {
    var errorCount: nat
    var errorTypes: Counter<string>
    var retryAttempts: Counter<string>
    /** The sleeps so far, in seconds. */
    var waits: seq<nat>

    /** Every error bumped errorCount and its type's counter once. */
    ghost predicate Valid()
      reads this
    {
      Counters.Valid(errorTypes) && Counters.Valid(retryAttempts) && errorCount == Total(errorTypes)
    }

    constructor ()
      ensures Valid() && errorCount == 0 && errorTypes == Empty<string>() && retryAttempts == Empty<string>() && waits == []
    {
      errorCount := 0;
      errorTypes := Empty<string>();
      retryAttempts := Empty<string>();
      waits := [];
    }

    /**
     * retry_operation: at most maxRetries calls, each after a wait of 2^k
     * seconds (the first call included); every failed call bumps
     * retryAttempts[errorType]; the first result is returned.
     */
    method RetryOperation<R>(op: Operation<R>, errorType: string, maxRetries: nat) returns (r: Option<R>)
      requires Valid()
      modifies this
      ensures Valid()
      ensures r == RetryResult(op, maxRetries)
      ensures waits == old(waits) + Backoff(Attempts(op, maxRetries))
      ensures retryAttempts == BumpMany(old(retryAttempts), errorType, Failures(op, maxRetries))
      ensures errorCount == old(errorCount) && errorTypes == old(errorTypes)
    {
      var slept, failed;
      r, slept, failed := RetryLoop(op, errorType, maxRetries, waits, retryAttempts);
      BumpManySpec(retryAttempts, errorType, Failures(op, maxRetries));
      waits, retryAttempts := slept, failed;
    }

    /** The first two lines of handle_error. */
    method CountError(errorType: string)
      requires Valid()
      modifies this
      ensures Valid()
      ensures errorCount == old(errorCount) + 1 && errorTypes == Bump(old(errorTypes), errorType)
      ensures retryAttempts == old(retryAttempts) && waits == old(waits)
    {
      BumpTotal(errorTypes, errorType);
      BumpSpec(errorTypes, errorType);
      errorCount := errorCount + 1;
      errorTypes := Bump(errorTypes, errorType);
    }

    /**
     * handle_error: the error is counted first; a transient error retries
     * the operation when one is given, a data error returns None, a
     * critical one raises, anything else returns True.
     */
    method HandleError<R>(errorType: string, operation: Option<Operation<R>>) returns (outcome: Outcome<R>)
      requires Valid()
      modifies this
      ensures Valid()
      ensures errorCount == old(errorCount) + 1 && errorTypes == Bump(old(errorTypes), errorType)
      ensures match StrategyOf(errorType)
        case RetryTransient =>
          if operation.Some? then
            && outcome == Retried(RetryResult(operation.value, MaxRetries))
            && waits == old(waits) + Backoff(Attempts(operation.value, MaxRetries))
            && retryAttempts == BumpMany(old(retryAttempts), errorType, Failures(operation.value, MaxRetries))
          else outcome == ReturnedTrue && waits == old(waits) && retryAttempts == old(retryAttempts)
        case ContinueData => outcome == ReturnedNone && waits == old(waits) && retryAttempts == old(retryAttempts)
        case StopCritical => outcome == RaisedCritical && waits == old(waits) && retryAttempts == old(retryAttempts)
        case ContinueDefault => outcome == ReturnedTrue && waits == old(waits) && retryAttempts == old(retryAttempts)
    {
      CountError(errorType);
      match StrategyOf(errorType)
      case RetryTransient =>
        if operation.Some? {
          var r := RetryOperation(operation.value, errorType, MaxRetries);
          outcome := Retried(r);
        } else {
          outcome := ReturnedTrue;
        }
      case ContinueData =>
        outcome := ReturnedNone;
      case StopCritical =>
        outcome := RaisedCritical;
      case ContinueDefault =>
        outcome := ReturnedTrue;
    }

    /** calculate_success_rate: the share of retried types with a positive count. */
    function SuccessRate(): real
      reads this
    {
      if retryAttempts.counts == map[] then 1.0
      else
        var total := |retryAttempts.order|;
        if total > 0 then (CountPositive(retryAttempts.order, retryAttempts) as real) / (total as real) else 1.0
    }

    /** get_error_report, without the two breakdown dicts (they are errorTypes and retryAttempts). */
    function Report(): ErrorReport
      reads this
    {
      ErrorReport(errorCount, |errorTypes.order|, Total(retryAttempts), MostCommon(errorTypes), SuccessRate())
    }
  }

  /**
   * Only failed calls create a key in retryAttempts, so every stored count is
   * at least 1 and calculate_success_rate is always 1.0.
   */
  lemma SuccessRateAlwaysOne(h: ErrorHandler)
    requires h.Valid()
    ensures h.SuccessRate() == 1.0
  {
    var c := h.retryAttempts;
    if c.counts != map[] && |c.order| > 0 {
      AllPositive(c.order, c);
      SelfDivide(|c.order|);
    }
  }

  lemma SelfDivide(n: nat)
    requires n > 0
    ensures (n as real) / (n as real) == 1.0
  {
  }

  /**
   * The report: total_errors counts every handled error, unique_error_types
   * the distinct types, and most_common_error is None exactly when no error
   * was handled; otherwise it is the first type, in order of first
   * occurrence, with the largest count.
   */
  lemma ReportFacts(h: ErrorHandler)
    requires h.Valid()
    ensures var r := h.Report();
      && r.totalErrors == Total(h.errorTypes)
      && r.uniqueErrorTypes == |h.errorTypes.counts.Keys|
      && (r.mostCommonError.None? <==> h.errorCount == 0)
      && (r.mostCommonError.Some? ==> var m := r.mostCommonError.value;
            m in h.errorTypes.counts && forall t :: t in h.errorTypes.counts ==> h.errorTypes.counts[t] <= h.errorTypes.counts[m])
      && r.successRate == 1.0
  {
    var c := h.errorTypes;
    TotalZero(c.order, c);
    DistinctKeys(c);
    if c.order != [] {
      ArgMaxSpec(c.order, c);
      forall t | t in c.counts
        ensures c.counts[t] <= Get(c, c.order[ArgMax(c.order, c)])
      {
        var j :| 0 <= j < |c.order| && c.order[j] == t;
      }
    }
    SuccessRateAlwaysOne(h);
  }

  /** The keys are as many as the distinct insertion order. */
  lemma DistinctKeys(c: Counter<string>)
    requires Counters.Valid(c)
    ensures |c.counts.Keys| == |c.order|
  {
    DistinctCard(c.order);
    assert c.counts.Keys == set k | k in c.order;
  }

  lemma {:induction false} DistinctCard(s: seq<string>)
    requires Distinct(s)
    ensures |set k | k in s| == |s|
  {
    if s != [] {
      var init := s[..|s| - 1];
      assert Distinct(init);
      DistinctCard(init);
      assert (set k | k in s) == (set k | k in init) + {s[|s| - 1]};
      assert s[|s| - 1] !in init;
    }
  }

  /** An operation that raises twice and then returns a value is retried twice, waiting 1, 2 and 4 seconds. */
  lemma TwoFailuresThenSuccess<R>(op: Operation<R>, x: R)
    requires op(0).None? && op(1).None? && op(2) == Some(x)
    ensures Failures(op, MaxRetries) == 2 && RetryResult(op, MaxRetries) == Some(x)
    ensures Backoff(Attempts(op, MaxRetries)) == [1, 2, 4]
  {
    FailuresUnique(op, MaxRetries, 2);
  }

  /** An operation that always raises makes three calls and returns None. */
  lemma AlwaysFails<R>(op: Operation<R>)
    requires forall k :: op(k).None?
    ensures Failures(op, MaxRetries) == 3 && RetryResult(op, MaxRetries) == None && Attempts(op, MaxRetries) == 3
  {
  }

  /**
   * The handler's own walkthrough raises three distinct types once each: the
   * first is reported as the most common.
   */
  lemma ThreeTypesOnce(a: string, b: string, c: string)
    requires a != b && a != c && b != c
    ensures var e := Bump(Bump(Bump(Empty<string>(), a), b), c);
      |e.order| == 3 && Total(e) == 3 && MostCommon(e) == Some(a)
  {
    ThreeBumps(a, b, c);
    OnceEach(Bump(Bump(Bump(Empty<string>(), a), b), c), a, b, c);
  }

  lemma ThreeBumps(a: string, b: string, c: string)
    requires a != b && a != c && b != c
    ensures var e := Bump(Bump(Bump(Empty<string>(), a), b), c);
      e.order == [a, b, c] && Get(e, a) == 1 && Get(e, b) == 1 && Get(e, c) == 1
  {
    var e1 := Bump(Empty<string>(), a);
    var e2 := Bump(e1, b);
    BumpSpec(e2, c);
    BumpSpec(e1, b);
    BumpSpec(Empty<string>(), a);
  }

  lemma OnceEach(e: Counter<string>, a: string, b: string, c: string)
    requires e.order == [a, b, c] && Get(e, a) == 1 && Get(e, b) == 1 && Get(e, c) == 1
    ensures Total(e) == 3 && MostCommon(e) == Some(a)
  {
    assert [a, b, c][..2] == [a, b] && [a, b][..1] == [a] && [a][..0] == [];
    assert ArgMax([a, b, c], e) == 0;
    assert SumOver([a], e) == 1;
    assert SumOver([a, b], e) == SumOver([a], e) + Get(e, b);
    assert SumOver([a, b, c], e) == SumOver([a, b], e) + Get(e, c);
  }

  /** Its transient failure is retried twice: two retry attempts on one type. */
  lemma TwoRetries(b: string)
    ensures var t := BumpMany(Empty<string>(), b, 2); Total(t) == 2 && t.order == [b]
  {
    var t1 := Bump(Empty<string>(), b);
    var t := Bump(t1, b);
    BumpManyStep(Empty<string>(), b, 0);
    BumpManyStep(Empty<string>(), b, 1);
    assert t1.order == [b] && Get(t1, b) == 1;
    assert t.order == [b] && Get(t, b) == 2;
    assert [b][..0] == [];
    assert SumOver([b], t) == SumOver([], t) + Get(t, b);
  }

  lemma NamedStrategies()
    ensures StrategyOf("data_validation_error") == ContinueData
    ensures StrategyOf("network_error") == RetryTransient
    ensures StrategyOf("file_not_found") == StopCritical
  {
  }
}
