// src/scheduler.py: BatchScheduler.run_batch_job, which runs the batch
// processor as a subprocess, records the job and keeps the scheduler's
// statistics and a bounded job history. The subprocess, the clock and
// the JSON file are outside the model: the run's outcome and the clock
// readings are parameters.
module Scheduler {
  import opened Wrappers

  /** How the subprocess came back: with a return code and its output, past the one-hour timeout, or by raising. */
  datatype RunOutcome = Completed(returnCode: int, stdout: string, stderr: string) | TimedOut | Crashed(message: string)

  datatype JobStatus = Running | Success | Failed | Timeout | Error

  /** A job_record. */
  datatype JobRecord = JobRecord(jobId: string, jobType: string, startTime: real, endTime: Option<real>,
                                 durationSeconds: Option<real>, returnCode: Option<int>, status: JobStatus,
                                 output: string, error: string)

  /** scheduler_stats. */
  datatype SchedulerStats = SchedulerStats(jobsExecuted: nat, jobsSucceeded: nat, jobsFailed: nat,
                                           totalExecutionTime: real, lastExecution: Option<real>)

  const TimeoutSeconds := 3600
  const OutputKept := 1000
  const HistoryKept := 100

  /** `s[-n:]`: the last n elements, or all of s when it is shorter. */
  function Last<T>(s: seq<T>, n: nat): seq<T>
  {
    if |s| > n then s[|s| - n..] else s
  }

  /** The kept part is a suffix of exactly min(n, |s|) elements, so a non-empty s keeps its last element when n > 0. */
  lemma LastSpec<T>(s: seq<T>, n: nat)
    ensures |Last(s, n)| == (if |s| > n then n else |s|)
    ensures s == s[..|s| - |Last(s, n)|] + Last(s, n)
    ensures n > 0 && s != [] ==> Last(s, n)[|Last(s, n)| - 1] == s[|s| - 1]
  {
  }

  /** `f"job_{stamp}_{job_type}"`, with stamp the start time written as %Y%m%d_%H%M%S. */
  function JobId(stamp: string, jobType: string): string
  {
    "job_" + stamp + "_" + jobType
  }

  function StatusOf(outcome: RunOutcome): JobStatus
  {
    match outcome
    case Completed(code, _, _) => if code == 0 then Success else Failed
    case TimedOut => Timeout
    case Crashed(_) => Error
  }

  /**
   * The four datetime.now() readings of one run_batch_job, in seconds: the
   * job's start, the one its duration is measured against, the one written
   * as end_time, and the one written as last_execution.
   */
  datatype Readings = Readings(start: real, stopped: real, ended: real, last: real)

  /** A clock that never goes back reads them in this order. */
  predicate InOrder(c: Readings)
  {
    c.start <= c.stopped <= c.ended <= c.last
  }

  /** The record of a finished job, as run_batch_job fills it in. */
  function RecordOf(jobId: string, jobType: string, c: Readings, outcome: RunOutcome): JobRecord
  {
    var r := JobRecord(jobId, jobType, c.start, Some(c.ended), Some(c.stopped - c.start), None, StatusOf(outcome), "", "");
    match outcome
    case Completed(code, out, err) => r.(returnCode := Some(code), output := Last(out, OutputKept), error := err)
    case TimedOut => r.(error := "Job exceeded timeout limit of 3600 seconds")
    case Crashed(message) => r.(error := message)
  }

  /**
   * The four statuses match the four outcomes; only a completed run has a
   * return code, and its stored output is the last 1000 characters of stdout.
   * The duration and end_time come from two readings, so on a clock that
   * never goes back the duration is at most end_time minus start_time.
   */
  lemma RecordOfSpec(jobId: string, jobType: string, c: Readings, outcome: RunOutcome)
    ensures var r := RecordOf(jobId, jobType, c, outcome);
      (r.status == Success <==> outcome.Completed? && outcome.returnCode == 0)
      && (r.status == Failed <==> outcome.Completed? && outcome.returnCode != 0)
      && (r.status == Timeout <==> outcome.TimedOut?)
      && (r.status == Error <==> outcome.Crashed?)
      && r.status != Running
      && (r.returnCode.Some? <==> outcome.Completed?)
      && (outcome.Completed? ==> |r.output| <= OutputKept && outcome.stdout == outcome.stdout[..|outcome.stdout| - |r.output|] + r.output)
      && (!outcome.Completed? ==> r.output == "")
      && r.startTime == c.start && r.endTime.Some? && r.durationSeconds.Some?
      && (InOrder(c) ==> 0.0 <= r.durationSeconds.value <= r.endTime.value - r.startTime)
  {
    if outcome.Completed? {
      LastSpec(outcome.stdout, OutputKept);
    }
  }

  class BatchScheduler {
    var jobHistory: seq<JobRecord>
    var schedulerStats: SchedulerStats

    /** Every executed job either succeeded or failed, and at most 100 records are kept. */
    ghost predicate Valid()
      reads this
    {
      schedulerStats.jobsExecuted == schedulerStats.jobsSucceeded + schedulerStats.jobsFailed
      && |jobHistory| <= HistoryKept
    }

    constructor ()
      ensures Valid() && jobHistory == [] && schedulerStats == SchedulerStats(0, 0, 0, 0.0, None)
    {
      jobHistory := [];
      schedulerStats := SchedulerStats(0, 0, 0, 0.0, None);
    }

    /**
     * run_batch_job: one more job executed, exactly one of succeeded and
     * failed counted, the duration added, and the record appended to the
     * history, of which the last 100 are kept.
     */
    method RunBatchJob(jobType: string, stamp: string, clock: Readings, outcome: RunOutcome) returns (record: JobRecord)
      requires Valid()
      modifies this
      ensures Valid()
      ensures record == RecordOf(JobId(stamp, jobType), jobType, clock, outcome)
      ensures schedulerStats.jobsExecuted == old(schedulerStats.jobsExecuted) + 1
      ensures record.status == Success ==> schedulerStats.jobsSucceeded == old(schedulerStats.jobsSucceeded) + 1
                                           && schedulerStats.jobsFailed == old(schedulerStats.jobsFailed)
      ensures record.status != Success ==> schedulerStats.jobsFailed == old(schedulerStats.jobsFailed) + 1
                                           && schedulerStats.jobsSucceeded == old(schedulerStats.jobsSucceeded)
      ensures schedulerStats.totalExecutionTime == old(schedulerStats.totalExecutionTime) + (clock.stopped - clock.start)
      ensures schedulerStats.lastExecution == Some(clock.last)
      ensures jobHistory == Last(old(jobHistory) + [record], HistoryKept)
    {
      var jobId := JobId(stamp, jobType);
      record := JobRecord(jobId, jobType, clock.start, None, None, None, Running, "", "");
      var duration := clock.stopped - clock.start;
      var stats := schedulerStats;
      match outcome {
        case Completed(code, out, err) =>
          record := record.(endTime := Some(clock.ended), durationSeconds := Some(duration), returnCode := Some(code),
                            output := Last(out, OutputKept), error := err);
          if code == 0 {
            record := record.(status := Success);
            stats := stats.(jobsSucceeded := stats.jobsSucceeded + 1);
          } else {
            record := record.(status := Failed);
            stats := stats.(jobsFailed := stats.jobsFailed + 1);
          }
        case TimedOut =>
          record := record.(endTime := Some(clock.ended), durationSeconds := Some(duration), status := Timeout,
                            error := "Job exceeded timeout limit of 3600 seconds");
          stats := stats.(jobsFailed := stats.jobsFailed + 1);
        case Crashed(message) =>
          record := record.(endTime := Some(clock.ended), durationSeconds := Some(duration), status := Error, error := message);
          stats := stats.(jobsFailed := stats.jobsFailed + 1);
      }
      schedulerStats := stats.(jobsExecuted := stats.jobsExecuted + 1,
                               totalExecutionTime := stats.totalExecutionTime + duration,
                               lastExecution := Some(clock.last));
      jobHistory := jobHistory + [record];
      if |jobHistory| > HistoryKept {
        jobHistory := jobHistory[|jobHistory| - HistoryKept..];
      }
    }
  }

  /** After any run the newest record is last in the history, and the history never holds more than 100 records. */
  lemma HistoryKeepsNewest(h: seq<JobRecord>, record: JobRecord)
    requires |h| <= HistoryKept
    ensures var k := Last(h + [record], HistoryKept);
      |k| <= HistoryKept && k[|k| - 1] == record
      && (|h| < HistoryKept ==> k == h + [record])
      && (|h| == HistoryKept ==> k == h[1..] + [record])
  {
    LastSpec(h + [record], HistoryKept);
  }
}
