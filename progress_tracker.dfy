/**
 * Per-analysis progress bookkeeping: a job is started, receives step
 * updates that are logged, and is finally marked completed or failed.
 * Operations on an unknown analysis id do nothing. The socket events the
 * tracker sends are not modelled; the clock is the `now` argument.
 */
module Progress {
  import opened Common

  datatype Status = InProgress | Completed | Failed

  /** One entry of a job's append-only message log. */
  datatype Message = Message(step: int, message: string, timestamp: int)

  /** The analysis results stored on completion: field name to rendered value. */
  type Results = map<string, string>

  /**
   * A job record. `results` and `error` are the keys the completion and
   * failure updates add; a job completed and then failed carries both.
   */
  datatype Job = Job(
    startedAt: int,
    currentStep: int,
    totalSteps: int,
    status: Status,
    messages: seq<Message>,
    completedAt: Option<int>,
    results: Option<Results>,
    error: Option<string>)

  /** What a step update reports back. */
  datatype UpdateOutcome =
    | UnknownAnalysis
      /** the percentage that is sent with the progress event */
    | Reported(progress: real)
      /** `total_steps` is 0: the division raises after the step is already recorded */
    | ZeroDivision

  /** The completion percentage of step `step` out of `total`. */
  function Percent(step: int, total: int): (p: real)
    requires total != 0
    ensures p * total as real == step as real * 100.0
  {
    step as real / total as real * 100.0
  }

  /** A step within `0..total` reports a percentage within `0..100`, with the ends at the ends. */
  lemma PercentBounds(step: int, total: int)
    requires 0 <= step <= total && total > 0
    ensures 0.0 <= Percent(step, total) <= 100.0
    ensures step == 0 ==> Percent(step, total) == 0.0
    ensures step == total ==> Percent(step, total) == 100.0
  {
    var p := Percent(step, total);
    assert p == step as real * (100.0 / total as real);
    assert 100.0 / total as real > 0.0;
    assert step as real * (100.0 / total as real) <= total as real * (100.0 / total as real);
  }

  class AnalysisProgressTracker {
    var progressData: map<string, Job>

    constructor ()
      ensures progressData == map[]
    {
      progressData := map[];
    }

    /** Creates, or replaces, the job at step 0, in progress, with an empty log. */
    method StartTracking(analysisId: string, totalSteps: int, now: int)
      modifies this
      ensures progressData == old(progressData)[analysisId := Job(now, 0, totalSteps, InProgress, [], None, None, None)]
    {
      progressData := progressData[analysisId := Job(now, 0, totalSteps, InProgress, [], None, None, None)];
    }

    /**
     * Records `step` as the current step, whatever it was before, and logs
     * exactly one message carrying it; the status is never touched. The
     * percentage is computed after the update, so a job with zero total
     * steps is updated and then reports the division error.
     */
    method UpdateProgress(analysisId: string, step: int, message: string, now: int) returns (r: UpdateOutcome)
      modifies this
      ensures analysisId !in old(progressData) <==> r == UnknownAnalysis
      ensures analysisId !in old(progressData) ==> progressData == old(progressData)
      ensures analysisId in old(progressData) ==>
                var job := old(progressData)[analysisId];
                && progressData == old(progressData)[analysisId := job.(currentStep := step, messages := job.messages + [Message(step, message, now)])]
                && (r == if job.totalSteps == 0 then ZeroDivision else Reported(Percent(step, job.totalSteps)))
    {
      if analysisId !in progressData {
        return UnknownAnalysis;
      }
      var job := progressData[analysisId];
      progressData := progressData[analysisId := job.(currentStep := step, messages := job.messages + [Message(step, message, now)])];
      if job.totalSteps == 0 {
        return ZeroDivision;
      }
      return Reported(step as real / job.totalSteps as real * 100.0);
    }

    /** Marks a known job completed at `now` and stores its results; the log and step stay as they were. */
    method CompleteAnalysis(analysisId: string, results: Results, now: int)
      modifies this
      ensures analysisId !in old(progressData) ==> progressData == old(progressData)
      ensures analysisId in old(progressData) ==>
                progressData == old(progressData)[analysisId := old(progressData)[analysisId].(status := Completed, completedAt := Some(now), results := Some(results))]
    {
      if analysisId in progressData {
        var job := progressData[analysisId];
        progressData := progressData[analysisId := job.(status := Completed, completedAt := Some(now), results := Some(results))];
      }
    }

    /** Marks a known job failed at `now` with the error, whatever its status was, including completed. */
    method FailAnalysis(analysisId: string, error: string, now: int)
      modifies this
      ensures analysisId !in old(progressData) ==> progressData == old(progressData)
      ensures analysisId in old(progressData) ==>
                progressData == old(progressData)[analysisId := old(progressData)[analysisId].(status := Failed, completedAt := Some(now), error := Some(error))]
    {
      if analysisId in progressData {
        var job := progressData[analysisId];
        progressData := progressData[analysisId := job.(status := Failed, completedAt := Some(now), error := Some(error))];
      }
    }

    /** The job's record, or `None` for an id never started. */
    function GetProgress(analysisId: string): (r: Option<Job>)
      reads this
      ensures r.None? <==> analysisId !in progressData
      ensures r.Some? ==> r.value == progressData[analysisId]
    {
      if analysisId in progressData then Some(progressData[analysisId]) else None
    }
  }

  /**
   * A three-step job: two updates log two messages, the status stays in
   * progress, completion marks it completed, and a later failure still
   * overrides it since no state is terminal.
   */
  method CompleteThenFail() returns (logged: nat, half: UpdateOutcome, afterComplete: Status, afterFail: Status, keptResults: bool)
    ensures logged == 2 && half == Reported(200.0 / 3.0)
    ensures afterComplete == Completed && afterFail == Failed && keptResults
  {
    var tracker := new AnalysisProgressTracker();
    tracker.StartTracking("a", 3, 0);
    var first := tracker.UpdateProgress("a", 1, "loaded", 1);
    half := tracker.UpdateProgress("a", 2, "analysed", 2);
    logged := |tracker.progressData["a"].messages|;
    tracker.CompleteAnalysis("a", map["count" := "12"], 3);
    afterComplete := tracker.progressData["a"].status;
    tracker.FailAnalysis("a", "late error", 4);
    afterFail := tracker.progressData["a"].status;
    keptResults := tracker.progressData["a"].results == Some(map["count" := "12"]);
  }

  /** A job started with zero steps still records the update before the division fails. */
  method ZeroStepsStillRecorded() returns (r: UpdateOutcome, step: int)
    ensures r == ZeroDivision && step == 5
  {
    var tracker := new AnalysisProgressTracker();
    tracker.StartTracking("z", 0, 0);
    r := tracker.UpdateProgress("z", 5, "five", 1);
    step := tracker.progressData["z"].currentStep;
  }
}
