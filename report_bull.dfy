/** The "bull" report job: a MACD factor narrowed by a moving-average bull signal and a
    turnover floor, screened every weekday evening and reported by email. */
module BullReportJob {
  import opened JobRunner

  /** Error emails are headed `report_bull error`; candidates go to the watchlist group `bull`. */
  const BULL_JOB: Job := Job("report_bull", "bull")

  /** Turnover a row must exceed to keep its signal. */
  const TURNOVER_THRESHOLD: int := 400000000

  /** One (entity, timestamp) row of the factor frame after the moving-average transformer:
      the base MACD filter, the transformer's `bull` column and the day's turnover. */
  datatype FactorRow = FactorRow(entityId: string, timestamp: string, filterResult: bool, bull: bool, turnover: int)

  /** One row of the result frame: the single `filter_result` column, on the same index. */
  datatype ResultRow = ResultRow(entityId: string, timestamp: string, filterResult: bool)

  /** The row-wise `filter_result & bull & (turnover > 400000000)` of `compute_result`. */
  function ResultFrame(frame: seq<FactorRow>): (result: seq<ResultRow>)
    ensures |result| == |frame|
    ensures forall i :: 0 <= i < |frame| ==>
              result[i].entityId == frame[i].entityId && result[i].timestamp == frame[i].timestamp
    ensures forall i :: 0 <= i < |frame| ==>
              (result[i].filterResult <==>
                 frame[i].filterResult && frame[i].bull && frame[i].turnover > TURNOVER_THRESHOLD)
    decreases |frame|
  {
    if frame == [] then []
    else
      var row := frame[0];
      [ResultRow(row.entityId, row.timestamp, row.filterResult && row.bull && row.turnover > TURNOVER_THRESHOLD)]
        + ResultFrame(frame[1..])
  }

  /** The factor's two frames, which `compute_result` reassigns. */
  class BullAndUpFactor {
    var factorDf: seq<FactorRow>
    var resultDf: seq<ResultRow>

    constructor ()
      ensures factorDf == [] && resultDf == []
    {
      factorDf, resultDf := [], [];
    }

    /** `compute_result`: `transformed` is the MACD factor frame after the moving-average
        transformer has added its `bull` column; the factor keeps it and derives the result. */
    method ComputeResult(transformed: seq<FactorRow>)
      modifies this
      ensures factorDf == transformed
      ensures resultDf == ResultFrame(transformed)
    {
      factorDf := transformed;
      resultDf := ResultFrame(factorDf);
    }
  }

  /** `report_bull`: the retry loop run for the bull job over the given passes. */
  method ReportBull(attempts: seq<Attempt>)
    returns (completed: bool, sent: seq<Notification>, registered: seq<Registration>,
             logged: seq<LogEntry>, slept: seq<nat>)
    ensures Effects(sent, registered, logged, slept) == LoopEffects(BULL_JOB, attempts)
    ensures completed == Completes(attempts)
    ensures CountReports(sent) == (if completed then 1 else 0)
    ensures completed ==> |sent| > 0 && sent[|sent| - 1].Report?
    ensures forall n :: n in sent ==> !n.Escalation?
    ensures |slept| == Failures(attempts)
    ensures forall i :: 0 <= i < |slept| ==> slept[i] == COOL_DOWN_SECONDS
    ensures forall r :: r in registered ==> r.group == "bull" && r.entityType == "stock"
  {
    var runner := new Runner(BULL_JOB);
    var passes;
    completed, passes := runner.Run(attempts);
    ghost var effects := LoopEffects(BULL_JOB, attempts);
    ThenNoEffects(effects);
    sent, registered, logged, slept := runner.sent, runner.registered, runner.logged, runner.slept;
    assert Effects(sent, registered, logged, slept) == effects;
    RunSummary(BULL_JOB, attempts, effects);
  }
}
