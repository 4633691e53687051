/** The "volume up" report job: a volume-breakout factor over the top-volume stocks,
    screened every weekday evening and reported by email. */
module VolUpReportJob {
  import opened JobRunner

  /** Error emails are headed `report_vol_up error`; candidates go to the watchlist group `tech`. */
  const VOL_UP_JOB: Job := Job("report_vol_up", "tech")

  /** `report_vol_up`: the retry loop run for the volume-up job over the given passes. */
  method ReportVolUp(attempts: seq<Attempt>)
    returns (completed: bool, sent: seq<Notification>, registered: seq<Registration>,
             logged: seq<LogEntry>, slept: seq<nat>)
    ensures Effects(sent, registered, logged, slept) == LoopEffects(VOL_UP_JOB, attempts)
    ensures completed == Completes(attempts)
    ensures CountReports(sent) == (if completed then 1 else 0)
    ensures completed ==> |sent| > 0 && sent[|sent| - 1].Report?
    ensures forall n :: n in sent ==> !n.Escalation?
    ensures |slept| == Failures(attempts)
    ensures forall i :: 0 <= i < |slept| ==> slept[i] == COOL_DOWN_SECONDS
    ensures forall r :: r in registered ==> r.group == "tech" && r.entityType == "stock"
  {
    var runner := new Runner(VOL_UP_JOB);
    var passes;
    completed, passes := runner.Run(attempts);
    ghost var effects := LoopEffects(VOL_UP_JOB, attempts);
    ThenNoEffects(effects);
    sent, registered, logged, slept := runner.sent, runner.registered, runner.logged, runner.slept;
    assert Effects(sent, registered, logged, slept) == effects;
    RunSummary(VOL_UP_JOB, attempts, effects);
  }

  /** A registration failure in the volume-up job: one `report_vol_up error` email, then the
      report; the pass is not retried, so the passes that would follow have no effect. */
  lemma RegistrationFailureIsolated(a: Attempt, rest: seq<Attempt>)
    requires a.selection.Ok? && a.selection.value.longStocks != []
    requires a.stocks.Ok? && a.registration.Some? && a.infos.Ok?
    ensures Passes([a] + rest) == 1 && Failures([a] + rest) == 0
    ensures LoopEffects(VOL_UP_JOB, [a] + rest) == LoopEffects(VOL_UP_JOB, [a])
    ensures LoopEffects(VOL_UP_JOB, [a] + rest).sent ==
              [SideEffectError("report_vol_up error:" + a.registration.value),
               Report(a.selection.value.targetDate, ReportBody.ComposeBody(true, a.infos.value))]
    ensures LoopEffects(VOL_UP_JOB, [a] + rest).slept == []
  {
    RegistrationFailureEndsLoop(VOL_UP_JOB, a, rest);
    RegistrationFailureEndsLoop(VOL_UP_JOB, a, []);
    assert [a] + [] == [a];
    assert VOL_UP_JOB.name + " error:" == "report_vol_up error:";
  }
}
