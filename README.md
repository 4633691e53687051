# zvt report jobs: retry loop, report body and bull filter

This project models the two scheduled screening jobs of zvt's examples, `report_bull` and
`report_vol_up`. Each weekday evening a job does the following:
- It finds the latest trading date.
- It narrows the stock universe to the top-volume stocks.
- It runs a target selector over one factor and takes the stocks with an open long signal.
- It registers those stocks in a watchlist group.
- It emails a report to the operator.

The whole attempt sits in a `while True` loop. A failing attempt is logged, followed by a
sleep of 180 seconds, and retried. A failing watchlist registration is caught on the spot and
reported in an error email of its own. The report is still sent afterwards.

Both jobs implement the loop the same way, so the model states it once:
- `ReportBody` (report_body.dfy) composes the report body: `'no targets'`, or the info lines
  joined by `'\n'` with one more `'\n'` at the end. It also proves that a reader who splits the
  body into lines gets the info lines back (one empty line when there are none).
- `JobRunner` (job_runner.dfy) holds the loop. Every external call is replaced by the answer it
  gave. These answers make up an `Attempt`: the selection, the entity lookup, the registration
  outcome and the info lines. A finite sequence of attempts drives the loop.
  - `TryBlock`, `ExceptBlock` and `LoopEffects` are pure functions. They say what one `try`
    block, one `except` block and the whole loop do to the world. The effects are the emails
    sent, the registrations requested, the log lines and the sleeps, each channel in its own order.
  - The `Runner` class runs the loop step by step over the fields `sent`, `registered`,
    `logged`, `slept` and `errorCount`. Its methods are proved against those functions.
  - Three helpers carry the source's small expressions: `ReportBody.Join` is Python's
    `sep.join(parts)`, `JobRunner.Codes` is the list of the fetched stocks' codes handed to the
    watchlist, and `JobRunner.ErrorText` is the `'<job> error:<e>'` text of the error emails and
    of the exception log line.
- `BullReportJob` (report_bull.dfy) fixes the job name `report_bull` and the group `bull`. It also
  models `BullAndUpFactor.compute_result`: per row, the result is the base MACD filter AND the
  transformer's `bull` column AND turnover above 400000000.
- `VolUpReportJob` (report_vol_up.dfy) fixes the job name `report_vol_up` and the group `tech`.

## The escalation that never fires

The `except` block holds a check, `if error_count == 10:` (examples/reports/report_bull.py:90,
examples/reports/report_vol_up.py:83). If `error_count` counted the failures, the check would send an
escalation email, `'<job> error:<e>'`, on the tenth one. But `error_count = 0` stands at the top of the loop body
(examples/reports/report_bull.py:38, examples/reports/report_vol_up.py:28). The `except` block
therefore always raises the count from 0 to 1 before the check, and the check always sees 1.

The model follows the code:
- `ExceptBlock` escalates exactly when the count it receives is 9.
- `LoopEffects` always hands it 0, as `Runner.Run` does with its reset of `errorCount` on every pass.
- `NeverEscalates` and `AlwaysFailingRetriesForever` prove the consequences: no escalation
  email is ever sent, and a pipeline that keeps failing is retried on every pass. There is one
  sleep per failed attempt and no report.

## Model

| member | source | states |
|---|---|---|
| `ReportBody.ComposeBody` | examples/reports/report_bull.py:64-79 | With no targets the body is exactly `no targets`. With targets it is every info line followed by its own `'\n'` (just `"\n"` when there are no info lines). It always ends in `'\n'`, so it never equals `no targets`. |
| `ReportBody.JoinTerminates` | examples/reports/report_bull.py:79 | `'\n'.join(lines) + '\n'` equals the lines each followed by `'\n'`, for every list of lines. |
| `ReportBody.BodyLines` | examples/reports/report_vol_up.py:71-72 | Splitting a body with targets at its `'\n'`s gives back exactly the info lines (one empty line when there are none), provided no info line contains `'\n'`. |
| `JobRunner.MessageBlock` | examples/reports/report_bull.py:64-79 | Composing the message fails iff there are targets and the lookup or the info formatting fails. Without targets, or when the lookup fails, it has no effects. With targets and a successful lookup, it sends the error email `'<job> error:<e>'` exactly when the registration failed, whatever the info formatting then does, and nothing else. It registers at most once, with the job's group and entity type `stock`, and neither logs nor sleeps. |
| `JobRunner.TryBlock` | examples/reports/report_bull.py:41-85 | A `try` block raises iff the selection fails, or there are targets and the lookup or the info formatting fails. The watchlist registration plays no part. A completed block sends exactly one report, as its last email. A raising block sends only side-effect error emails. A block never sleeps. It registers at most once, with the job's group and entity type `stock`. |
| `JobRunner.PassLogsItsMessage` | examples/reports/report_bull.py:64-83 | A `try` block that raises logs nothing. One that completes logs exactly one info line, the body of the report it sends last. |
| `JobRunner.PassRaisesFirstFailure` | examples/reports/report_bull.py:41-79 | A failing `try` block raises the exception of the first external call that failed: the selection, else (with targets) the entity lookup, else the info formatting. |
| `JobRunner.CompletedReport` | examples/reports/report_bull.py:64-83 | The last email of a completed block is the report dated with the target date and carrying `ComposeBody` of the info lines, or `no targets` when there are no targets. |
| `JobRunner.LoopEffects` | examples/reports/report_bull.py:37-92 | The `while True` loop: a `try` block that completes ends the loop with its effects; one that raises is followed by `ExceptBlock` with count 0 (the reset at the top of the pass) and the loop goes round again. Each pass sleeps at most once and registers at most once. |
| `JobRunner.ExceptBlock` | examples/reports/report_bull.py:86-92 | An `except` block logs `'<job> error:<e>'`, sleeps 180 s and sends no report. It escalates iff the incremented count equals 10, and then sends only that one escalation, with body `'<job> error:<e>'`. |
| `JobRunner.FirstSuccessEndsLoop` | examples/reports/report_bull.py:83-85 | If attempt k is the first to succeed, the loop makes k+1 passes, k of them failed, and attempts after k have no effect. |
| `JobRunner.RunEndsWithFirstReport` | examples/reports/report_bull.py:83-85 | If attempt k is the first to succeed, the run's last email is the report that attempt k's `try` block sends last. |
| `JobRunner.PassesAreFailuresAndSuccess` | examples/reports/report_bull.py:37-92 | The loop's passes are its failed passes plus one more exactly when some attempt succeeds. |
| `JobRunner.OneExceptionLogPerFailure` | examples/reports/report_bull.py:86-87 | The run's log holds exactly one exception entry per failed pass. |
| `JobRunner.CompletedPassEndsLoop` | examples/reports/report_bull.py:83-85 | A pass that completes is the loop's last: the loop's effects are that pass's, and it makes one pass. |
| `JobRunner.NeverEscalates` | examples/reports/report_bull.py:38-92 | Because `error_count` is reset on every pass, no run of the loop ever sends an escalation email. |
| `JobRunner.OneReportPerRun` | examples/reports/report_bull.py:36-92 | A run sends exactly one report if some attempt succeeds, and none otherwise. When sent, the report is the last email of the run. |
| `JobRunner.OneSleepPerFailure` | examples/reports/report_bull.py:86-89 | The run sleeps once per failed pass, and each sleep is 180 s. |
| `JobRunner.RegistrationsUseJobGroup` | examples/reports/report_bull.py:71-73 | Every registration a run requests is for entity type `stock` under the job's own group. |
| `JobRunner.RunSummary` | examples/reports/report_bull.py:36-92 | Every run sends one report iff some pass succeeds, as its last email, never escalates, sleeps 180 s once per failed pass, and registers only under the job's group. |
| `JobRunner.AlwaysFailingRetriesForever` | examples/reports/report_bull.py:37-92 | If every attempt fails, the run sends no report and no escalation, only side-effect error emails. It sleeps once per attempt. |
| `JobRunner.NoTargetsReport` | examples/reports/report_bull.py:64-66 | With no long targets the pass succeeds. It sends only the report with body `no targets`, registers nothing and sends no side-effect email. |
| `JobRunner.RegistrationFailureIsolated` | examples/reports/report_bull.py:71-85 | A failing registration on an otherwise good pass sends one error email, then the report with the composed body, and the pass does not raise. |
| `JobRunner.TargetsReported` | examples/reports/report_bull.py:66-83 | On a pass with targets whose lookup and info formatting succeed, the pass does not raise, and the emails are one error email exactly when the registration failed, then the report with body `'\n'.join(infos) + '\n'`. |
| `JobRunner.RegistrationFailureEndsLoop` | examples/reports/report_bull.py:71-85 | A registration failure on an otherwise good first pass ends the loop there: one pass, no failure, no sleep, the passes after it have no effect, and the emails are the error email then the report. |
| `JobRunner.RegistrationFailureBeforeInfoError` | examples/reports/report_bull.py:71-79 | When the registration fails and the info formatting then raises, the error email is still sent, and it is the only email. The pass raises the formatter's exception, so it is retried. |
| `JobRunner.RegistrationOfFetchedCodes` | examples/reports/report_bull.py:67-73 | When there are targets and the lookup succeeds, exactly one registration is requested, under the job's group, with the fetched stocks' codes in their order. |
| `JobRunner.Runner.Try` | examples/reports/report_bull.py:41-85 | The imperative `try` block changes the runner's records exactly as `TryBlock` says, raises what it says, and leaves `error_count` alone. |
| `JobRunner.Runner.ComposeMessage` | examples/reports/report_bull.py:64-79 | The imperative message composition returns exactly what `MessageBlock` says, appends exactly its effects to the records, and leaves `error_count` alone. |
| `JobRunner.Runner.Except` | examples/reports/report_bull.py:86-92 | The imperative `except` block appends exactly `ExceptBlock` for the current count, and increments `error_count`. |
| `JobRunner.Runner.Run` | examples/reports/report_bull.py:37-92 | The `while True` loop appends exactly `LoopEffects` to the records. It completes iff some attempt succeeds and makes `Passes` passes. It leaves `error_count` at 0 after a success and at 1 after a failure. |
| `BullReportJob.ResultFrame` | examples/reports/report_bull.py:31-32 | The result frame has the factor frame's rows and index. A row's `filter_result` is true iff the base filter, `bull`, and turnover > 400000000 all hold. |
| `BullReportJob.BullAndUpFactor.ComputeResult` | examples/reports/report_bull.py:27-32 | `compute_result` keeps the transformed frame as `factor_df` and sets `result_df` to its row-wise filter. |
| `BullReportJob.ReportBull` | examples/reports/report_bull.py:36-92 | `report_bull` has exactly the loop's effects for job `report_bull`: one report iff some attempt succeeds, as the last email, no escalation, one 180 s sleep per failed pass, and every registration under `bull`. |
| `VolUpReportJob.ReportVolUp` | examples/reports/report_vol_up.py:26-85 | `report_vol_up` has the same effects for job `report_vol_up`, with every registration under group `tech`. |
| `VolUpReportJob.RegistrationFailureIsolated` | examples/reports/report_vol_up.py:60-78 | A registration failure on an otherwise good first pass sends `report_vol_up error:<e>` and then the report. The loop ends there: it makes one pass, with no failure and no sleep, and any passes after it have no effect. |

## Left out

- The scheduler bindings (`@sched.scheduled_job` cron expressions), `sched.start()`, the thread join and the `__main__` entry points. They are scheduling and threading plumbing.
- Email transport. `EmailInformer` and its `send_message` are not part of this model. Sending is assumed never to raise. The recipient (`zvt_config['email_username']`) is not recorded. The report subject is recorded only as the target date, without its fixed title text. The error emails' fixed subjects (`report_bull error`, `report_vol_up error`) are not recorded either. The source sends the registration's error email and the escalation email with the same subject and body format; the model tells them apart as `SideEffectError` and `Escalation` by where they are sent, a distinction the source does not make.
- `get_latest_kdata_date`, `get_top_volume_entities`, the selector, the factors, `get_entities`, `add_to_eastmoney` and `stocks_with_info` are external. They appear only through the answers collected in an `Attempt`. The 30-day look-back, the 40 % volume fraction and the start date `2019-01-01` are arguments to these calls and play no part in the loop.
- The internals of `TargetSelector`, `SelectMode`, `MacdFactor`, `VolumeUpMaFactor` and `CrossMaTransformer` are not part of this model. The selector's AND/OR combination and the moving-average math are therefore not stated. The frame after `super().compute_result()` and the transformer is an input to `ComputeResult`.
- `BullReportJob.ResultFrame` models turnover as an integer and each frame row as a record. It does not model pandas index alignment, missing values or floating-point turnover.
- `JobRunner.Runner.Run` is driven by a finite sequence of attempts. When the sequence runs out without a success, the model stops, whereas the program would keep retrying. `AlwaysFailingRetriesForever` states the behaviour on every finite prefix.
- `JobRunner.LoopEffects` records the effects in one sequence per channel (emails, registrations, log lines, sleeps), so the order between channels is not captured. The model does not state that the registration comes before its error email (examples/reports/report_bull.py:73-76), that `msg` is logged before the report is sent (examples/reports/report_bull.py:81-83), or that a failed pass's 180 s sleep comes before the next pass sends or registers anything (examples/reports/report_bull.py:88). The effects are equally those of retrying at once and sleeping afterwards. Only the order within each channel is stated. `Runner.Run` performs the steps in the source's order, but its contract compares per-channel sequences only.
- Real sleeping and logging are recorded as events (`slept`, `logged`) only. No time passes.
