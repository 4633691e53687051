/** The retry-and-notify loop that both report jobs run once per scheduled trigger.

    Every call into a library the jobs do not own (market data, the selector, the entity
    lookup, the watchlist registration, the info formatter) is replaced by the answer it
    gave, gathered in an `Attempt`. One pass of the `while True` loop consumes one `Attempt`;
    a finite sequence of them drives the loop. The effects the jobs have on the world (emails,
    watchlist registrations, log lines, sleeps) are recorded, in order, as `Effects`. */
module JobRunner {
  import opened ReportBody

  datatype Option<T> = None | Some(value: T)

  /** The answer of an external call: a value, or the text of the exception it raised. */
  datatype Result<T> = Ok(value: T) | Err(error: string)

  /** Length of the pause after a failed pass, in seconds (`time.sleep(60 * 3)`). */
  const COOL_DOWN_SECONDS: nat := 60 * 3

  /** The value of `error_count` at which the escalation email is sent. */
  const ESCALATION_COUNT: int := 10

  /** The entity type both jobs screen and register. */
  const ENTITY_TYPE: string := "stock"

  /** What distinguishes the two jobs in this loop: the name used in their error emails and
      the watchlist group their candidates are registered under. */
  datatype Job = Job(name: string, group: string)

  /** A stock as returned by the entity lookup. */
  datatype Stock = Stock(id: string, code: string)

  /** The latest trading date and the long targets the selector reported on it. */
  datatype Selection = Selection(targetDate: string, longStocks: seq<string>)

  /** The answers of the external calls during one pass of the loop. A later field is
      consulted only when the code gets that far. */
  datatype Attempt = Attempt(
    selection: Result<Selection>,   // latest date, top-volume universe, selector run, open long targets
    stocks: Result<seq<Stock>>,     // entity lookup of the long targets
    registration: Option<string>,   // Some(e): the watchlist registration raised e
    infos: Result<seq<string>>)     // one info line per stock

  /** The emails a job sends. A side-effect error and an escalation have the same subject
      and body format in the source; they are told apart here by where they are sent. */
  datatype Notification =
    | Report(targetDate: string, body: string)
    | SideEffectError(body: string)
    | Escalation(body: string)

  /** One request to add stock codes to a watchlist group. */
  datatype Registration = Registration(codes: seq<string>, entityType: string, group: string)

  datatype LogEntry = Info(text: string) | Exception(text: string)

  /** Everything a stretch of the loop did to the world, in order, per channel. */
  datatype Effects = Effects(
    sent: seq<Notification>,
    registered: seq<Registration>,
    logged: seq<LogEntry>,
    slept: seq<nat>)

  const NO_EFFECTS: Effects := Effects([], [], [], [])

  /** `x` followed by `y`. */
  function Then(x: Effects, y: Effects): Effects {
    Effects(x.sent + y.sent, x.registered + y.registered, x.logged + y.logged, x.slept + y.slept)
  }

  lemma ThenAssociative(x: Effects, y: Effects, z: Effects)
    ensures Then(Then(x, y), z) == Then(x, Then(y, z))
  {
  }

  /** Nothing before or after `x` leaves `x`. */
  lemma ThenNoEffects(x: Effects)
    ensures Then(NO_EFFECTS, x) == x && Then(x, NO_EFFECTS) == x
  {
    assert [] + x.sent == x.sent && [] + x.registered == x.registered;
    assert [] + x.logged == x.logged && [] + x.slept == x.slept;
    assert x.sent + [] == x.sent && x.registered + [] == x.registered;
    assert x.logged + [] == x.logged && x.slept + [] == x.slept;
  }

  /** The text of an error email and of the exception log line: `'<job> error:<e>'`. */
  function ErrorText(job: Job, e: string): string {
    job.name + " error:" + e
  }

  /** `[stock.code for stock in stocks]` */
  function Codes(stocks: seq<Stock>): seq<string> {
    seq(|stocks|, i requires 0 <= i < |stocks| => stocks[i].code)
  }

  function CountReports(sent: seq<Notification>): nat
    decreases |sent|
  {
    if sent == [] then 0 else (if sent[0].Report? then 1 else 0) + CountReports(sent[1..])
  }

  /** Independent statement of when a pass gets through its `try` block without an exception:
      the selection succeeds and, if it found targets, the entity lookup and the info
      formatting succeed too. The watchlist registration plays no part. */
  predicate Succeeds(a: Attempt) {
    a.selection.Ok? && (|a.selection.value.longStocks| == 0 || (a.stocks.Ok? && a.infos.Ok?))
  }

  predicate OnlySideEffectErrors(sent: seq<Notification>) {
    forall n :: n in sent ==> n.SideEffectError?
  }

  /** Every registration is for stocks under the job's own group. */
  predicate UnderGroup(registered: seq<Registration>, job: Job) {
    forall r :: r in registered ==> r.group == job.group && r.entityType == ENTITY_TYPE
  }

  /** The message a pass composes, or the exception that stopped it, with the effects on the way. */
  datatype Composed = Composed(effects: Effects, msg: Result<string>)

  /** The part of the `try` block that composes the message: `'no targets'`, or, when there
      are long targets, look up the stocks, register their codes (catching a failure locally
      with an error email) and join their info lines. */
  function MessageBlock(job: Job, a: Attempt): (c: Composed)
    requires a.selection.Ok?
    ensures c.msg.Ok? <==> Succeeds(a)
    ensures OnlySideEffectErrors(c.effects.sent) && |c.effects.sent| <= 1
    ensures c.effects.logged == [] && c.effects.slept == []
    ensures UnderGroup(c.effects.registered, job) && |c.effects.registered| <= 1
    ensures |a.selection.value.longStocks| == 0 || a.stocks.Err? ==> c.effects == NO_EFFECTS
    ensures |a.selection.value.longStocks| > 0 && a.stocks.Ok? ==>
              c.effects.sent ==
                (if a.registration.Some? then [SideEffectError(ErrorText(job, a.registration.value))] else [])
  {
    if |a.selection.value.longStocks| == 0 then Composed(NO_EFFECTS, Ok(ComposeBody(false, [])))
    else
      match a.stocks
      case Err(e) => Composed(NO_EFFECTS, Err(e))
      case Ok(stocks) =>
        var registered := [Registration(Codes(stocks), ENTITY_TYPE, job.group)];
        var warned :=
          if a.registration.Some? then [SideEffectError(ErrorText(job, a.registration.value))] else [];
        match a.infos
        case Err(e) => Composed(Effects(warned, registered, [], []), Err(e))
        case Ok(infos) => Composed(Effects(warned, registered, [], []), Ok(ComposeBody(true, infos)))
  }

  /** What one run of the `try` block does, and the exception it ends with, if any. */
  datatype Step = Step(effects: Effects, raised: Option<string>)

  /** The `try` block of one pass: select, compose the message, log it and send the report. */
  function TryBlock(job: Job, a: Attempt): (s: Step)
    ensures s.raised.None? <==> Succeeds(a)
    ensures s.effects.slept == []
    ensures s.raised.Some? ==> OnlySideEffectErrors(s.effects.sent)
    ensures s.raised.None? ==> |s.effects.sent| > 0 && s.effects.sent[|s.effects.sent| - 1].Report?
    ensures CountReports(s.effects.sent) == (if s.raised.None? then 1 else 0)
    ensures UnderGroup(s.effects.registered, job)
    ensures |s.effects.registered| <= 1 && |s.effects.sent| <= 2
  {
    match a.selection
    case Err(e) => Step(NO_EFFECTS, Some(e))
    case Ok(selection) =>
      var composed := MessageBlock(job, a);
      match composed.msg
      case Err(e) => Step(composed.effects, Some(e))
      case Ok(msg) =>
        var report := Effects([Report(selection.targetDate, msg)], [], [Info(msg)], []);
        NoReportsAmongErrors(composed.effects.sent);
        CountReportsAppend(composed.effects.sent, report.sent);
        Step(Then(composed.effects, report), None)
  }

  lemma {:induction false} NoReportsAmongErrors(sent: seq<Notification>)
    requires OnlySideEffectErrors(sent)
    ensures CountReports(sent) == 0
    decreases |sent|
  {
    if sent != [] {
      assert sent[0] in sent;
      NoReportsAmongErrors(sent[1..]);
    }
  }

  /** The `except` block of one pass, given the value `error_count` has when the exception
      arrives: log, sleep, increment, and escalate when the count reaches the threshold. */
  function ExceptBlock(job: Job, e: string, errorCount: int): (x: Effects)
    ensures x.logged == [Exception(ErrorText(job, e))] && x.slept == [COOL_DOWN_SECONDS] && x.registered == []
    ensures CountReports(x.sent) == 0
    ensures (exists n :: n in x.sent && n.Escalation?) <==> errorCount + 1 == ESCALATION_COUNT
    ensures |x.sent| <= 1 && forall n :: n in x.sent ==> n == Escalation(ErrorText(job, e))
  {
    var escalation := if errorCount + 1 == ESCALATION_COUNT then [Escalation(ErrorText(job, e))] else [];
    Effects(escalation, [], [Exception(ErrorText(job, e))], [COOL_DOWN_SECONDS])
  }

  /** The whole `while True` loop over the given passes. A pass whose `try` block completes
      ends the loop; a failing pass runs the `except` block and the loop goes round again.
      `error_count` is set to 0 at the top of every pass, so the `except` block always sees 0. */
  function LoopEffects(job: Job, attempts: seq<Attempt>): (e: Effects)
    ensures |e.slept| <= |attempts| && |e.registered| <= |attempts|
    decreases |attempts|
  {
    if attempts == [] then NO_EFFECTS
    else
      var step := TryBlock(job, attempts[0]);
      match step.raised
      case None => step.effects
      case Some(e) => Then(Then(step.effects, ExceptBlock(job, e, 0)), LoopEffects(job, attempts[1..]))
  }

  /** Some pass among `attempts` gets through its `try` block. */
  predicate Completes(attempts: seq<Attempt>) {
    exists i :: 0 <= i < |attempts| && Succeeds(attempts[i])
  }

  /** The number of passes the loop makes over `attempts`: up to and including the first
      that succeeds, or all of them. */
  function Passes(attempts: seq<Attempt>): (n: nat)
    ensures n <= |attempts|
    decreases |attempts|
  {
    if attempts == [] then 0
    else if Succeeds(attempts[0]) then 1
    else 1 + Passes(attempts[1..])
  }

  /** The number of passes that failed: those before the first that succeeds, or all of them. */
  function Failures(attempts: seq<Attempt>): nat
    decreases |attempts|
  {
    if attempts == [] || Succeeds(attempts[0]) then 0 else 1 + Failures(attempts[1..])
  }

  /** The loop's passes are its failed passes, plus the one that succeeds if there is one. */
  lemma {:induction false} PassesAreFailuresAndSuccess(attempts: seq<Attempt>)
    ensures Passes(attempts) == Failures(attempts) + (if Completes(attempts) then 1 else 0)
    decreases |attempts|
  {
    if attempts != [] {
      if Succeeds(attempts[0]) {
        assert Completes(attempts);
      } else {
        CompletesTail(attempts);
        PassesAreFailuresAndSuccess(attempts[1..]);
      }
    }
  }

  lemma {:induction false} CountReportsAppend(a: seq<Notification>, b: seq<Notification>)
    ensures CountReports(a + b) == CountReports(a) + CountReports(b)
    decreases |a|
  {
    if a == [] {
      assert a + b == b;
    } else {
      assert (a + b)[1..] == a[1..] + b;
      CountReportsAppend(a[1..], b);
    }
  }

  /** The first pass that succeeds is the last one: it sends the report, and no later
      attempt has any effect. */
  lemma {:induction false} FirstSuccessEndsLoop(job: Job, attempts: seq<Attempt>, k: nat)
    requires k < |attempts| && Succeeds(attempts[k])
    requires forall j :: 0 <= j < k ==> !Succeeds(attempts[j])
    ensures LoopEffects(job, attempts) == LoopEffects(job, attempts[..k + 1])
    ensures Passes(attempts) == k + 1 && Failures(attempts) == k
    decreases k
  {
    assert Completes(attempts);
    if k > 0 {
      assert attempts[1..][..k] == attempts[..k + 1][1..];
      FirstSuccessEndsLoop(job, attempts[1..], k - 1);
      assert attempts[..k + 1][0] == attempts[0];
    } else {
      assert attempts[..1][0] == attempts[0];
    }
  }

  /** The run's last email is the report of its first successful pass. */
  lemma {:induction false} RunEndsWithFirstReport(job: Job, attempts: seq<Attempt>, k: nat)
    requires k < |attempts| && Succeeds(attempts[k])
    requires forall j :: 0 <= j < k ==> !Succeeds(attempts[j])
    ensures var sent := LoopEffects(job, attempts).sent;
            var last := TryBlock(job, attempts[k]).effects.sent;
            |sent| > 0 && sent[|sent| - 1] == last[|last| - 1]
    decreases k
  {
    if k > 0 {
      assert attempts[1..][k - 1] == attempts[k];
      RunEndsWithFirstReport(job, attempts[1..], k - 1);
      FailedPassKeepsLastEmail(job, attempts);
    } else {
      CompletedPassEndsLoop(job, attempts);
    }
  }

  /** A pass that completes is the loop's last: the loop's effects are that pass's. */
  lemma CompletedPassEndsLoop(job: Job, attempts: seq<Attempt>)
    requires attempts != [] && Succeeds(attempts[0])
    ensures TryBlock(job, attempts[0]).raised.None?
    ensures LoopEffects(job, attempts) == TryBlock(job, attempts[0]).effects
    ensures Completes(attempts) && Passes(attempts) == 1
  {
  }

  /** A failed pass is followed by the rest of the loop, whose last email is the run's. */
  lemma FailedPassKeepsLastEmail(job: Job, attempts: seq<Attempt>)
    requires attempts != [] && !Succeeds(attempts[0])
    requires |LoopEffects(job, attempts[1..]).sent| > 0
    ensures var sent := LoopEffects(job, attempts).sent;
            var tail := LoopEffects(job, attempts[1..]).sent;
            |sent| > 0 && sent[|sent| - 1] == tail[|tail| - 1]
  {
    var step := TryBlock(job, attempts[0]);
    var tail := LoopEffects(job, attempts[1..]).sent;
    var head := Then(step.effects, ExceptBlock(job, step.raised.value, 0)).sent;
    assert LoopEffects(job, attempts).sent == head + tail;
    LastOfAppend(head, tail);
  }

  lemma LastOfAppend<T>(head: seq<T>, tail: seq<T>)
    requires |tail| > 0
    ensures |head + tail| > 0 && (head + tail)[|head + tail| - 1] == tail[|tail| - 1]
  {
  }

  /** `error_count` is reset before every pass, so it is 1 whenever the escalation check
      runs: the escalation email is never sent, however many passes fail. */
  lemma {:induction false} NeverEscalates(job: Job, attempts: seq<Attempt>)
    ensures forall n :: n in LoopEffects(job, attempts).sent ==> !n.Escalation?
    decreases |attempts|
  {
    if attempts != [] {
      var step := TryBlock(job, attempts[0]);
      if step.raised.Some? {
        NeverEscalates(job, attempts[1..]);
        assert ExceptBlock(job, step.raised.value, 0).sent == [];
      }
    }
  }

  /** Exactly one report email is sent when some pass succeeds, none otherwise; when one is
      sent it is the last email of the run. */
  lemma {:induction false} OneReportPerRun(job: Job, attempts: seq<Attempt>)
    ensures CountReports(LoopEffects(job, attempts).sent) == (if Completes(attempts) then 1 else 0)
    ensures Completes(attempts) ==>
              var sent := LoopEffects(job, attempts).sent; |sent| > 0 && sent[|sent| - 1].Report?
    decreases |attempts|
  {
    if attempts != [] {
      var step := TryBlock(job, attempts[0]);
      if step.raised.Some? {
        var e := step.raised.value;
        OneReportPerRun(job, attempts[1..]);
        CountReportsAppend(step.effects.sent, ExceptBlock(job, e, 0).sent);
        CountReportsAppend(step.effects.sent + ExceptBlock(job, e, 0).sent, LoopEffects(job, attempts[1..]).sent);
        CompletesTail(attempts);
      } else {
        assert Completes(attempts) by { assert Succeeds(attempts[0]); }
      }
    }
  }

  /** A sequence whose first pass fails completes iff its remaining passes do. */
  lemma CompletesTail(attempts: seq<Attempt>)
    requires attempts != [] && !Succeeds(attempts[0])
    ensures Completes(attempts) <==> Completes(attempts[1..])
  {
    if Completes(attempts) {
      var i :| 0 <= i < |attempts| && Succeeds(attempts[i]);
      assert attempts[1..][i - 1] == attempts[i];
    }
    if Completes(attempts[1..]) {
      var i :| 0 <= i < |attempts[1..]| && Succeeds(attempts[1..][i]);
      assert attempts[i + 1] == attempts[1..][i];
    }
  }

  /** Every failed pass, and only a failed pass, sleeps for the cool-down: the number of
      sleeps equals the number of failed passes. */
  lemma {:induction false} OneSleepPerFailure(job: Job, attempts: seq<Attempt>)
    ensures |LoopEffects(job, attempts).slept| == Failures(attempts)
    ensures forall i :: 0 <= i < |LoopEffects(job, attempts).slept| ==>
              LoopEffects(job, attempts).slept[i] == COOL_DOWN_SECONDS
    decreases |attempts|
  {
    if attempts != [] {
      var step := TryBlock(job, attempts[0]);
      if step.raised.Some? {
        OneSleepPerFailure(job, attempts[1..]);
      }
    }
  }

  /** Every registration request uses the job's own group, for stocks. */
  lemma {:induction false} RegistrationsUseJobGroup(job: Job, attempts: seq<Attempt>)
    ensures forall r :: r in LoopEffects(job, attempts).registered ==>
              r.group == job.group && r.entityType == ENTITY_TYPE
    decreases |attempts|
  {
    if attempts != [] && TryBlock(job, attempts[0]).raised.Some? {
      RegistrationsUseJobGroup(job, attempts[1..]);
    }
  }

  /** What every run of the loop promises, gathered for the jobs that run it: one report iff
      some pass succeeds, sent last; no escalation; one cool-down per failed pass; every
      registration under the job's group. */
  lemma RunSummary(job: Job, attempts: seq<Attempt>, e: Effects)
    requires e == LoopEffects(job, attempts)
    ensures CountReports(e.sent) == (if Completes(attempts) then 1 else 0)
    ensures Completes(attempts) ==> |e.sent| > 0 && e.sent[|e.sent| - 1].Report?
    ensures forall n :: n in e.sent ==> !n.Escalation?
    ensures |e.slept| == Failures(attempts)
    ensures forall i :: 0 <= i < |e.slept| ==> e.slept[i] == COOL_DOWN_SECONDS
    ensures UnderGroup(e.registered, job)
  {
    OneReportPerRun(job, attempts);
    NeverEscalates(job, attempts);
    OneSleepPerFailure(job, attempts);
    RegistrationsUseJobGroup(job, attempts);
  }

  /** A pipeline that fails on every pass sends neither a report nor an escalation, and
      sleeps once per pass: the loop never gives up. */
  lemma AlwaysFailingRetriesForever(job: Job, attempts: seq<Attempt>)
    requires forall i :: 0 <= i < |attempts| ==> !Succeeds(attempts[i])
    ensures CountReports(LoopEffects(job, attempts).sent) == 0
    ensures forall n :: n in LoopEffects(job, attempts).sent ==> n.SideEffectError?
    ensures |LoopEffects(job, attempts).slept| == |attempts|
  {
    OneReportPerRun(job, attempts);
    OneSleepPerFailure(job, attempts);
    AllFailPasses(attempts);
    NeverEscalates(job, attempts);
    OnlyWarningsWhenFailing(job, attempts);
  }

  lemma {:induction false} AllFailPasses(attempts: seq<Attempt>)
    requires forall i :: 0 <= i < |attempts| ==> !Succeeds(attempts[i])
    ensures Passes(attempts) == |attempts| && Failures(attempts) == |attempts|
    decreases |attempts|
  {
    if attempts != [] {
      AllFailPasses(attempts[1..]);
    }
  }

  lemma {:induction false} OnlyWarningsWhenFailing(job: Job, attempts: seq<Attempt>)
    requires forall i :: 0 <= i < |attempts| ==> !Succeeds(attempts[i])
    ensures forall n :: n in LoopEffects(job, attempts).sent ==> n.SideEffectError? || n.Escalation?
    decreases |attempts|
  {
    if attempts != [] {
      OnlyWarningsWhenFailing(job, attempts[1..]);
    }
  }

  /** With no long targets the body is exactly "no targets", nothing is registered and no
      side-effect email is sent; the pass succeeds. */
  lemma NoTargetsReport(job: Job, a: Attempt)
    requires a.selection.Ok? && a.selection.value.longStocks == []
    ensures TryBlock(job, a) ==
              Step(Effects([Report(a.selection.value.targetDate, NO_TARGETS)], [], [Info(NO_TARGETS)], []), None)
  {
  }

  /** A failing watchlist registration is isolated: one error email, then the report with the
      info lines; the pass still succeeds, so it is not retried. */
  lemma RegistrationFailureIsolated(job: Job, a: Attempt)
    requires a.selection.Ok? && a.selection.value.longStocks != []
    requires a.stocks.Ok? && a.registration.Some? && a.infos.Ok?
    ensures TryBlock(job, a).raised == None
    ensures TryBlock(job, a).effects.sent ==
              [SideEffectError(ErrorText(job, a.registration.value)),
               Report(a.selection.value.targetDate, ComposeBody(true, a.infos.value))]
  {
  }

  /** A completed pass ends with the report for the target date, whose body is composed from the
      info lines when there are targets and is "no targets" otherwise. */
  lemma CompletedReport(job: Job, a: Attempt)
    requires Succeeds(a)
    ensures var sent := TryBlock(job, a).effects.sent;
            var selection := a.selection.value;
            var hasTargets := selection.longStocks != [];
            |sent| > 0 &&
            sent[|sent| - 1] == Report(selection.targetDate, ComposeBody(hasTargets, if hasTargets then a.infos.value else []))
  {
  }

  /** On a pass with targets whose lookup and info formatting succeed, the report carries the
      info lines joined by '\n' plus a final '\n'. It is preceded by one error email exactly when
      the registration failed, and the pass does not raise either way. */
  lemma TargetsReported(job: Job, a: Attempt)
    requires a.selection.Ok? && a.selection.value.longStocks != []
    requires a.stocks.Ok? && a.infos.Ok?
    ensures TryBlock(job, a).raised == None
    ensures TryBlock(job, a).effects.sent ==
              (if a.registration.Some? then [SideEffectError(ErrorText(job, a.registration.value))] else [])
              + [Report(a.selection.value.targetDate, Join(a.infos.value, "\n") + "\n")]
  {
  }

  /** A pass logs only when its `try` block completes, and then exactly the message it
      reports, just before the report is sent. */
  lemma PassLogsItsMessage(job: Job, a: Attempt)
    ensures var s := TryBlock(job, a);
            (s.raised.Some? ==> s.effects.logged == []) &&
            (s.raised.None? ==> s.effects.logged == [Info(s.effects.sent[|s.effects.sent| - 1].body)])
  {
  }

  /** A failing pass raises the exception of the first external call that failed: the
      selection, then the entity lookup, then the info formatting. */
  lemma PassRaisesFirstFailure(job: Job, a: Attempt)
    ensures a.selection.Err? ==> TryBlock(job, a).raised == Some(a.selection.error)
    ensures a.selection.Ok? && a.selection.value.longStocks != [] && a.stocks.Err? ==>
              TryBlock(job, a).raised == Some(a.stocks.error)
    ensures a.selection.Ok? && a.selection.value.longStocks != [] && a.stocks.Ok? && a.infos.Err? ==>
              TryBlock(job, a).raised == Some(a.infos.error)
  {
  }

  /** The number of exception entries in a log. */
  function CountExceptions(logged: seq<LogEntry>): nat
    decreases |logged|
  {
    if logged == [] then 0 else (if logged[0].Exception? then 1 else 0) + CountExceptions(logged[1..])
  }

  lemma {:induction false} CountExceptionsAppend(a: seq<LogEntry>, b: seq<LogEntry>)
    ensures CountExceptions(a + b) == CountExceptions(a) + CountExceptions(b)
    decreases |a|
  {
    if a == [] {
      assert a + b == b;
    } else {
      assert (a + b)[1..] == a[1..] + b;
      CountExceptionsAppend(a[1..], b);
    }
  }

  /** Every failed pass, and only a failed pass, logs its exception. */
  lemma {:induction false} OneExceptionLogPerFailure(job: Job, attempts: seq<Attempt>)
    ensures CountExceptions(LoopEffects(job, attempts).logged) == Failures(attempts)
    decreases |attempts|
  {
    if attempts != [] {
      var step := TryBlock(job, attempts[0]);
      PassLogsItsMessage(job, attempts[0]);
      if step.raised.Some? {
        var x := ExceptBlock(job, step.raised.value, 0);
        OneExceptionLogPerFailure(job, attempts[1..]);
        CountExceptionsAppend(step.effects.logged, x.logged);
        CountExceptionsAppend(step.effects.logged + x.logged, LoopEffects(job, attempts[1..]).logged);
      } else {
        assert CountExceptions(step.effects.logged) == 0;
      }
    }
  }

  /** A registration failure on a pass whose other calls succeed does not end the job's run:
      the loop stops after that pass, having sent the error email and then the report. */
  lemma RegistrationFailureEndsLoop(job: Job, a: Attempt, rest: seq<Attempt>)
    requires a.selection.Ok? && a.selection.value.longStocks != []
    requires a.stocks.Ok? && a.registration.Some? && a.infos.Ok?
    ensures Passes([a] + rest) == 1 && Failures([a] + rest) == 0
    ensures LoopEffects(job, [a] + rest) == TryBlock(job, a).effects
    ensures LoopEffects(job, [a] + rest).sent ==
              [SideEffectError(ErrorText(job, a.registration.value)),
               Report(a.selection.value.targetDate, ComposeBody(true, a.infos.value))]
    ensures LoopEffects(job, [a] + rest).slept == []
  {
    var attempts := [a] + rest;
    RegistrationFailureIsolated(job, a);
    assert attempts[0] == a;
    FirstSuccessEndsLoop(job, attempts, 0);
    assert attempts[..1] == [a];
    assert [a][0] == a;
  }

  /** A failing watchlist registration still sends its error email when the info formatting
      then raises: the pass fails with the formatter's exception and is retried. */
  lemma RegistrationFailureBeforeInfoError(job: Job, a: Attempt)
    requires a.selection.Ok? && a.selection.value.longStocks != []
    requires a.stocks.Ok? && a.registration.Some? && a.infos.Err?
    ensures TryBlock(job, a).raised == Some(a.infos.error)
    ensures TryBlock(job, a).effects.sent == [SideEffectError(ErrorText(job, a.registration.value))]
  {
  }

  /** When there are long targets and the lookup succeeds, exactly one registration is
      requested, for the codes of the fetched stocks in their order, whether or not it fails. */
  lemma RegistrationOfFetchedCodes(job: Job, a: Attempt)
    requires a.selection.Ok? && a.selection.value.longStocks != [] && a.stocks.Ok?
    ensures |TryBlock(job, a).effects.registered| == 1
    ensures var r := TryBlock(job, a).effects.registered[0];
            r.group == job.group && |r.codes| == |a.stocks.value| &&
            forall i :: 0 <= i < |r.codes| ==> r.codes[i] == a.stocks.value[i].code
  {
  }

  /** After a failed pass, the records so far followed by that pass and its `except` block,
      then the rest of the loop, are the records followed by the whole loop. */
  lemma LoopAfterFailedPass(job: Job, before: Effects, rest: seq<Attempt>)
    requires rest != [] && !Succeeds(rest[0])
    ensures var step := TryBlock(job, rest[0]);
            step.raised.Some? &&
            Then(Then(Then(before, step.effects), ExceptBlock(job, step.raised.value, 0)), LoopEffects(job, rest[1..])) ==
            Then(before, LoopEffects(job, rest))
    ensures Completes(rest) == Completes(rest[1..])
    ensures Passes(rest) == 1 + Passes(rest[1..])
  {
    var step := TryBlock(job, rest[0]);
    var x := ExceptBlock(job, step.raised.value, 0);
    CompletesTail(rest);
    ThenAssociative(before, step.effects, x);
    ThenAssociative(before, Then(step.effects, x), LoopEffects(job, rest[1..]));
  }

  /** A job's state as the loop changes it: what it has sent, registered, logged and slept,
      and its `error_count`. */
  class Runner {
    const job: Job
    var sent: seq<Notification>
    var registered: seq<Registration>
    var logged: seq<LogEntry>
    var slept: seq<nat>
    var errorCount: int

    function Recorded(): Effects
      reads this`sent, this`registered, this`logged, this`slept
    {
      Effects(sent, registered, logged, slept)
    }

    constructor (job: Job)
      ensures this.job == job && Recorded() == NO_EFFECTS && errorCount == 0
    {
      this.job := job;
      sent, registered, logged, slept := [], [], [], [];
      errorCount := 0;
    }

    /** The `try` block of one pass; returns the exception it ended with, if any. */
    method Try(a: Attempt) returns (raised: Option<string>)
      modifies this
      ensures raised == TryBlock(job, a).raised
      ensures Recorded() == Then(old(Recorded()), TryBlock(job, a).effects)
      ensures errorCount == old(errorCount)
    {
      if a.selection.Err? {
        return Some(a.selection.error);
      }
      var selection := a.selection.value;
      ghost var composed := MessageBlock(job, a);
      var msg := ComposeMessage(a);
      if msg.Err? {
        assert TryBlock(job, a) == Step(composed.effects, Some(msg.error));
        return Some(msg.error);
      }
      ghost var report := Effects([Report(selection.targetDate, msg.value)], [], [Info(msg.value)], []);
      assert TryBlock(job, a) == Step(Then(composed.effects, report), None);
      logged := logged + [Info(msg.value)];
      sent := sent + [Report(selection.targetDate, msg.value)];
      raised := None;
    }

    /** The message-composing part of the `try` block; returns the message, or the
        exception that stopped it. */
    method ComposeMessage(a: Attempt) returns (msg: Result<string>)
      requires a.selection.Ok?
      modifies this
      ensures msg == MessageBlock(job, a).msg
      ensures Recorded() == Then(old(Recorded()), MessageBlock(job, a).effects)
      ensures errorCount == old(errorCount)
    {
      var text := NO_TARGETS;
      if |a.selection.value.longStocks| > 0 {
        if a.stocks.Err? {
          return Err(a.stocks.error);
        }
        var stocks := a.stocks.value;
        var codes := Codes(stocks);
        registered := registered + [Registration(codes, ENTITY_TYPE, job.group)];
        if a.registration.Some? {
          sent := sent + [SideEffectError(ErrorText(job, a.registration.value))];
        }
        if a.infos.Err? {
          return Err(a.infos.error);
        }
        text := Join(a.infos.value, "\n") + "\n";
      }
      msg := Ok(text);
    }

    /** The `except` block of one pass. */
    method Except(e: string)
      modifies this
      ensures Recorded() == Then(old(Recorded()), ExceptBlock(job, e, old(errorCount)))
      ensures errorCount == old(errorCount) + 1
    {
      logged := logged + [Exception(ErrorText(job, e))];
      slept := slept + [COOL_DOWN_SECONDS];
      errorCount := errorCount + 1;
      if errorCount == ESCALATION_COUNT {
        sent := sent + [Escalation(ErrorText(job, e))];
      }
    }

    /** The `while True` loop, driven by `attempts`: reports whether a pass completed and how
        many passes it made. */
    method Run(attempts: seq<Attempt>) returns (completed: bool, passes: nat)
      modifies this
      ensures Recorded() == Then(old(Recorded()), LoopEffects(job, attempts))
      ensures completed == Completes(attempts) && passes == Passes(attempts)
      ensures passes > 0 ==> errorCount == (if completed then 0 else 1)
      ensures passes == 0 ==> errorCount == old(errorCount)
    {
      completed, passes := false, 0;
      while passes < |attempts|
        invariant passes <= |attempts| && !completed
        invariant Then(Recorded(), LoopEffects(job, attempts[passes..])) ==
                  Then(old(Recorded()), LoopEffects(job, attempts))
        invariant Completes(attempts) == Completes(attempts[passes..])
        invariant Passes(attempts) == passes + Passes(attempts[passes..])
        invariant passes > 0 ==> errorCount == 1
        invariant passes == 0 ==> errorCount == old(errorCount)
        decreases |attempts| - passes
      {
        var rest := attempts[passes..];
        assert rest[0] == attempts[passes] && rest[1..] == attempts[passes + 1..];
        ghost var before := Recorded();
        errorCount := 0;
        var raised := Try(rest[0]);
        passes := passes + 1;
        if raised.None? {
          completed := true;
          CompletedPassEndsLoop(job, rest);
          break;
        }
        LoopAfterFailedPass(job, before, rest);
        ghost var tried := Recorded();
        Except(raised.value);
        assert Recorded() == Then(tried, ExceptBlock(job, raised.value, 0));
        assert attempts[passes..] == rest[1..];
      }
      if !completed {
        assert attempts[passes..] == [];
        ThenNoEffects(Recorded());
      }
    }
  }
}
