/** The compile service: it reads the platform's limits, subscribes to the `compile` queue and,
    for every delivered task, claims the submission, compiles it through a shell command, reports
    the outcome (or a system error) and acknowledges the message. Every call to the platform,
    the filesystem, the shell, the compressor, the logger and the broker is an event in a trace;
    what those calls return is an input (`TaskWorld`). */
module GmkCompile {
  import opened Wrappers
  import opened JsValues
  import opened Foreign
  import opened TextRules
  import Api

  const QueueName := "compile"
  const InternalErrorPrefix := "System internal error occured when compiling this submission.\n\n"
  /** The cap on captured shell output, 1 MiB. */
  const MaxBuffer: nat := 1048576

  /** The worker's configuration: the templates under `compile` and the sandbox executable
      (`null` for none). */
  datatype ServiceConfig = ServiceConfig(
    workingDirectory: string,
    source: string,
    target: string,
    command: string,
    timeout: Value,
    sandboxArgs: Value,
    sandbox: Value)

  datatype WorkerLimits = WorkerLimits(text: Limit, executable: Limit)

  /** How a limit value behaves in `length > limit` and `substr(0, limit)`: a number as itself,
      `null` and booleans as 0 or 1, anything else (`undefined`, say) as no limit at all. */
  function ToLimit(v: Value): Limit {
    match v
    case Num(n) => Some(n)
    case Null => Some(0)
    case Bool(b) => Some(if b then 1 else 0)
    case _ => None
  }

  /** Destructuring `LIMIT_SIZE_TEXT` and `LIMIT_SIZE_EXECUTABLE` out of what `getLimits`
      produced; destructuring `null` or `undefined` throws a TypeError. */
  function ReadLimits(fetched: Result<Value, Error>): (r: Result<WorkerLimits, Error>)
    ensures r.Success? <==> fetched.Success? && !fetched.value.Null? && !fetched.value.Undefined?
    ensures fetched.Failure? ==> r == Failure(fetched.error)
    ensures r.Success? ==> r.value.text == ToLimit(Get(fetched.value, "LIMIT_SIZE_TEXT")) &&
                           r.value.executable == ToLimit(Get(fetched.value, "LIMIT_SIZE_EXECUTABLE"))
  {
    match fetched
    case Failure(e) => Failure(e)
    case Success(l) =>
      match ReadProp(l, "LIMIT_SIZE_TEXT")
      case Failure(e) => Failure(e)
      case Success(t) => Success(WorkerLimits(ToLimit(t), ToLimit(Get(l, "LIMIT_SIZE_EXECUTABLE"))))
  }

  /** How the shell command settled: resolved with both outputs, or rejected with whatever output
      the error carries (`None` where the error has no such property). */
  datatype ShellResult = ShellOk(stdout: string, stderr: string) | ShellErr(errStdout: Option<string>, errStderr: Option<string>)

  /** What the platform, the filesystem, the shell and the compressor do for one task. */
  datatype TaskWorld = TaskWorld(
    begin: Result<Value, Error>,
    ensureDir: Outcome<Error>,
    writeSource: Outcome<Error>,
    exec: ShellResult,
    stat: Result<nat, Error>,
    readTarget: Result<Bytes, Error>,
    compress: Bytes -> Result<Bytes, Error>,
    compileEnd: Outcome<Error>,
    compileError: Outcome<Error>)

  /** Calls the service makes, in order. The API calls record the arguments exactly as the
      service passes them. */
  datatype Event =
    | GetLimits
    | Subscribe(queue: string)
    | CompileBegin(task: Value)
    | EnsureDir(path: string)
    | WriteFile(path: string, data: Value)
    | Exec(command: string, cwd: string, timeout: Value, maxBuffer: nat)
    | Stat(path: string)
    | ReadFile(path: string)
    | Compress(input: Bytes)
    | CompileEnd(task: Value, text: string, success: bool, binary: Option<Bytes>)
    | CompileError(task: Value, text: string)
    | LogError(error: Error)
    | Ack

  /** The events of one handler run and how the run ended. */
  datatype Run = Run(events: seq<Event>, outcome: Outcome<Error>)

  function CountWhere(es: seq<Event>, p: Event -> bool): nat
    decreases |es|
  {
    if es == [] then 0 else (if p(es[0]) then 1 else 0) + CountWhere(es[1..], p)
  }

  lemma {:induction false} CountWhereAppend(a: seq<Event>, b: seq<Event>, p: Event -> bool)
    ensures CountWhere(a + b, p) == CountWhere(a, p) + CountWhere(b, p)
    decreases |a|
  {
    if a == [] {
      assert a + b == b;
    } else {
      assert (a + b)[1..] == a[1..] + b;
      CountWhereAppend(a[1..], b, p);
    }
  }

  lemma {:induction false} CountWhereNone(es: seq<Event>, p: Event -> bool)
    requires forall i :: 0 <= i < |es| ==> !p(es[i])
    ensures CountWhere(es, p) == 0
    decreases |es|
  {
    if es != [] {
      CountWhereNone(es[1..], p);
    }
  }

  predicate IsAck(e: Event) { e.Ack? }
  predicate IsCompileEnd(e: Event) { e.CompileEnd? }
  predicate IsCompileError(e: Event) { e.CompileError? }

  /** The text of every truthy value, in order: `_.filter(values)` followed by the string
      conversion `join` applies. */
  function TruthyStrings(values: seq<Value>, host: Host): (r: seq<string>)
    ensures |r| <= |values|
    decreases |values|
  {
    if values == [] then []
    else (if Truthy(values[0]) then [ToJsString(values[0], host.utf8)] else []) + TruthyStrings(values[1..], host)
  }

  /** `_.filter([sandbox, sandboxArgs, compileCmd]).join(' ')` */
  function ShellCommand(sandbox: Value, sandboxArgs: Value, compileCmd: string, host: Host): string {
    Join(TruthyStrings([sandbox, sandboxArgs, Str(compileCmd)], host), " ")
  }

  /** Without a sandbox the shell runs the compile command alone. With one, the sandbox path
      comes first, then the sandbox arguments when they are truthy (a missing, empty or `false`
      value is dropped by `_.filter`), then the command, each separated by one space. */
  lemma ShellCommandCases(path: string, args: Value, cmd: string, host: Host)
    ensures ShellCommand(Null, Null, cmd, host) == cmd
    ensures path != "" && cmd != "" && !Truthy(args) ==> ShellCommand(Str(path), args, cmd, host) == path + " " + cmd
    ensures path != "" && cmd != "" && Truthy(args) ==>
      ShellCommand(Str(path), args, cmd, host) == path + " " + ToJsString(args, host.utf8) + " " + cmd
  {
    var last := if cmd != "" then [cmd] else [];
    assert TruthyStrings([Str(cmd)], host) == last by {
      assert [Str(cmd)][1..] == [];
    }
    assert TruthyStrings([Null, Str(cmd)], host) == last by {
      assert [Null, Str(cmd)][1..] == [Str(cmd)];
    }
    assert TruthyStrings([Null, Null, Str(cmd)], host) == last by {
      assert [Null, Null, Str(cmd)][1..] == [Null, Str(cmd)];
    }
    var mid := if Truthy(args) then [ToJsString(args, host.utf8)] else [];
    assert TruthyStrings([args, Str(cmd)], host) == mid + last by {
      assert [args, Str(cmd)][1..] == [Str(cmd)];
    }
    assert TruthyStrings([Str(path), args, Str(cmd)], host) == (if path != "" then [path] else []) + (mid + last) by {
      assert [Str(path), args, Str(cmd)][1..] == [args, Str(cmd)];
    }
    if path != "" && cmd != "" {
      if Truthy(args) {
        var t := ToJsString(args, host.utf8);
        assert [path] + (mid + last) == [path, t, cmd];
        assert Join([t, cmd], " ") == t + " " + cmd by {
          assert [t, cmd][1..] == [cmd];
        }
        assert Join([path, t, cmd], " ") == path + " " + (t + " " + cmd) by {
          assert [path, t, cmd][1..] == [t, cmd];
        }
      } else {
        assert [path] + (mid + last) == [path, cmd];
        assert Join([cmd], " ") == cmd;
        assert Join([path, cmd], " ") == path + " " + cmd by {
          assert [path, cmd][1..] == [cmd];
        }
      }
    }
  }

  /** `{ ...submission, source, target }`: the formatted paths take precedence over the
      submission's own fields of the same name. */
  function CommandContext(submission: Value, source: string, target: string): Value {
    Obj([Prop("source", Str(source)), Prop("target", Str(target))] + (if submission.Obj? then submission.props else []))
  }

  lemma CommandContextFields(submission: Value, source: string, target: string, k: string)
    ensures Get(CommandContext(submission, source, target), "source") == Str(source)
    ensures Get(CommandContext(submission, source, target), "target") == Str(target)
    ensures k != "source" && k != "target" ==> Get(CommandContext(submission, source, target), k) == Get(submission, k)
  {
    var ps := CommandContext(submission, source, target).props;
    var rest := if submission.Obj? then submission.props else [];
    assert ps[1..] == [Prop("target", Str(target))] + rest;
    assert ps[1..][1..] == rest;
    assert "source" != "target";
    assert Lookup(ps, "target") == Lookup(ps[1..], "target");
    assert Lookup(ps[1..], "target") == Str(target);
    if k != "source" && k != "target" {
      assert Lookup(ps, k) == Lookup(ps[1..], k);
      assert Lookup(ps[1..], k) == Lookup(rest, k);
      if !submission.Obj? {
        assert Lookup(rest, k) == Undefined;
      }
    }
  }

  /** The paths and the command worked out from the configuration and the submission. */
  datatype Plan = Plan(workingDirectory: string, sourcePath: string, targetPath: string, command: string)

  /** The first statements of the `try` block. A configured sandbox that is neither `null` nor a
      string reaches `path.resolve`, which throws a TypeError. */
  function MakePlan(cfg: ServiceConfig, host: Host, submission: Value): (r: Result<Plan, Error>)
    ensures r.Failure? <==> !cfg.sandbox.Null? && !cfg.sandbox.Str?
    ensures r.Failure? ==> r.error == host.pathTypeError(cfg.sandbox)
  {
    var wd := host.resolve([host.format(cfg.workingDirectory, submission)]);
    var source := host.format(cfg.source, submission);
    var target := host.format(cfg.target, submission);
    if !cfg.sandbox.Null? && !cfg.sandbox.Str? then Failure(host.pathTypeError(cfg.sandbox))
    else
      var sandbox := if cfg.sandbox.Str? then Str(host.resolve([cfg.sandbox.s])) else Null;
      var sandboxArgs := if cfg.sandbox.Str? then cfg.sandboxArgs else Null;
      var compileCmd := host.format(cfg.command, CommandContext(submission, source, target));
      Success(Plan(wd, host.join(wd, source), host.join(wd, target), ShellCommand(sandbox, sandboxArgs, compileCmd, host)))
  }

  /** The working directory, the paths and the shell command of a plan: the paths are the
      formatted templates joined to the working directory, and the command is the formatted
      compile command, behind the resolved sandbox and its arguments when there is a sandbox. */
  lemma PlanFields(cfg: ServiceConfig, host: Host, submission: Value)
    requires cfg.sandbox.Null? || cfg.sandbox.Str?
    ensures var r := MakePlan(cfg, host, submission);
      var wd := host.resolve([host.format(cfg.workingDirectory, submission)]);
      var source := host.format(cfg.source, submission);
      var target := host.format(cfg.target, submission);
      var cmd := host.format(cfg.command, CommandContext(submission, source, target));
      r.Success? &&
      r.value.workingDirectory == wd &&
      r.value.sourcePath == host.join(wd, source) && r.value.targetPath == host.join(wd, target) &&
      (cfg.sandbox.Null? ==> r.value.command == cmd) &&
      (cfg.sandbox.Str? && cmd != "" && host.resolve([cfg.sandbox.s]) != "" && !Truthy(cfg.sandboxArgs) ==>
        r.value.command == host.resolve([cfg.sandbox.s]) + " " + cmd) &&
      (cfg.sandbox.Str? && cmd != "" && host.resolve([cfg.sandbox.s]) != "" && Truthy(cfg.sandboxArgs) ==>
        r.value.command == host.resolve([cfg.sandbox.s]) + " " + ToJsString(cfg.sandboxArgs, host.utf8) + " " + cmd)
  {
    var source := host.format(cfg.source, submission);
    var target := host.format(cfg.target, submission);
    var cmd := host.format(cfg.command, CommandContext(submission, source, target));
    var path := if cfg.sandbox.Str? then host.resolve([cfg.sandbox.s]) else "";
    ShellCommandCases(path, cfg.sandboxArgs, cmd, host);
  }

  function OrUndefined(s: Option<string>): string {
    if s.Some? then s.value else "undefined"
  }

  /** `stdout + '\n' + stderr` as the shell left them. */
  function ShellText(exec: ShellResult): string {
    match exec
    case ShellOk(out, err) => out + "\n" + err
    case ShellErr(out, err) => OrUndefined(out) + "\n" + OrUndefined(err)
  }

  /** The text the service reports when the binary check does not replace it. */
  function CappedText(exec: ShellResult, limits: WorkerLimits): string {
    Truncate(Trim(ShellText(exec)), limits.text)
  }

  /** A call followed by the rest of the run. */
  function Then(e: Event, rest: Run): Run {
    Run([e] + rest.events, rest.outcome)
  }

  /** The run ends here with an error. */
  function Stop(err: Error): Run {
    Run([], Fail(err))
  }

  /** The report call that ends the normal path, and how the run then ends. */
  function Report(task: Value, text: string, success: bool, binary: Option<Bytes>, w: TaskWorld): Run {
    Run([CompileEnd(task, text, success, binary)], w.compileEnd)
  }

  /** After a successful shell command: the size check, reading and compressing the binary, and
      the report. */
  function BinaryStage(targetPath: string, task: Value, text: string, limits: WorkerLimits, w: TaskWorld): Run {
    Then(Stat(targetPath),
      match w.stat
      case Failure(err) => Stop(err)
      case Success(size) =>
        if Exceeds(size, limits.executable) then Report(task, BinaryLimitMessage, false, None, w)
        else Then(ReadFile(targetPath),
          match w.readTarget
          case Failure(err) => Stop(err)
          case Success(bytes) =>
            Then(Compress(bytes),
              match w.compress(bytes)
              case Failure(err) => Stop(err)
              case Success(lz) => Report(task, text, true, Some(lz), w))))
  }

  /** The shell command, then either the failure report or the binary stage. */
  function ExecStage(plan: Plan, timeout: Value, task: Value, limits: WorkerLimits, w: TaskWorld): Run {
    var text := CappedText(w.exec, limits);
    Then(Exec(plan.command, plan.workingDirectory, timeout, MaxBuffer),
      if w.exec.ShellOk? then BinaryStage(plan.targetPath, task, text, limits, w)
      else Report(task, text, false, None, w))
  }

  /** The `try` block of `handleCompileTask`, after the claim: everything from creating the
      working directory to the `compileEnd` call. A failure anywhere ends the block with that
      error. */
  function BodyRun(cfg: ServiceConfig, host: Host, limits: WorkerLimits, task: Value, submission: Value, w: TaskWorld): Run {
    match MakePlan(cfg, host, submission)
    case Failure(err) => Stop(err)
    case Success(plan) =>
      Then(EnsureDir(plan.workingDirectory),
        if w.ensureDir.Fail? then Stop(w.ensureDir.error)
        else match ReadProp(submission, "code")
        case Failure(err) => Stop(err)
        case Success(code) =>
          Then(WriteFile(plan.sourcePath, code),
            if w.writeSource.Fail? then Stop(w.writeSource.error)
            else ExecStage(plan, cfg.timeout, task, limits, w)))
  }

  /** The calls the body makes to the filesystem, the shell and the compressor. */
  predicate IsStep(e: Event) {
    e.EnsureDir? || e.WriteFile? || e.Exec? || e.Stat? || e.ReadFile? || e.Compress?
  }

  /** Only filesystem, shell and compressor calls, except that the very last call may be the
      report; a run that ends normally has reported. */
  predicate Shaped(r: Run) {
    (forall i :: 0 <= i < |r.events| ==> IsStep(r.events[i]) || (i == |r.events| - 1 && r.events[i].CompileEnd?)) &&
    (r.outcome.Pass? ==> r.events != [] && r.events[|r.events| - 1].CompileEnd?)
  }

  /** The report a run ends with, if it reaches one. */
  function Reported(r: Run): Option<Event> {
    if r.events != [] && r.events[|r.events| - 1].CompileEnd? then Some(r.events[|r.events| - 1]) else None
  }

  lemma ThenShaped(e: Event, rest: Run)
    requires IsStep(e) && Shaped(rest)
    ensures Shaped(Then(e, rest)) && Reported(Then(e, rest)) == Reported(rest)
  {
    var r := Then(e, rest);
    assert forall i :: 1 <= i < |r.events| ==> r.events[i] == rest.events[i - 1];
  }

  /** What the report says, given the text the shell command left: `success` holds exactly when
      the binary is within its limit, the buffer is there exactly on success and is then the
      compressed target file, and the text is replaced by the fixed message when the binary is
      over the limit. */
  predicate BinaryReportFacts(report: Event, task: Value, text: string, limits: WorkerLimits, w: TaskWorld)
    requires report.CompileEnd?
  {
    report.task == task &&
    (report.success <==> w.stat.Success? && !Exceeds(w.stat.value, limits.executable)) &&
    (report.binary.Some? <==> report.success) &&
    (report.success ==> w.readTarget.Success? && w.compress(w.readTarget.value).Success? &&
                        report.binary == Some(w.compress(w.readTarget.value).value)) &&
    (report.text == if w.stat.Success? && Exceeds(w.stat.value, limits.executable) then BinaryLimitMessage else text)
  }

  lemma {:induction false} BinaryStageFacts(targetPath: string, task: Value, text: string, limits: WorkerLimits, w: TaskWorld)
    ensures var r := BinaryStage(targetPath, task, text, limits, w);
      Shaped(r) && (Reported(r).Some? ==> BinaryReportFacts(Reported(r).value, task, text, limits, w))
  {
    if w.stat.Success? && !Exceeds(w.stat.value, limits.executable) {
      if w.readTarget.Success? {
        var bytes := w.readTarget.value;
        var tail := match w.compress(bytes)
                    case Failure(err) => Stop(err)
                    case Success(lz) => Report(task, text, true, Some(lz), w);
        ThenShaped(Compress(bytes), tail);
        ThenShaped(ReadFile(targetPath), Then(Compress(bytes), tail));
        ThenShaped(Stat(targetPath), Then(ReadFile(targetPath), Then(Compress(bytes), tail)));
      } else {
        ThenShaped(ReadFile(targetPath), Stop(w.readTarget.error));
        ThenShaped(Stat(targetPath), Then(ReadFile(targetPath), Stop(w.readTarget.error)));
      }
    } else if w.stat.Success? {
      ThenShaped(Stat(targetPath), Report(task, BinaryLimitMessage, false, None, w));
    } else {
      ThenShaped(Stat(targetPath), Stop(w.stat.error));
    }
  }

  /** What the report of a normal run says: `success` holds exactly when the shell command
      succeeded and the binary is within its limit; the buffer is there exactly on success and
      is then the compressed target file; the text is the fixed message when the binary is over
      the limit and the capped, trimmed output otherwise. */
  predicate ReportFacts(report: Event, task: Value, limits: WorkerLimits, w: TaskWorld)
    requires report.CompileEnd?
  {
    report.task == task &&
    (report.success <==> w.exec.ShellOk? && w.stat.Success? && !Exceeds(w.stat.value, limits.executable)) &&
    (report.binary.Some? <==> report.success) &&
    (report.success ==> w.readTarget.Success? && w.compress(w.readTarget.value).Success? &&
                        report.binary == Some(w.compress(w.readTarget.value).value)) &&
    (report.text == if w.exec.ShellOk? && w.stat.Success? && Exceeds(w.stat.value, limits.executable)
                    then BinaryLimitMessage else CappedText(w.exec, limits))
  }

  lemma {:induction false} ExecStageFacts(plan: Plan, timeout: Value, task: Value, limits: WorkerLimits, w: TaskWorld)
    ensures var r := ExecStage(plan, timeout, task, limits, w);
      Shaped(r) &&
      (Reported(r).Some? ==> ReportFacts(Reported(r).value, task, limits, w))
  {
    var text := CappedText(w.exec, limits);
    var exec := Exec(plan.command, plan.workingDirectory, timeout, MaxBuffer);
    if w.exec.ShellOk? {
      BinaryStageFacts(plan.targetPath, task, text, limits, w);
      ThenShaped(exec, BinaryStage(plan.targetPath, task, text, limits, w));
    } else {
      ThenShaped(exec, Report(task, text, false, None, w));
    }
  }

  /** The body starts by creating the working directory and makes only filesystem, shell and
      compressor calls, except that its very last call may be the report; it ends normally only
      after reporting, and the report obeys `ReportFacts`. */
  lemma {:induction false} BodyRunFacts(cfg: ServiceConfig, host: Host, limits: WorkerLimits, task: Value, submission: Value, w: TaskWorld)
    ensures var r := BodyRun(cfg, host, limits, task, submission, w);
      (MakePlan(cfg, host, submission).Failure? ==> r == Stop(MakePlan(cfg, host, submission).error)) &&
      (MakePlan(cfg, host, submission).Success? ==>
        r.events != [] && r.events[0] == EnsureDir(MakePlan(cfg, host, submission).value.workingDirectory)) &&
      Shaped(r) &&
      (Reported(r).Some? ==> ReportFacts(Reported(r).value, task, limits, w))
  {
    if MakePlan(cfg, host, submission).Failure? {
      return;
    }
    var plan := MakePlan(cfg, host, submission).value;
    var ensure := EnsureDir(plan.workingDirectory);
    if w.ensureDir.Fail? {
      ThenShaped(ensure, Stop(w.ensureDir.error));
    } else {
      match ReadProp(submission, "code")
      case Failure(err) =>
        ThenShaped(ensure, Stop(err));
      case Success(code) =>
        var write := WriteFile(plan.sourcePath, code);
        var rest := if w.writeSource.Fail? then Stop(w.writeSource.error)
                    else ExecStage(plan, cfg.timeout, task, limits, w);
        ExecStageFacts(plan, cfg.timeout, task, limits, w);
        ThenShaped(write, rest);
        ThenShaped(ensure, Then(write, rest));
    }
  }

  lemma PrependOne(t0: seq<Event>, a: Event, tail: seq<Event>)
    ensures t0 + [a] + tail == t0 + ([a] + tail)
  {
  }

  lemma PrependTwo(t0: seq<Event>, a: Event, b: Event, tail: seq<Event>)
    ensures t0 + [a] + [b] + tail == t0 + ([a] + ([b] + tail))
  {
  }

  /** What `handleCompileTask` makes of a body run once the claim succeeded: on a failure of the
      body, a system-error report, and the error thrown again (the reporting call's own failure,
      if it has one, replaces the original error). */
  function AfterClaim(task: Value, body: Run, compileError: Outcome<Error>, host: Host): Run {
    match body.outcome
    case Pass => Run([CompileBegin(task)] + body.events, Pass)
    case Fail(err) =>
      Run([CompileBegin(task)] + body.events + [CompileError(task, InternalErrorPrefix + host.stack(err))],
          if compileError.Fail? then compileError else Fail(err))
  }

  /** `handleCompileTask(task)`: claim the submission, then run the body. */
  function HandleRun(cfg: ServiceConfig, host: Host, limits: WorkerLimits, task: Value, w: TaskWorld): Run {
    match w.begin
    case Failure(err) => Run([CompileBegin(task)], Fail(err))
    case Success(submission) => AfterClaim(task, BodyRun(cfg, host, limits, task, submission, w), w.compileError, host)
  }

  /** The message callback around a handler run: log what it threw, acknowledge. It never
      throws. */
  function Callback(h: Run): Run {
    Run(h.events + (if h.outcome.Fail? then [LogError(h.outcome.error)] else []) + [Ack], Pass)
  }

  function MessageRun(cfg: ServiceConfig, host: Host, limits: WorkerLimits, task: Value, w: TaskWorld): Run {
    Callback(HandleRun(cfg, host, limits, task, w))
  }

  /** A handler that never acknowledges by itself leaves exactly one acknowledgement to the
      callback, as its last act. */
  lemma {:induction false} CallbackAcksOnce(h: Run)
    requires forall i :: 0 <= i < |h.events| ==> !h.events[i].Ack?
    ensures CountWhere(Callback(h).events, IsAck) == 1
    ensures Callback(h).events[|Callback(h).events| - 1] == Ack
  {
    var logged := h.events + (if h.outcome.Fail? then [LogError(h.outcome.error)] else []);
    assert forall i :: 0 <= i < |logged| ==> !IsAck(logged[i]) by {
      forall i | 0 <= i < |logged| ensures !IsAck(logged[i]) {
        if i < |h.events| {
          assert logged[i] == h.events[i];
        }
      }
    }
    CountWhereNone(logged, IsAck);
    CountWhereAppend(logged, [Ack], IsAck);
  }

  lemma AfterClaimHasNoAck(task: Value, body: Run, compileError: Outcome<Error>, host: Host)
    requires Shaped(body)
    ensures var h := AfterClaim(task, body, compileError, host);
      forall i :: 0 <= i < |h.events| ==> !h.events[i].Ack?
  {
    var h := AfterClaim(task, body, compileError, host);
    forall i | 0 <= i < |h.events| ensures !h.events[i].Ack? {
      if 1 <= i < 1 + |body.events| {
        assert h.events[i] == body.events[i - 1];
      }
    }
  }

  /** Every delivered message is acknowledged exactly once, as the callback's last act, whatever
      the handler did. */
  lemma AckedExactlyOnce(cfg: ServiceConfig, host: Host, limits: WorkerLimits, task: Value, w: TaskWorld)
    ensures var m := MessageRun(cfg, host, limits, task, w).events;
      CountWhere(m, IsAck) == 1 && m[|m| - 1] == Ack
  {
    var h := HandleRun(cfg, host, limits, task, w);
    if w.begin.Success? {
      var body := BodyRun(cfg, host, limits, task, w.begin.value, w);
      BodyRunFacts(cfg, host, limits, task, w.begin.value, w);
      AfterClaimHasNoAck(task, body, w.compileError, host);
    }
    CallbackAcksOnce(h);
  }

  /** A failed claim ends the compile task quietly: no report of either kind; the error is logged and the
      message acknowledged. */
  lemma BeginFailureIsQuiet(cfg: ServiceConfig, host: Host, limits: WorkerLimits, task: Value, w: TaskWorld)
    requires w.begin.Failure?
    ensures MessageRun(cfg, host, limits, task, w).events == [CompileBegin(task), LogError(w.begin.error), Ack]
  {
  }

  lemma {:induction false} AfterClaimOnFailure(task: Value, body: Run, compileError: Outcome<Error>, host: Host)
    requires Shaped(body) && body.outcome.Fail?
    ensures var h := AfterClaim(task, body, compileError, host);
      CountWhere(h.events, IsCompileError) == 1 &&
      h.events[|h.events| - 1] == CompileError(task, InternalErrorPrefix + host.stack(body.outcome.error)) &&
      h.outcome == (if compileError.Fail? then compileError else body.outcome)
  {
    var h := AfterClaim(task, body, compileError, host);
    var before := [CompileBegin(task)] + body.events;
    var report := CompileError(task, InternalErrorPrefix + host.stack(body.outcome.error));
    assert forall i :: 0 <= i < |before| ==> !IsCompileError(before[i]) by {
      forall i | 0 <= i < |before| ensures !IsCompileError(before[i]) {
        if i >= 1 {
          assert before[i] == body.events[i - 1];
        }
      }
    }
    CountWhereNone(before, IsCompileError);
    CountWhereAppend(before, [report], IsCompileError);
  }

  /** When anything after the claim throws, exactly one system-error report follows, carrying the
      fixed prefix; the handler then throws (the report's own failure if it failed, the original
      error otherwise), and the callback logs that error before acknowledging. */
  lemma InternalErrorReported(cfg: ServiceConfig, host: Host, limits: WorkerLimits, task: Value, w: TaskWorld)
    requires w.begin.Success?
    requires BodyRun(cfg, host, limits, task, w.begin.value, w).outcome.Fail?
    ensures var body := BodyRun(cfg, host, limits, task, w.begin.value, w);
      var h := HandleRun(cfg, host, limits, task, w);
      CountWhere(h.events, IsCompileError) == 1 &&
      h.events[|h.events| - 1].CompileError? &&
      StartsWith(h.events[|h.events| - 1].text, InternalErrorPrefix) &&
      h.outcome == (if w.compileError.Fail? then w.compileError else body.outcome) &&
      MessageRun(cfg, host, limits, task, w).events == h.events + [LogError(h.outcome.error), Ack]
  {
    var body := BodyRun(cfg, host, limits, task, w.begin.value, w);
    BodyRunFacts(cfg, host, limits, task, w.begin.value, w);
    AfterClaimOnFailure(task, body, w.compileError, host);
  }

  lemma {:induction false} AfterClaimOnSuccess(task: Value, body: Run, compileError: Outcome<Error>, host: Host)
    requires Shaped(body) && body.outcome.Pass?
    ensures var h := AfterClaim(task, body, compileError, host);
      h.outcome.Pass? &&
      CountWhere(h.events, IsCompileEnd) == 1 && CountWhere(h.events, IsCompileError) == 0 &&
      h.events[|h.events| - 1] == body.events[|body.events| - 1] && h.events[|h.events| - 1].CompileEnd?
  {
    var h := AfterClaim(task, body, compileError, host);
    var n := |body.events|;
    var before := [CompileBegin(task)] + body.events[..n - 1];
    assert h.events == before + [body.events[n - 1]];
    assert forall i :: 0 <= i < |before| ==> !IsCompileEnd(before[i]) by {
      forall i | 0 <= i < |before| ensures !IsCompileEnd(before[i]) {
        if i >= 1 {
          assert before[i] == body.events[i - 1];
        }
      }
    }
    CountWhereNone(before, IsCompileEnd);
    CountWhereAppend(before, [body.events[n - 1]], IsCompileEnd);
    assert forall i :: 0 <= i < |h.events| ==> !IsCompileError(h.events[i]) by {
      forall i | 0 <= i < |h.events| ensures !IsCompileError(h.events[i]) {
        if 1 <= i {
          assert h.events[i] == body.events[i - 1];
        }
      }
    }
    CountWhereNone(h.events, IsCompileError);
  }

  /** On the normal path the result is reported exactly once, no system error is reported, and
      the callback only acknowledges. */
  lemma NormalPathReportsOnce(cfg: ServiceConfig, host: Host, limits: WorkerLimits, task: Value, w: TaskWorld)
    requires w.begin.Success?
    requires BodyRun(cfg, host, limits, task, w.begin.value, w).outcome.Pass?
    ensures var h := HandleRun(cfg, host, limits, task, w);
      h.outcome.Pass? &&
      CountWhere(h.events, IsCompileEnd) == 1 && CountWhere(h.events, IsCompileError) == 0 &&
      h.events[|h.events| - 1].CompileEnd? &&
      MessageRun(cfg, host, limits, task, w).events == h.events + [Ack]
  {
    var body := BodyRun(cfg, host, limits, task, w.begin.value, w);
    BodyRunFacts(cfg, host, limits, task, w.begin.value, w);
    AfterClaimOnSuccess(task, body, w.compileError, host);
  }

  /** The report that ends the normal path obeys both caps: a successful compile whose binary is
      over the limit is reported as a failure with the fixed message and no buffer; a text over
      its limit is cut to the limit and followed by three dots. */
  lemma ReportedTextAndBinary(cfg: ServiceConfig, host: Host, limits: WorkerLimits, task: Value, submission: Value, w: TaskWorld)
    ensures var report := Reported(BodyRun(cfg, host, limits, task, submission, w));
      report.Some? ==>
        (w.exec.ShellOk? && w.stat.Success? && Exceeds(w.stat.value, limits.executable) ==>
          !report.value.success && report.value.text == BinaryLimitMessage && report.value.binary.None?) &&
        (report.value.binary.Some? <==> report.value.success) &&
        (!(w.exec.ShellOk? && w.stat.Success? && Exceeds(w.stat.value, limits.executable)) &&
         Exceeds(|Trim(ShellText(w.exec))|, limits.text) && limits.text.value >= 0 ==>
          |report.value.text| == limits.text.value + 3 && report.value.text[limits.text.value..] == Ellipsis)
  {
    BodyRunFacts(cfg, host, limits, task, submission, w);
  }

  /** With the argument list as written, `compileEnd(task, text, success, binaryBuffer)` binds
      to the parameters `(id, token, text, success, lzmaBuffer)`: the compressed binary arrives as
      `success`, `lzmaBuffer` is `undefined`, and so no binary part is ever attached. */
  function AsWrittenCompileEndForm(e: Event, host: Host): Api.CompileEndForm
    requires e.CompileEnd?
  {
    Api.CompileEndBody(e.task, Str(e.text), Bool(e.success), BufferArg(e.binary), Undefined, host)
  }

  function BufferArg(b: Option<Bytes>): Value {
    if b.Some? then Buf(b.value) else Null
  }

  lemma AsWrittenCompileEndDropsBinary(e: Event, host: Host)
    requires e.CompileEnd?
    ensures AsWrittenCompileEndForm(e, host).binary.None?
    ensures AsWrittenCompileEndForm(e, host).text == Bool(e.success)
    ensures e.binary.None? ==> AsWrittenCompileEndForm(e, host).success == "null"
  {
  }

  /** The call as intended: the compile task's id and token, then text, flag and buffer. */
  function IntendedCompileEndForm(e: Event, host: Host): Api.CompileEndForm
    requires e.CompileEnd?
  {
    Api.CompileEndBody(Get(e.task, "id"), Get(e.task, "token"), Str(e.text), Bool(e.success), BufferArg(e.binary), host)
  }

  /** With the intended call, the report of a normal run carries the text, the flag as "true" or
      "false", and the compressed binary exactly when the compile succeeded. */
  lemma IntendedCompileEndCarriesBinary(cfg: ServiceConfig, host: Host, limits: WorkerLimits, task: Value, submission: Value, w: TaskWorld)
    requires BodyRun(cfg, host, limits, task, submission, w).outcome.Pass?
    ensures var report := Reported(BodyRun(cfg, host, limits, task, submission, w));
      report.Some? &&
      var form := IntendedCompileEndForm(report.value, host);
      form.id == Get(task, "id") && form.token == Get(task, "token") && form.text == Str(report.value.text) &&
      (form.success == "true" <==> report.value.success) &&
      (form.binary.Some? <==> report.value.success) &&
      (report.value.success ==>
        w.readTarget.Success? && w.compress(w.readTarget.value).Success? && form.binary.Some? &&
        form.binary.value.value == Buf(w.compress(w.readTarget.value).value) &&
        form.binary.value.contentType == "application/x-xz")
  {
    BodyRunFacts(cfg, host, limits, task, submission, w);
    IntendedRunForm(BodyRun(cfg, host, limits, task, submission, w), task, limits, w, host);
  }

  lemma IntendedRunForm(r: Run, task: Value, limits: WorkerLimits, w: TaskWorld, host: Host)
    requires Shaped(r) && r.outcome.Pass?
    requires Reported(r).Some? ==> ReportFacts(Reported(r).value, task, limits, w)
    ensures var report := Reported(r);
      report.Some? &&
      var form := IntendedCompileEndForm(report.value, host);
      form.id == Get(task, "id") && form.token == Get(task, "token") && form.text == Str(report.value.text) &&
      (form.success == "true" <==> report.value.success) &&
      (form.binary.Some? <==> report.value.success) &&
      (report.value.success ==>
        w.readTarget.Success? && w.compress(w.readTarget.value).Success? && form.binary.Some? &&
        form.binary.value.value == Buf(w.compress(w.readTarget.value).value) &&
        form.binary.value.contentType == "application/x-xz")
  {
    IntendedReportForm(Reported(r).value, task, limits, w, host);
  }

  lemma IntendedReportForm(report: Event, task: Value, limits: WorkerLimits, w: TaskWorld, host: Host)
    requires report.CompileEnd? && ReportFacts(report, task, limits, w)
    ensures var form := IntendedCompileEndForm(report, host);
      form.id == Get(task, "id") && form.token == Get(task, "token") && form.text == Str(report.text) &&
      (form.success == "true" <==> report.success) &&
      (form.binary.Some? <==> report.success) &&
      (report.success ==>
        w.readTarget.Success? && w.compress(w.readTarget.value).Success? && form.binary.Some? &&
        form.binary.value.value == Buf(w.compress(w.readTarget.value).value) &&
        form.binary.value.contentType == "application/x-xz")
  {
    Api.CompileEndFlagReadable(report.success, if report.binary.Some? then report.binary.value else [],
                               Get(task, "id"), Get(task, "token"), Str(report.text), host);
  }

  /** `compileBegin(task)` binds the whole task to `id` and leaves `token` undefined. */
  function AsWrittenCompileBeginForm(task: Value): Api.CompileBeginForm {
    Api.CompileBeginForm(task, Undefined)
  }

  function IntendedCompileBeginForm(task: Value): Api.CompileBeginForm {
    Api.CompileBeginForm(Get(task, "id"), Get(task, "token"))
  }

  /** The handler's first call is the claim of the task; as written it sends the whole task as
      `id` and no token, so it differs from the intended claim for every task that has one. */
  lemma AsWrittenCompileBeginLosesToken(cfg: ServiceConfig, host: Host, limits: WorkerLimits, task: Value, w: TaskWorld)
    ensures var claim := HandleRun(cfg, host, limits, task, w).events[0];
      claim == CompileBegin(task) &&
      AsWrittenCompileBeginForm(claim.task).token == Undefined &&
      AsWrittenCompileBeginForm(claim.task).id == task &&
      (Get(task, "token") != Undefined ==> AsWrittenCompileBeginForm(claim.task) != IntendedCompileBeginForm(claim.task))
  {
  }

  /** With the intended call, the claim the handler makes first carries the task's own id and
      token, whatever else the task holds. */
  lemma IntendedCompileBeginCarriesClaim(cfg: ServiceConfig, host: Host, limits: WorkerLimits, task: Value, w: TaskWorld)
    ensures var claim := HandleRun(cfg, host, limits, task, w).events[0];
      claim.CompileBegin? &&
      IntendedCompileBeginForm(claim.task).id == Get(task, "id") &&
      IntendedCompileBeginForm(claim.task).token == Get(task, "token")
  {
  }

  /** `compileError(task, text)` binds the report to `token` and leaves `text` undefined. */
  function AsWrittenCompileErrorForm(e: Event): Api.CompileErrorForm
    requires e.CompileError?
  {
    Api.CompileErrorForm(e.task, Str(e.text), Undefined)
  }

  function IntendedCompileErrorForm(e: Event): Api.CompileErrorForm
    requires e.CompileError?
  {
    Api.CompileErrorForm(Get(e.task, "id"), Get(e.task, "token"), Str(e.text))
  }

  /** As written, the system-error report of a failed run sends the prefixed text as `token` and
      no `text`, so it never matches the intended report. */
  lemma AsWrittenCompileErrorLosesText(cfg: ServiceConfig, host: Host, limits: WorkerLimits, task: Value, w: TaskWorld)
    requires w.begin.Success?
    requires BodyRun(cfg, host, limits, task, w.begin.value, w).outcome.Fail?
    ensures var h := HandleRun(cfg, host, limits, task, w);
      var e := h.events[|h.events| - 1];
      e.CompileError? && e.task == task &&
      AsWrittenCompileErrorForm(e).text == Undefined &&
      AsWrittenCompileErrorForm(e).token.Str? && StartsWith(AsWrittenCompileErrorForm(e).token.s, InternalErrorPrefix) &&
      AsWrittenCompileErrorForm(e) != IntendedCompileErrorForm(e)
  {
    InternalErrorReported(cfg, host, limits, task, w);
  }

  /** With the intended call, the system-error report of a failed run carries the prefixed text
      in its `text` field. */
  lemma IntendedCompileErrorCarriesText(cfg: ServiceConfig, host: Host, limits: WorkerLimits, task: Value, w: TaskWorld)
    requires w.begin.Success?
    requires BodyRun(cfg, host, limits, task, w.begin.value, w).outcome.Fail?
    ensures var h := HandleRun(cfg, host, limits, task, w);
      var form := IntendedCompileErrorForm(h.events[|h.events| - 1]);
      form.text.Str? && StartsWith(form.text.s, InternalErrorPrefix) &&
      form.id == Get(task, "id") && form.token == Get(task, "token")
  {
    InternalErrorReported(cfg, host, limits, task, w);
  }

  /** The service's state: the calls it has made so far, the limits once read, and whether the
      subscription is in place. */
  class CompileWorker {
    var trace: seq<Event>
    var limits: Option<WorkerLimits>
    var subscribed: bool
    const cfg: ServiceConfig
    const host: Host

    constructor (cfg0: ServiceConfig, host0: Host)
      ensures trace == [] && limits == None && !subscribed
      ensures cfg == cfg0 && host == host0
    {
      trace, limits, subscribed := [], None, false;
      cfg, host := cfg0, host0;
    }

    /** The service entry point. Outside the compile role it does nothing at all; otherwise it
        fetches the limits and subscribes. `subscribeErr` is the error the broker hands to the
        subscription callback, which throws it. */
    method Start(role: Value, fetched: Result<Value, Error>, subscribeErr: Option<Error>) returns (r: Outcome<Error>)
      modifies this
      ensures role != Str(QueueName) ==>
        r == Pass && trace == old(trace) && limits == old(limits) && subscribed == old(subscribed)
      ensures role == Str(QueueName) && ReadLimits(fetched).Failure? ==>
        r == Fail(ReadLimits(fetched).error) && trace == old(trace) + [GetLimits] &&
        limits == old(limits) && subscribed == old(subscribed)
      ensures role == Str(QueueName) && ReadLimits(fetched).Success? ==>
        limits == Some(ReadLimits(fetched).value) && trace == old(trace) + [GetLimits, Subscribe(QueueName)] &&
        (subscribeErr.Some? ==> r == Fail(subscribeErr.value) && subscribed == old(subscribed)) &&
        (subscribeErr.None? ==> r == Pass && subscribed)
    {
      if role != Str(QueueName) {
        return Pass;
      }
      trace := trace + [GetLimits];
      var read := ReadLimits(fetched);
      if read.Failure? {
        return Fail(read.error);
      }
      limits := Some(read.value);
      trace := trace + [Subscribe(QueueName)];
      if subscribeErr.Some? {
        return Fail(subscribeErr.value);
      }
      subscribed := true;
      return Pass;
    }

    /** The subscription's `error` listener. */
    method OnSubscriptionError(err: Error)
      modifies this
      ensures trace == old(trace) + [LogError(err)]
      ensures limits == old(limits) && subscribed == old(subscribed)
    {
      trace := trace + [LogError(err)];
    }

    /** The body of the `try` block, after the claim: prepare the paths and the command, create
        the working directory, write the source, run the shell command and hand its result on. */
    method RunBody(task: Value, submission: Value, w: TaskWorld) returns (outcome: Outcome<Error>)
      requires limits.Some?
      modifies this
      ensures limits == old(limits) && subscribed == old(subscribed)
      ensures trace == old(trace) + BodyRun(cfg, host, limits.value, task, submission, w).events
      ensures outcome == BodyRun(cfg, host, limits.value, task, submission, w).outcome
    {
      var lim := limits.value;
      var planned := MakePlan(cfg, host, submission);
      if planned.Failure? {
        return Fail(planned.error);
      }
      var plan := planned.value;
      ghost var t0 := trace;

      trace := trace + [EnsureDir(plan.workingDirectory)];
      if w.ensureDir.Fail? {
        return w.ensureDir;
      }
      var code := ReadProp(submission, "code");
      if code.Failure? {
        return Fail(code.error);
      }
      trace := trace + [WriteFile(plan.sourcePath, code.value)];
      if w.writeSource.Fail? {
        return w.writeSource;
      }

      outcome := RunExec(plan, task, w);
      PrependTwo(t0, EnsureDir(plan.workingDirectory), WriteFile(plan.sourcePath, code.value),
                 ExecStage(plan, cfg.timeout, task, lim, w).events);
    }

    /** The shell command: its output, trimmed and capped, and whether it succeeded. */
    method RunExec(plan: Plan, task: Value, w: TaskWorld) returns (outcome: Outcome<Error>)
      requires limits.Some?
      modifies this
      ensures limits == old(limits) && subscribed == old(subscribed)
      ensures trace == old(trace) + ExecStage(plan, cfg.timeout, task, limits.value, w).events
      ensures outcome == ExecStage(plan, cfg.timeout, task, limits.value, w).outcome
    {
      var lim := limits.value;
      var exec := Exec(plan.command, plan.workingDirectory, cfg.timeout, MaxBuffer);
      ghost var t0 := trace;
      trace := trace + [exec];
      var success: bool, stdout: string, stderr: string;
      match w.exec {
        case ShellOk(out, err) =>
          stdout, stderr, success := out, err, true;
        case ShellErr(out, err) =>
          stdout, stderr, success := OrUndefined(out), OrUndefined(err), false;
      }
      var text := Trim(stdout + "\n" + stderr);
      text := Truncate(text, lim.text);
      assert text == CappedText(w.exec, lim);
      outcome := Finish(plan.targetPath, task, text, success, w);
      ghost var tail := if success then BinaryStage(plan.targetPath, task, text, lim, w) else Report(task, text, false, None, w);
      assert ExecStage(plan, cfg.timeout, task, lim, w) == Then(exec, tail);
      PrependOne(t0, exec, tail.events);
    }

    /** From the shell's success flag on: for a successful command, check the binary's size,
        read and compress it; then report. */
    method Finish(fp: string, task: Value, text0: string, success0: bool, w: TaskWorld) returns (outcome: Outcome<Error>)
      requires limits.Some?
      modifies this
      ensures limits == old(limits) && subscribed == old(subscribed)
      ensures var r := if success0 then BinaryStage(fp, task, text0, limits.value, w) else Report(task, text0, false, None, w);
        trace == old(trace) + r.events && outcome == r.outcome
    {
      var lim := limits.value;
      var text, success := text0, success0;
      var binaryBuffer: Option<Bytes> := None;
      if success {
        trace := trace + [Stat(fp)];
        if w.stat.Failure? {
          return Fail(w.stat.error);
        }
        if Exceeds(w.stat.value, lim.executable) {
          text := BinaryLimitMessage;
          success := false;
        } else {
          trace := trace + [ReadFile(fp)];
          if w.readTarget.Failure? {
            return Fail(w.readTarget.error);
          }
          var bytes := w.readTarget.value;
          trace := trace + [Compress(bytes)];
          var compressed := w.compress(bytes);
          if compressed.Failure? {
            return Fail(compressed.error);
          }
          binaryBuffer := Some(compressed.value);
        }
      }
      trace := trace + [CompileEnd(task, text, success, binaryBuffer)];
      return w.compileEnd;
    }

    /** `handleCompileTask(task)` */
    method HandleCompileTask(task: Value, w: TaskWorld) returns (outcome: Outcome<Error>)
      requires limits.Some?
      modifies this
      ensures limits == old(limits) && subscribed == old(subscribed)
      ensures trace == old(trace) + HandleRun(cfg, host, limits.value, task, w).events
      ensures outcome == HandleRun(cfg, host, limits.value, task, w).outcome
    {
      ghost var t0 := trace;
      trace := trace + [CompileBegin(task)];
      if w.begin.Failure? {
        return Fail(w.begin.error);
      }
      ghost var body := BodyRun(cfg, host, limits.value, task, w.begin.value, w);
      outcome := RunBody(task, w.begin.value, w);
      outcome := CatchBodyError(task, outcome, w);
      PrependOne(t0, CompileBegin(task), body.events);
    }

    /** The `catch` of `handleCompileTask`: a body error is reported as a system error and
        thrown again, unless reporting it fails, in which case that failure is thrown. */
    method CatchBodyError(task: Value, bodyOutcome: Outcome<Error>, w: TaskWorld) returns (outcome: Outcome<Error>)
      modifies this
      ensures limits == old(limits) && subscribed == old(subscribed)
      ensures bodyOutcome.Pass? ==> trace == old(trace) && outcome == Pass
      ensures bodyOutcome.Fail? ==>
        trace == old(trace) + [CompileError(task, InternalErrorPrefix + host.stack(bodyOutcome.error))] &&
        outcome == if w.compileError.Fail? then w.compileError else bodyOutcome
    {
      if bodyOutcome.Pass? {
        return Pass;
      }
      trace := trace + [CompileError(task, InternalErrorPrefix + host.stack(bodyOutcome.error))];
      if w.compileError.Fail? {
        return w.compileError;
      }
      return bodyOutcome;
    }

    /** The subscription's `message` listener. */
    method OnMessage(task: Value, w: TaskWorld)
      requires limits.Some? && subscribed
      modifies this
      ensures limits == old(limits) && subscribed == old(subscribed)
      ensures trace == old(trace) + MessageRun(cfg, host, limits.value, task, w).events
    {
      var outcome := HandleCompileTask(task, w);
      if outcome.Fail? {
        trace := trace + [LogError(outcome.error)];
      }
      trace := trace + [Ack];
    }
  }
}
