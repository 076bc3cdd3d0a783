/**
 * Action sequencing (entrypoint.py): each action is a fixed list of
 * terraform invocations, each gated by a stdout-suppression threshold, run in
 * order and abandoned at the first nonzero exit.
 */
module Entrypoint {
  import opened Results
  import opened Text
  import opened Configuration

  /** What one child process yields: its exit code and the lines of its two streams. */
  datatype ProcResult = ProcResult(code: int, stdout: seq<string>, stderr: seq<string>)

  /**
   * The external process, as an oracle: the result of the `n`-th invocation
   * (counting from 0) of the argument vector `argv`.
   */
  type Process = (nat, seq<string>) -> ProcResult

  /** What a run shows: a command being started, or a line printed to stdout. */
  datatype Event = Issued(argv: seq<string>) | Printed(line: string)

  /** One terraform invocation and the `quiet` level from which its stdout is hidden. */
  datatype Stage = Stage(argv: seq<string>, threshold: int)

  /** The trace of a run and the exit status of the whole program. */
  datatype Run = Run(events: seq<Event>, status: int)

  // ---------------------------------------------------------------------
  // runBaseCmd
  // ---------------------------------------------------------------------

  /** The line printed after a failing command's stderr. */
  function Summary(cmd: seq<string>): string
  {
    "Issue running command: " + Join(cmd, ' ')
  }

  /**
   * What `runBaseCmd` prints for a command with result `res`: the stripped
   * stdout lines unless suppressed; then, only when the exit code is nonzero,
   * the stripped stderr lines (captured whether or not stdout was suppressed)
   * and the summary line.
   */
  function CommandOutput(cmd: seq<string>, quiet: bool, res: ProcResult): (lines: seq<string>)
  {
    (if quiet then [] else StripAll(res.stdout))
    + (if res.code != 0 then StripAll(res.stderr) + [Summary(cmd)] else [])
  }

  /** Printed events for a list of lines. */
  function PrintAll(lines: seq<string>): (r: seq<Event>)
    ensures |r| == |lines|
    ensures forall i :: 0 <= i < |lines| ==> r[i] == Printed(lines[i])
  {
    if lines == [] then [] else [Printed(lines[0])] + PrintAll(lines[1..])
  }

  /**
   * Runs the `n`-th command `cmd` to completion: echoes its stdout unless
   * `quiet`, collects its stderr, and on a nonzero exit prints that stderr and
   * a summary and reports failure (`runBaseCmd` then exits with status 1).
   */
  method RunBaseCmd(n: nat, cmd: seq<string>, quiet: bool, proc: Process)
    returns (printed: seq<string>, ok: bool)
    ensures ok <==> proc(n, cmd).code == 0
    ensures printed == CommandOutput(cmd, quiet, proc(n, cmd))
  {
    var tProc := proc(n, cmd);
    var errs: seq<string> := [];
    printed := [];
    if !quiet {
      var i := 0;
      while i < |tProc.stdout|
        invariant 0 <= i <= |tProc.stdout|
        invariant printed == StripAll(tProc.stdout[..i])
      {
        StripAllSnoc(tProc.stdout, i);
        printed := printed + [RStrip(tProc.stdout[i])];
        i := i + 1;
      }
      assert tProc.stdout[..i] == tProc.stdout;
    }

    var j := 0;
    while j < |tProc.stderr|
      invariant 0 <= j <= |tProc.stderr|
      invariant errs == StripAll(tProc.stderr[..j])
    {
      StripAllSnoc(tProc.stderr, j);
      errs := errs + [RStrip(tProc.stderr[j])];
      j := j + 1;
    }
    assert tProc.stderr[..j] == tProc.stderr;

    ok := tProc.code == 0;
    if !ok {
      var shown := printed;
      var k := 0;
      while k < |errs|
        invariant 0 <= k <= |errs|
        invariant printed == shown + errs[..k]
      {
        assert errs[..k + 1] == errs[..k] + [errs[k]];
        printed := printed + [errs[k]];
        k := k + 1;
      }
      assert errs[..k] == errs;
      printed := printed + [Summary(cmd)];
    }
  }

  /** A failing command's output ends with the summary line naming it. */
  lemma FailureEndsWithSummary(cmd: seq<string>, quiet: bool, res: ProcResult)
    requires res.code != 0
    ensures var out := CommandOutput(cmd, quiet, res);
            |out| > 0 && out[|out| - 1] == "Issue running command: " + Join(cmd, ' ')
  {
  }

  /**
   * Nothing from stderr is printed on success: the output is the stdout
   * lines, or nothing when suppressed. On failure the stderr lines follow the
   * visible stdout whether or not it was suppressed.
   */
  lemma CommandOutputCases(cmd: seq<string>, quiet: bool, res: ProcResult)
    ensures res.code == 0 ==>
              CommandOutput(cmd, quiet, res) == (if quiet then [] else StripAll(res.stdout))
    ensures res.code != 0 && quiet ==>
              CommandOutput(cmd, quiet, res) == StripAll(res.stderr) + [Summary(cmd)]
    ensures res.code != 0 && !quiet ==>
              CommandOutput(cmd, quiet, res)
              == StripAll(res.stdout) + StripAll(res.stderr) + [Summary(cmd)]
  {
  }

  // ---------------------------------------------------------------------
  // Running a list of stages
  // ---------------------------------------------------------------------

  /** A stage's stdout is hidden iff `quiet` has reached its threshold. */
  predicate Suppressed(quiet: int, stage: Stage)
  {
    quiet >= stage.threshold
  }

  /** The events of one stage: its start, then what `runBaseCmd` prints for it. */
  function StageEvents(stage: Stage, quiet: int, res: ProcResult): seq<Event>
  {
    [Issued(stage.argv)] + PrintAll(CommandOutput(stage.argv, Suppressed(quiet, stage), res))
  }

  /** The trace of running `stages` in order, the first being invocation `n`. */
  function RunFrom(stages: seq<Stage>, quiet: int, proc: Process, n: nat): Run
    decreases |stages|
  {
    if stages == [] then Run([], 0)
    else
      var res := proc(n, stages[0].argv);
      var here := StageEvents(stages[0], quiet, res);
      if res.code != 0 then Run(here, 1)
      else
        var rest := RunFrom(stages[1..], quiet, proc, n + 1);
        Run(here + rest.events, rest.status)
  }

  /** The run `run` preceded by the events `events`. */
  function Prepend(events: seq<Event>, run: Run): Run
  {
    Run(events + run.events, run.status)
  }

  /** Running from stage `i` is that stage's events, then, if it succeeded, the rest. */
  lemma RunFromStep(stages: seq<Stage>, quiet: int, proc: Process, i: nat)
    requires i < |stages|
    ensures var res := proc(i, stages[i].argv);
            var here := StageEvents(stages[i], quiet, res);
            RunFrom(stages[i..], quiet, proc, i)
            == if res.code != 0 then Run(here, 1) else Prepend(here, RunFrom(stages[i + 1..], quiet, proc, i + 1))
  {
    assert stages[i..][0] == stages[i] && stages[i..][1..] == stages[i + 1..];
  }

  /** Prepending twice is prepending the concatenation. */
  lemma PrependTwice(a: seq<Event>, b: seq<Event>, run: Run)
    ensures Prepend(a, Prepend(b, run)) == Prepend(a + b, run)
  {
    assert a + (b + run.events) == (a + b) + run.events;
  }

  /** Runs the stages one after another, stopping at the first failing one. */
  method RunStages(stages: seq<Stage>, quiet: int, proc: Process) returns (run: Run)
    ensures run == RunFrom(stages, quiet, proc, 0)
  {
    var events: seq<Event> := [];
    var i := 0;
    assert stages[0..] == stages;
    assert Prepend([], RunFrom(stages, quiet, proc, 0)) == RunFrom(stages, quiet, proc, 0);
    while i < |stages|
      invariant 0 <= i <= |stages|
      invariant RunFrom(stages, quiet, proc, 0) == Prepend(events, RunFrom(stages[i..], quiet, proc, i))
    {
      var stage := stages[i];
      var printed, ok := RunBaseCmd(i, stage.argv, Suppressed(quiet, stage), proc);
      var here := [Issued(stage.argv)] + PrintAll(printed);
      assert here == StageEvents(stage, quiet, proc(i, stage.argv));
      RunFromStep(stages, quiet, proc, i);
      if !ok {
        events := events + here;
        return Run(events, 1);
      }
      PrependTwice(events, here, RunFrom(stages[i + 1..], quiet, proc, i + 1));
      events := events + here;
      i := i + 1;
    }
    assert stages[i..] == [];
    return Run(events, 0);
  }

  /** The commands a trace starts, in order. */
  function IssuedOf(events: seq<Event>): seq<seq<string>>
  {
    if events == [] then []
    else (if events[0].Issued? then [events[0].argv] else []) + IssuedOf(events[1..])
  }

  /** The argument vectors of a list of stages. */
  function Argvs(stages: seq<Stage>): (r: seq<seq<string>>)
    ensures |r| == |stages|
    ensures forall i :: 0 <= i < |stages| ==> r[i] == stages[i].argv
  {
    if stages == [] then [] else [stages[0].argv] + Argvs(stages[1..])
  }

  /** The index of the first stage whose invocation exits nonzero, or the number of stages. */
  function FirstFailure(stages: seq<Stage>, proc: Process, n: nat): (f: nat)
    ensures f <= |stages|
    decreases |stages|
  {
    if stages == [] then 0
    else if proc(n, stages[0].argv).code != 0 then 0
    else 1 + FirstFailure(stages[1..], proc, n + 1)
  }

  /** Every stage before the first failure exits 0, and the first failure does not. */
  lemma {:induction false} FirstFailureMeaning(stages: seq<Stage>, proc: Process, n: nat)
    ensures forall i :: 0 <= i < FirstFailure(stages, proc, n) ==> proc(n + i, stages[i].argv).code == 0
    ensures FirstFailure(stages, proc, n) < |stages| ==>
              proc(n + FirstFailure(stages, proc, n), stages[FirstFailure(stages, proc, n)].argv).code != 0
    decreases |stages|
  {
    if stages != [] && proc(n, stages[0].argv).code == 0 {
      FirstFailureMeaning(stages[1..], proc, n + 1);
      var f := FirstFailure(stages, proc, n);
      forall i | 0 <= i < f ensures proc(n + i, stages[i].argv).code == 0 {
        if i > 0 {
          assert stages[i] == stages[1..][i - 1];
          assert n + i == (n + 1) + (i - 1);
        }
      }
      if f < |stages| {
        assert stages[f] == stages[1..][f - 1];
        assert n + f == (n + 1) + (f - 1);
      }
    }
  }

  lemma {:induction false} IssuedOfAppend(a: seq<Event>, b: seq<Event>)
    ensures IssuedOf(a + b) == IssuedOf(a) + IssuedOf(b)
  {
    if a == [] {
      assert a + b == b;
    } else {
      assert (a + b)[0] == a[0];
      assert (a + b)[1..] == a[1..] + b;
      IssuedOfAppend(a[1..], b);
    }
  }

  lemma {:induction false} IssuedOfPrinted(lines: seq<string>)
    ensures IssuedOf(PrintAll(lines)) == []
  {
    if lines != [] {
      IssuedOfPrinted(lines[1..]);
    }
  }

  /**
   * Fail-fast: the run starts the stages up to and including the first
   * failing one and no later stage; it exits with status 1 after a failure,
   * whatever the child's code, ends by printing that stage's summary line,
   * and exits with 0 when every stage succeeds.
   */
  lemma RunFailFast(stages: seq<Stage>, quiet: int, proc: Process, n: nat)
    ensures var f := FirstFailure(stages, proc, n);
            var run := RunFrom(stages, quiet, proc, n);
            && IssuedOf(run.events) == Argvs(stages)[..if f < |stages| then f + 1 else f]
            && run.status == (if f < |stages| then 1 else 0)
            && (f < |stages| ==>
                  |run.events| > 0
                  && run.events[|run.events| - 1] == Printed(Summary(stages[f].argv)))
  {
    RunIssued(stages, quiet, proc, n);
    RunStatus(stages, quiet, proc, n);
    if FirstFailure(stages, proc, n) < |stages| {
      RunEndsWithSummary(stages, quiet, proc, n);
    }
  }

  lemma {:induction false} RunIssued(stages: seq<Stage>, quiet: int, proc: Process, n: nat)
    ensures var f := FirstFailure(stages, proc, n);
            IssuedOf(RunFrom(stages, quiet, proc, n).events)
            == Argvs(stages)[..if f < |stages| then f + 1 else f]
    decreases |stages|
  {
    if stages == [] {
      assert RunFrom(stages, quiet, proc, n).events == [];
      assert Argvs(stages)[..0] == [];
    } else {
      var s := stages[0];
      var res := proc(n, s.argv);
      var here := StageEvents(s, quiet, res);
      StageIssues(s, quiet, res);
      var all := Argvs(stages);
      assert all == [s.argv] + Argvs(stages[1..]);
      var f := FirstFailure(stages, proc, n);
      if res.code != 0 {
        assert f == 0;
        assert RunFrom(stages, quiet, proc, n).events == here;
        assert all[..1] == [s.argv];
      } else {
        var rest := RunFrom(stages[1..], quiet, proc, n + 1);
        var g := FirstFailure(stages[1..], proc, n + 1);
        assert f == g + 1;
        assert IssuedOf(RunFrom(stages, quiet, proc, n).events) == [s.argv] + IssuedOf(rest.events) by {
          assert RunFrom(stages, quiet, proc, n).events == here + rest.events;
          IssuedOfAppend(here, rest.events);
        }
        RunIssued(stages[1..], quiet, proc, n + 1);
        var m := if f < |stages| then f + 1 else f;
        PrefixCons(s.argv, Argvs(stages[1..]), m);
      }
    }
  }

  /** A prefix of a sequence with a head is that head and a shorter prefix of the tail. */
  lemma PrefixCons<T>(x: T, tail: seq<T>, m: nat)
    requires 1 <= m <= |tail| + 1
    ensures ([x] + tail)[..m] == [x] + tail[..m - 1]
  {
  }

  lemma {:induction false} RunStatus(stages: seq<Stage>, quiet: int, proc: Process, n: nat)
    ensures RunFrom(stages, quiet, proc, n).status
            == (if FirstFailure(stages, proc, n) < |stages| then 1 else 0)
    decreases |stages|
  {
    if stages != [] && proc(n, stages[0].argv).code == 0 {
      RunStatus(stages[1..], quiet, proc, n + 1);
    }
  }

  lemma {:induction false} RunEndsWithSummary(stages: seq<Stage>, quiet: int, proc: Process, n: nat)
    requires FirstFailure(stages, proc, n) < |stages|
    ensures var run := RunFrom(stages, quiet, proc, n);
            |run.events| > 0
            && run.events[|run.events| - 1] == Printed(Summary(stages[FirstFailure(stages, proc, n)].argv))
    decreases |stages|
  {
    var s := stages[0];
    var res := proc(n, s.argv);
    var here := StageEvents(s, quiet, res);
    if res.code != 0 {
      assert FirstFailure(stages, proc, n) == 0;
      assert RunFrom(stages, quiet, proc, n).events == here;
      assert here[|here| - 1] == Printed(Summary(s.argv)) by {
        FailureEndsWithSummary(s.argv, Suppressed(quiet, s), res);
      }
    } else {
      var rest := RunFrom(stages[1..], quiet, proc, n + 1);
      assert FirstFailure(stages, proc, n) == 1 + FirstFailure(stages[1..], proc, n + 1);
      assert RunFrom(stages, quiet, proc, n).events == here + rest.events;
      RunEndsWithSummary(stages[1..], quiet, proc, n + 1);
      assert stages[FirstFailure(stages, proc, n)] == stages[1..][FirstFailure(stages[1..], proc, n + 1)];
    }
  }

  /** One stage starts exactly its own command. */
  lemma StageIssues(stage: Stage, quiet: int, res: ProcResult)
    ensures IssuedOf(StageEvents(stage, quiet, res)) == [stage.argv]
  {
    var out := CommandOutput(stage.argv, Suppressed(quiet, stage), res);
    IssuedOfAppend([Issued(stage.argv)], PrintAll(out));
    IssuedOfPrinted(out);
    assert IssuedOf([Issued(stage.argv)]) == [stage.argv];
  }

  // ---------------------------------------------------------------------
  // runCreate, runPreview, runDestroy and the dispatch in main
  // ---------------------------------------------------------------------

  datatype Action = Create | Preview | Destroy | Debug

  /** The two entries the runners read from the configuration dictionary, which may be missing. */
  datatype RunOptions = RunOptions(workDir: Option<string>, quiet: Option<int>)

  /** `opts.get('work_dir', '.')`. */
  function WorkDirOf(opts: RunOptions): string
  {
    match opts.workDir
    case Some(w) => w
    case None => "."
  }

  /** `opts.get('quiet', -1)`. */
  function QuietOf(opts: RunOptions): int
  {
    match opts.quiet
    case Some(q) => q
    case None => -1
  }

  /** A terraform command run in `workDir`. */
  function Terraform(workDir: string, subcommand: seq<string>): seq<string>
  {
    ["terraform", "-chdir=" + workDir] + subcommand
  }

  /** The stages of an action; `debug` has none. */
  function StagesOf(action: Action, workDir: string): seq<Stage>
  {
    match action
    case Create => [Stage(Terraform(workDir, ["init"]), 1),
                    Stage(Terraform(workDir, ["plan"]), 2),
                    Stage(Terraform(workDir, ["apply", "-auto-approve"]), 3)]
    case Preview => [Stage(Terraform(workDir, ["init"]), 1),
                     Stage(Terraform(workDir, ["plan"]), 2)]
    case Destroy => [Stage(Terraform(workDir, ["init"]), 1),
                     Stage(Terraform(workDir, ["destroy", "-auto-approve"]), 2)]
    case Debug => []
  }

  /** `runCreate`: init, plan and apply, hidden from `quiet` 1, 2 and 3. */
  method RunCreate(opts: RunOptions, proc: Process) returns (run: Run)
    ensures run == RunFrom(StagesOf(Create, WorkDirOf(opts)), QuietOf(opts), proc, 0)
  {
    run := RunStages(StagesOf(Create, WorkDirOf(opts)), QuietOf(opts), proc);
  }

  /** `runPreview`: init and plan, hidden from `quiet` 1 and 2. */
  method RunPreview(opts: RunOptions, proc: Process) returns (run: Run)
    ensures run == RunFrom(StagesOf(Preview, WorkDirOf(opts)), QuietOf(opts), proc, 0)
  {
    run := RunStages(StagesOf(Preview, WorkDirOf(opts)), QuietOf(opts), proc);
  }

  /** `runDestroy`: init and destroy, hidden from `quiet` 1 and 2. */
  method RunDestroy(opts: RunOptions, proc: Process) returns (run: Run)
    ensures run == RunFrom(StagesOf(Destroy, WorkDirOf(opts)), QuietOf(opts), proc, 0)
  {
    run := RunStages(StagesOf(Destroy, WorkDirOf(opts)), QuietOf(opts), proc);
  }

  /** The stdout of stage `i` of any action is hidden exactly when `quiet >= i + 1`. */
  lemma StageThresholds(action: Action, workDir: string, quiet: int)
    ensures forall i :: 0 <= i < |StagesOf(action, workDir)| ==>
              (Suppressed(quiet, StagesOf(action, workDir)[i]) <==> quiet >= i + 1)
  {
  }

  /** Raising `quiet` never makes a hidden stage visible again. */
  lemma SuppressionMonotone(action: Action, workDir: string, quiet: int, louder: int)
    requires quiet <= louder
    ensures forall i :: 0 <= i < |StagesOf(action, workDir)|
                        && Suppressed(quiet, StagesOf(action, workDir)[i]) ==>
              Suppressed(louder, StagesOf(action, workDir)[i])
  {
  }

  /** A missing `work_dir` is `.`, a missing `quiet` is -1, and then no stage is hidden. */
  lemma MissingOptions(action: Action)
    ensures WorkDirOf(RunOptions(None, None)) == "."
    ensures QuietOf(RunOptions(None, None)) == -1
    ensures forall i :: 0 <= i < |StagesOf(action, ".")| ==> !Suppressed(-1, StagesOf(action, ".")[i])
  {
  }

  /** Every command of every action is `terraform -chdir=<work_dir> ...`. */
  lemma CommandsRunInWorkDir(action: Action, workDir: string)
    ensures forall i :: 0 <= i < |StagesOf(action, workDir)| ==>
              && |StagesOf(action, workDir)[i].argv| >= 3
              && StagesOf(action, workDir)[i].argv[..2] == ["terraform", "-chdir=" + workDir]
  {
  }

  /** Where the first failure lies in a list of three stages. */
  lemma FirstFailureThree(stages: seq<Stage>, proc: Process)
    requires |stages| == 3
    ensures FirstFailure(stages, proc, 0)
            == if proc(0, stages[0].argv).code != 0 then 0
               else if proc(1, stages[1].argv).code != 0 then 1
               else if proc(2, stages[2].argv).code != 0 then 2
               else 3
  {
    var b, c := stages[1..], stages[1..][1..];
    assert b[0] == stages[1] && c[0] == stages[2] && c[1..] == [];
    assert FirstFailure(c, proc, 2) == if proc(2, stages[2].argv).code != 0 then 0 else 1;
    assert FirstFailure(b, proc, 1)
           == if proc(1, stages[1].argv).code != 0 then 0 else 1 + FirstFailure(c, proc, 2);
  }

  /** Fail-fast spelled out for a list of three stages. */
  lemma ThreeStages(stages: seq<Stage>, quiet: int, proc: Process)
    requires |stages| == 3
    ensures var a, b, c := stages[0].argv, stages[1].argv, stages[2].argv;
            var run := RunFrom(stages, quiet, proc, 0);
            && (proc(0, a).code != 0 ==> IssuedOf(run.events) == [a] && run.status == 1)
            && (proc(0, a).code == 0 && proc(1, b).code != 0 ==>
                  IssuedOf(run.events) == [a, b] && run.status == 1)
            && (proc(0, a).code == 0 && proc(1, b).code == 0 ==>
                  && IssuedOf(run.events) == [a, b, c]
                  && run.status == (if proc(2, c).code == 0 then 0 else 1))
  {
    var all := Argvs(stages);
    assert all == [stages[0].argv, stages[1].argv, stages[2].argv];
    FirstFailureThree(stages, proc);
    RunIssued(stages, quiet, proc, 0);
    RunStatus(stages, quiet, proc, 0);
    assert all[..1] == [all[0]] && all[..2] == [all[0], all[1]] && all[..3] == all;
  }

  /** Where the first failure lies in a list of two stages. */
  lemma FirstFailureTwo(stages: seq<Stage>, proc: Process)
    requires |stages| == 2
    ensures FirstFailure(stages, proc, 0)
            == if proc(0, stages[0].argv).code != 0 then 0
               else if proc(1, stages[1].argv).code != 0 then 1
               else 2
  {
    var b := stages[1..];
    assert b[0] == stages[1] && b[1..] == [];
    assert FirstFailure(b, proc, 1) == if proc(1, stages[1].argv).code != 0 then 0 else 1;
  }

  /** Fail-fast spelled out for a list of two stages. */
  lemma TwoStages(stages: seq<Stage>, quiet: int, proc: Process)
    requires |stages| == 2
    ensures var a, b := stages[0].argv, stages[1].argv;
            var run := RunFrom(stages, quiet, proc, 0);
            && (proc(0, a).code != 0 ==> IssuedOf(run.events) == [a] && run.status == 1)
            && (proc(0, a).code == 0 ==>
                  && IssuedOf(run.events) == [a, b]
                  && run.status == (if proc(1, b).code == 0 then 0 else 1))
  {
    var all := Argvs(stages);
    assert all == [stages[0].argv, stages[1].argv];
    FirstFailureTwo(stages, proc);
    RunIssued(stages, quiet, proc, 0);
    RunStatus(stages, quiet, proc, 0);
    assert all[..1] == [all[0]] && all[..2] == all;
  }

  /**
   * `create` starts init, then plan only if init succeeded, then apply only
   * if plan succeeded; it exits 0 only when all three succeed and 1 otherwise.
   */
  lemma CreateSequence(workDir: string, quiet: int, proc: Process)
    ensures var init := ["terraform", "-chdir=" + workDir, "init"];
            var plan := ["terraform", "-chdir=" + workDir, "plan"];
            var apply := ["terraform", "-chdir=" + workDir, "apply", "-auto-approve"];
            var run := RunFrom(StagesOf(Create, workDir), quiet, proc, 0);
            && (proc(0, init).code != 0 ==> IssuedOf(run.events) == [init] && run.status == 1)
            && (proc(0, init).code == 0 && proc(1, plan).code != 0 ==>
                  IssuedOf(run.events) == [init, plan] && run.status == 1)
            && (proc(0, init).code == 0 && proc(1, plan).code == 0 ==>
                  && IssuedOf(run.events) == [init, plan, apply]
                  && run.status == (if proc(2, apply).code == 0 then 0 else 1))
  {
    var stages := StagesOf(Create, workDir);
    assert stages[0].argv == ["terraform", "-chdir=" + workDir, "init"];
    assert stages[1].argv == ["terraform", "-chdir=" + workDir, "plan"];
    assert stages[2].argv == ["terraform", "-chdir=" + workDir, "apply", "-auto-approve"];
    ThreeStages(stages, quiet, proc);
  }

  /** `preview` starts init, then plan only if init succeeded; it never applies. */
  lemma PreviewSequence(workDir: string, quiet: int, proc: Process)
    ensures var init := ["terraform", "-chdir=" + workDir, "init"];
            var plan := ["terraform", "-chdir=" + workDir, "plan"];
            var run := RunFrom(StagesOf(Preview, workDir), quiet, proc, 0);
            && (proc(0, init).code != 0 ==> IssuedOf(run.events) == [init] && run.status == 1)
            && (proc(0, init).code == 0 ==>
                  && IssuedOf(run.events) == [init, plan]
                  && run.status == (if proc(1, plan).code == 0 then 0 else 1))
  {
    var stages := StagesOf(Preview, workDir);
    assert stages[0].argv == ["terraform", "-chdir=" + workDir, "init"];
    assert stages[1].argv == ["terraform", "-chdir=" + workDir, "plan"];
    TwoStages(stages, quiet, proc);
  }

  /** `destroy` starts init, then destroy only if init succeeded. */
  lemma DestroySequence(workDir: string, quiet: int, proc: Process)
    ensures var init := ["terraform", "-chdir=" + workDir, "init"];
            var destroy := ["terraform", "-chdir=" + workDir, "destroy", "-auto-approve"];
            var run := RunFrom(StagesOf(Destroy, workDir), quiet, proc, 0);
            && (proc(0, init).code != 0 ==> IssuedOf(run.events) == [init] && run.status == 1)
            && (proc(0, init).code == 0 ==>
                  && IssuedOf(run.events) == [init, destroy]
                  && run.status == (if proc(1, destroy).code == 0 then 0 else 1))
  {
    var stages := StagesOf(Destroy, workDir);
    assert stages[0].argv == ["terraform", "-chdir=" + workDir, "init"];
    assert stages[1].argv == ["terraform", "-chdir=" + workDir, "destroy", "-auto-approve"];
    TwoStages(stages, quiet, proc);
  }

  /** One whole program run: what resolution yields and what the chosen action then does. */
  datatype Invocation = Invocation(resolved: Result<Resolved, ConfigError>, run: Run)

  /** The runners' view of a resolved configuration, in which both entries are present. */
  function RunOptionsOf(config: Config): RunOptions
  {
    RunOptions(Some(config.workDir), Some(config.quiet))
  }

  /**
   * `main` after argument parsing: resolve the configuration and write
   * `main.tf`, then hand the configuration to exactly one runner; `debug`
   * starts no command. A resolution error ends the program (status 1) before
   * any command is started.
   */
  method Invoke(action: Action, args: Args, render: Renderer, proc: Process) returns (inv: Invocation)
    ensures Resolve(args).Err? ==> inv == Invocation(Err(Resolve(args).error), Run([], 1))
    ensures Resolve(args).Ok? ==>
              && inv.resolved.Ok? && TypeKey in Resolve(args).value.backend
              && Composed(Resolve(args).value, inv.resolved.value.config, inv.resolved.value.mainTf, render)
    ensures inv.resolved.Ok? && action == Debug ==> inv.run == Run([], 0)
    ensures inv.resolved.Ok? ==>
              var opts := RunOptionsOf(inv.resolved.value.config);
              inv.run == RunFrom(StagesOf(action, WorkDirOf(opts)), QuietOf(opts), proc, 0)
  {
    var config := ProcessConfig(args, render);
    if config.Err? {
      return Invocation(config, Run([], 1));
    }
    var opts := RunOptionsOf(config.value.config);
    var run: Run;
    match action {
      case Debug => run := Run([], 0);
      case Create => run := RunCreate(opts, proc);
      case Preview => run := RunPreview(opts, proc);
      case Destroy => run := RunDestroy(opts, proc);
    }
    inv := Invocation(config, run);
  }

  /**
   * Whatever the process does, a non-debug action starts a non-empty prefix of
   * its own stage list and nothing else, and `debug` starts nothing.
   */
  lemma DispatchIssuesOwnStages(action: Action, workDir: string, quiet: int, proc: Process)
    ensures var issued := IssuedOf(RunFrom(StagesOf(action, workDir), quiet, proc, 0).events);
            var own := Argvs(StagesOf(action, workDir));
            && (action == Debug ==> issued == [])
            && (action != Debug ==> 1 <= |issued| <= |own| && issued == own[..|issued|])
  {
    RunFailFast(StagesOf(action, workDir), quiet, proc, 0);
  }
}
