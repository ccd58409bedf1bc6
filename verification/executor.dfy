/** The executor of cmd.go: its configuration, the choice of timeout and run
    function, the result hooks, and `Run` with its two projections. The
    process itself is an oracle: a function from what is handed to it to
    what it reports. */
module Executor {
  import opened Options
  import opened CmdErrors

  /** A result hook, known only by its identity. */
  type HookId = nat

  /** A caller-supplied `RunCmd` function, known only by its identity. */
  type RunnerId = nat

  /** The executor's configuration (`Cmd`): result hooks, shell, timeout in
      nanoseconds and an optional custom run function. */
  datatype Cmd = Cmd(
    resultHooks: seq<HookId>,
    shell: string,
    timeout: int,
    runCmd: Option<RunnerId>)

  /** The package-level settings: `DefaultTimeout` of cmd.go, and
      `DefaultShell` and `ShellScriptDir` of cmd_shell.go. They are grouped
      here, with the executor, so that every operation takes one value for
      the package's mutable globals; only the shell adapter reads the last
      two. */
  datatype Globals = Globals(defaultTimeout: int, defaultShell: string, shellScriptDir: string)

  /** How the prepared command is run: `cmd.Run()` or the custom `RunCmd`. */
  datatype Runner = DefaultRun | CustomRun(id: RunnerId)

  /** What reaches the process layer: the run function chosen, the timeout
      bound to the context (if any), the program and its arguments. */
  datatype Invocation = Invocation(runner: Runner, timeout: Option<int>, name: string, args: seq<string>)

  /** What the process layer reports: both captured streams and its error. */
  datatype Exit = Exit(stdout: string, stderr: string, err: Option<Error>)

  type Process = Invocation -> Exit

  /** One call of a result hook, with the values it was given. */
  datatype HookCall = HookCall(
    hook: HookId,
    name: string,
    args: seq<string>,
    stdout: string,
    stderr: string,
    err: Option<Error>)

  /** The result of running a command: what the caller receives, the
      invocation handed to the process (if any), and the hook calls made. */
  datatype Outcome = Outcome(
    stdout: string,
    stderr: string,
    err: Option<Error>,
    spawned: Option<Invocation>,
    observed: seq<HookCall>)

  /** `NewCmd`: the zero configuration. */
  function NewCmd(): (c: Cmd)
    ensures |c.resultHooks| == 0 && c.shell == "" && c.timeout == 0 && c.runCmd.None?
  {
    Cmd([], "", 0, None)
  }

  /** `AppendResultHooks`: the existing hooks keep their order and the new
      ones follow them; nothing else changes. */
  function AppendResultHooks(c: Cmd, hooks: seq<HookId>): (c': Cmd)
    ensures |c'.resultHooks| == |c.resultHooks| + |hooks|
    ensures c'.resultHooks[..|c.resultHooks|] == c.resultHooks
    ensures c'.resultHooks[|c.resultHooks|..] == hooks
    ensures c'.shell == c.shell && c'.timeout == c.timeout && c'.runCmd == c.runCmd
  {
    c.(resultHooks := c.resultHooks + hooks)
  }

  /** The timeout `Run` binds to the context: the executor's own when
      positive, else the package default when positive, else none. */
  function EffectiveTimeout(timeout: int, defaultTimeout: int): (t: Option<int>)
    ensures t.Some? ==> t.value > 0
    ensures t.None? <==> timeout <= 0 && defaultTimeout <= 0
    ensures timeout > 0 ==> t == Some(timeout)
    ensures timeout <= 0 && defaultTimeout > 0 ==> t == Some(defaultTimeout)
  {
    if timeout > 0 then Some(timeout)
    else if defaultTimeout > 0 then Some(defaultTimeout)
    else None
  }

  /** `runCmd`: the custom run function is used exactly when one is set. */
  function RunnerOf(c: Cmd): (r: Runner)
    ensures r.CustomRun? <==> c.runCmd.Some?
    ensures r.CustomRun? ==> r.id == c.runCmd.value
  {
    match c.runCmd
    case Some(id) => CustomRun(id)
    case None => DefaultRun
  }

  /** The `for` loop of `runResultHooks`: every hook is called once, in
      order, with the same values. */
  function NotifyHooks(hooks: seq<HookId>, name: string, args: seq<string>, stdout: string, stderr: string, err: Option<Error>): (calls: seq<HookCall>)
    ensures |calls| == |hooks|
    ensures forall i :: 0 <= i < |hooks| ==> calls[i] == HookCall(hooks[i], name, args, stdout, stderr, err)
  {
    if |hooks| == 0 then []
    else [HookCall(hooks[0], name, args, stdout, stderr, err)] + NotifyHooks(hooks[1..], name, args, stdout, stderr, err)
  }

  /** The type switch of `runResultHooks`: no error stays no error, a
      `CmdError` passes through untouched, and any other error is wrapped
      with the command's identity and captured output. */
  function WrapError(name: string, args: seq<string>, stdout: string, stderr: string, err: Option<Error>): (r: Option<Error>)
    ensures r.None? <==> err.None?
    ensures r.Some? ==> r.value.CmdErr?
    ensures err.Some? && err.value.CmdErr? ==> r == err
    ensures err.Some? && err.value.Failure? ==>
      r.value.cmd == CmdError(name, args, stdout, stderr, err.value)
  {
    match err
    case None => None
    case Some(CmdErr(_)) => err
    case Some(e) => Some(CmdErr(NewCmdError(name, args, stdout, stderr, e)))
  }

  /** Wrapping twice is wrapping once: an error that has been through
      `WrapError` is never wrapped again, whatever the second call's fields. */
  lemma WrapIdempotent(name: string, args: seq<string>, stdout: string, stderr: string, err: Option<Error>,
                       name': string, args': seq<string>, stdout': string, stderr': string)
    ensures WrapError(name', args', stdout', stderr', WrapError(name, args, stdout, stderr, err))
         == WrapError(name, args, stdout, stderr, err)
  {
  }

  /** Wrapping loses nothing: a wrapped error unwraps to the original. */
  lemma WrapUnwrap(name: string, args: seq<string>, stdout: string, stderr: string, e: Error)
    requires e.Failure?
    ensures var r := WrapError(name, args, stdout, stderr, Some(e));
      r.Some? && r.value.CmdErr? && Unwrap(r.value.cmd) == e
  {
  }

  /** `runResultHooks`: hooks first, with the original error; then the
      error is wrapped. The streams pass through unchanged. */
  function RunResultHooks(c: Cmd, name: string, args: seq<string>, stdout: string, stderr: string, err: Option<Error>): (out: Outcome)
    ensures out.stdout == stdout && out.stderr == stderr
    ensures out.err == WrapError(name, args, stdout, stderr, err)
    ensures out.observed == NotifyHooks(c.resultHooks, name, args, stdout, stderr, err)
    ensures out.spawned.None?
  {
    var calls := NotifyHooks(c.resultHooks, name, args, stdout, stderr, err);
    Outcome(stdout, stderr, WrapError(name, args, stdout, stderr, err), None, calls)
  }

  /** `Run`. An empty name is a programming error (the source panics). */
  function Run(c: Cmd, g: Globals, process: Process, name: string, args: seq<string>): (out: Outcome)
    requires name != ""
    ensures out.spawned == Some(Invocation(RunnerOf(c), EffectiveTimeout(c.timeout, g.defaultTimeout), name, args))
    ensures var exit := process(out.spawned.value);
      && out.stdout == exit.stdout
      && out.stderr == exit.stderr
      && out.err == WrapError(name, args, exit.stdout, exit.stderr, exit.err)
      && |out.observed| == |c.resultHooks|
      && (forall i :: 0 <= i < |c.resultHooks| ==>
            out.observed[i] == HookCall(c.resultHooks[i], name, args, exit.stdout, exit.stderr, exit.err))
  {
    var inv := Invocation(RunnerOf(c), EffectiveTimeout(c.timeout, g.defaultTimeout), name, args);
    var exit := process(inv);
    RunResultHooks(c, name, args, exit.stdout, exit.stderr, exit.err).(spawned := Some(inv))
  }

  /** Every error `Run` returns is a `CmdError`, and it fails exactly when
      the process reported an error. */
  lemma RunErrorIsCmdError(c: Cmd, g: Globals, process: Process, name: string, args: seq<string>)
    requires name != ""
    ensures var out := Run(c, g, process, name, args);
      && (out.err.Some? ==> out.err.value.CmdErr?)
      && (out.err.None? <==> process(out.spawned.value).err.None?)
  {
  }

  /** Hooks appended later are called after the earlier ones, and appending
      hooks changes nothing else about a run. */
  lemma {:induction false} AppendedHooksRunLast(c: Cmd, g: Globals, process: Process, name: string, args: seq<string>, hooks: seq<HookId>)
    requires name != ""
    ensures var before := Run(c, g, process, name, args);
      var after := Run(AppendResultHooks(c, hooks), g, process, name, args);
      var exit := process(before.spawned.value);
      && after.observed == before.observed + NotifyHooks(hooks, name, args, exit.stdout, exit.stderr, exit.err)
      && after.(observed := []) == before.(observed := [])
  {
    var before := Run(c, g, process, name, args);
    var after := Run(AppendResultHooks(c, hooks), g, process, name, args);
    var exit := process(before.spawned.value);
    var extra := NotifyHooks(hooks, name, args, exit.stdout, exit.stderr, exit.err);
    assert |after.observed| == |before.observed + extra|;
    forall i | 0 <= i < |after.observed|
      ensures after.observed[i] == (before.observed + extra)[i]
    {
      if i >= |c.resultHooks| {
        assert AppendResultHooks(c, hooks).resultHooks[i] == hooks[i - |c.resultHooks|];
      }
    }
  }

  /** `Execute`: only the error of `Run`. */
  function Execute(c: Cmd, g: Globals, process: Process, name: string, args: seq<string>): (err: Option<Error>)
    requires name != ""
    ensures err == Run(c, g, process, name, args).err
    ensures err.None? <==> process(Invocation(RunnerOf(c), EffectiveTimeout(c.timeout, g.defaultTimeout), name, args)).err.None?
  {
    Run(c, g, process, name, args).err
  }

  /** `Output`: the standard output and the error of `Run`. */
  function Output(c: Cmd, g: Globals, process: Process, name: string, args: seq<string>): (r: (string, Option<Error>))
    requires name != ""
    ensures r == (Run(c, g, process, name, args).stdout, Run(c, g, process, name, args).err)
    ensures r.0 == process(Invocation(RunnerOf(c), EffectiveTimeout(c.timeout, g.defaultTimeout), name, args)).stdout
  {
    var out := Run(c, g, process, name, args);
    (out.stdout, out.err)
  }

}
