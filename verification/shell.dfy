/** The shell adapter of cmd_shell.go: inline commands run as
    `shell -c command`, scripts are written to a uniquely named file and run
    as `shell file`. Formatting, hashing, path joining, the clock, the random
    draws and the file write are inputs. */
module Shell {
  import opened Options
  import opened CmdErrors
  import opened Executor
  import opened ScriptName

  /** `fmt.Sprintf` with string arguments. */
  type Formatter = (string, seq<string>) -> string

  /** What materializing a script depends on besides its text. */
  datatype ScriptHost = ScriptHost(
    format: Formatter,
    md5: string -> Digest,
    join: (string, string) -> string,
    write: (string, string) -> Option<Error>,
    nowMicros: int,
    draws: Draws)

  /** The script file: its base name, the path written, the bytes written
      and the error of the write, if any. */
  datatype ScriptFile = ScriptFile(base: string, path: string, data: string, writeErr: Option<Error>)

  datatype ScriptRun = ScriptRun(file: ScriptFile, out: Outcome)

  /** The shell both adapters run: the executor's own, else `DefaultShell`. */
  function EffectiveShell(c: Cmd, g: Globals): (shell: string)
    ensures c.shell != "" ==> shell == c.shell
    ensures c.shell == "" ==> shell == g.defaultShell
  {
    if c.shell == "" then g.defaultShell else c.shell
  }

  /** The text is formatted only when there are positional arguments. */
  function Expand(format: Formatter, text: string, args: seq<string>): (r: string)
    ensures |args| == 0 ==> r == text
    ensures |args| > 0 ==> r == format(text, args)
  {
    if |args| != 0 then format(text, args) else text
  }

  /** `RunShellCmd`: `shell -c command`, the command passed as one argument
      without quoting. */
  function RunShellCmd(c: Cmd, g: Globals, process: Process, format: Formatter, cmdfmt: string, cmdargs: seq<string>): (out: Outcome)
    requires EffectiveShell(c, g) != ""
    ensures out.spawned.Some?
    ensures out.spawned.value.name == EffectiveShell(c, g)
    ensures out.spawned.value.args == ["-c", Expand(format, cmdfmt, cmdargs)]
    ensures out == Run(c, g, process, out.spawned.value.name, out.spawned.value.args)
  {
    Run(c, g, process, EffectiveShell(c, g), ["-c", Expand(format, cmdfmt, cmdargs)])
  }

  /** Without arguments the command reaches the shell verbatim, so the
      formatter plays no part at all. */
  lemma ShellCmdVerbatim(c: Cmd, g: Globals, process: Process, f1: Formatter, f2: Formatter, cmdfmt: string)
    requires EffectiveShell(c, g) != ""
    ensures RunShellCmd(c, g, process, f1, cmdfmt, []).spawned.value.args == ["-c", cmdfmt]
    ensures RunShellCmd(c, g, process, f1, cmdfmt, []) == RunShellCmd(c, g, process, f2, cmdfmt, [])
  {
  }

  function ExecuteShellCmd(c: Cmd, g: Globals, process: Process, format: Formatter, cmdfmt: string, cmdargs: seq<string>): (err: Option<Error>)
    requires EffectiveShell(c, g) != ""
    ensures err == RunShellCmd(c, g, process, format, cmdfmt, cmdargs).err
    ensures err.Some? ==> err.value.CmdErr?
  {
    RunShellCmd(c, g, process, format, cmdfmt, cmdargs).err
  }

  function OutputShellCmd(c: Cmd, g: Globals, process: Process, format: Formatter, cmdfmt: string, cmdargs: seq<string>): (r: (string, Option<Error>))
    requires EffectiveShell(c, g) != ""
    ensures var out := RunShellCmd(c, g, process, format, cmdfmt, cmdargs); r == (out.stdout, out.err)
    ensures var exit := process(Invocation(RunnerOf(c), EffectiveTimeout(c.timeout, g.defaultTimeout),
                                           EffectiveShell(c, g), ["-c", Expand(format, cmdfmt, cmdargs)]));
      && r.0 == exit.stdout
      && (r.1.None? <==> exit.err.None?)
      && (r.1.Some? ==> r.1.value.CmdErr?)
  {
    var out := RunShellCmd(c, g, process, format, cmdfmt, cmdargs);
    (out.stdout, out.err)
  }

  /** Where the script file goes: under `ShellScriptDir` when it is set,
      else the bare name. */
  function ScriptPath(dir: string, join: (string, string) -> string, base: string): (path: string)
    ensures dir != "" ==> path == join(dir, base)
    ensures dir == "" ==> path == base
  {
    if dir != "" then join(dir, base) else base
  }

  /** `getScriptFile`: names the file after the digest of exactly the bytes
      it then writes, the clock and the random draws. */
  function GetScriptFile(g: Globals, host: ScriptHost, script: string): (file: ScriptFile)
    ensures file.data == script
    ensures file.base == BaseName(Stamp(host.md5(file.data), host.nowMicros, host.draws))
    ensures file.path == ScriptPath(g.shellScriptDir, host.join, file.base)
    ensures file.writeErr == host.write(file.path, script)
  {
    var base := BaseName(Stamp(host.md5(script), host.nowMicros, host.draws));
    var path := ScriptPath(g.shellScriptDir, host.join, base);
    ScriptFile(base, path, script, host.write(path, script))
  }

  /** Two scripts materialized with different digests, clock readings or
      random draws never share a file name. */
  lemma ScriptNamesDiffer(g: Globals, h1: ScriptHost, h2: ScriptHost, s1: string, s2: string)
    requires Stamp(h1.md5(s1), h1.nowMicros, h1.draws) != Stamp(h2.md5(s2), h2.nowMicros, h2.draws)
    ensures GetScriptFile(g, h1, s1).base != GetScriptFile(g, h2, s2).base
  {
    if GetScriptFile(g, h1, s1).base == GetScriptFile(g, h2, s2).base {
      BaseNameInjective(Stamp(h1.md5(s1), h1.nowMicros, h1.draws), Stamp(h2.md5(s2), h2.nowMicros, h2.draws));
    }
  }

  /** Without a script directory the file path is the bare name, so two such
      scripts never share a path either. */
  lemma ScriptPathsDiffer(g: Globals, h1: ScriptHost, h2: ScriptHost, s1: string, s2: string)
    requires Stamp(h1.md5(s1), h1.nowMicros, h1.draws) != Stamp(h2.md5(s2), h2.nowMicros, h2.draws)
    requires g.shellScriptDir == ""
    ensures GetScriptFile(g, h1, s1).path != GetScriptFile(g, h2, s2).path
  {
    ScriptNamesDiffer(g, h1, h2, s1, s2);
  }

  /** `RunShellScript` can reach `Run` only with a non-empty shell. */
  predicate ScriptRunnable(c: Cmd, g: Globals, host: ScriptHost, script: string, args: seq<string>)
  {
    GetScriptFile(g, host, Expand(host.format, script, args)).writeErr.None? ==> EffectiveShell(c, g) != ""
  }

  /** `RunShellScript`: write the expanded script, then run `shell file`. A
      failed write ends the call with an error naming the unexpanded script,
      before any process is started or hook called. */
  function RunShellScript(c: Cmd, g: Globals, process: Process, host: ScriptHost, script: string, args: seq<string>): (r: ScriptRun)
    requires ScriptRunnable(c, g, host, script, args)
    ensures r.file == GetScriptFile(g, host, Expand(host.format, script, args))
    ensures r.out.spawned.Some? <==> r.file.writeErr.None?
    ensures r.file.writeErr.Some? ==>
      r.out == Outcome("", "", Some(CmdErr(CmdError(script, args, "", "", r.file.writeErr.value))), None, [])
    ensures r.file.writeErr.None? ==>
      && r.out.spawned.value.name == EffectiveShell(c, g)
      && r.out.spawned.value.args == [r.file.path]
      && r.out == Run(c, g, process, EffectiveShell(c, g), [r.file.path])
  {
    var text := Expand(host.format, script, args);
    var file := GetScriptFile(g, host, text);
    if file.writeErr.Some? then
      ScriptRun(file, Outcome("", "", Some(CmdErr(NewCmdError(script, args, "", "", file.writeErr.value))), None, []))
    else
      ScriptRun(file, Run(c, g, process, EffectiveShell(c, g), [file.path]))
  }

  /** The file handed to the shell is named after the digest of the very
      bytes written into it. */
  lemma ScriptDigestMatchesContent(c: Cmd, g: Globals, process: Process, host: ScriptHost, script: string, args: seq<string>)
    requires ScriptRunnable(c, g, host, script, args)
    ensures var r := RunShellScript(c, g, process, host, script, args);
      && r.file.data == Expand(host.format, script, args)
      && ParseBaseName(r.file.base).Some?
      && ParseBaseName(r.file.base).value.digest == host.md5(r.file.data)
  {
    var text := Expand(host.format, script, args);
    BaseNameRoundTrip(Stamp(host.md5(text), host.nowMicros, host.draws));
  }

  /** Both adapters fall back to the same shell: a script that was written
      runs under exactly the shell an inline command would. The source writes
      this fallback out twice, once per adapter; the model shares the single
      definition `EffectiveShell`, so this lemma records that the two copies
      agree rather than checking two separate definitions. */
  lemma SameShellBothPaths(c: Cmd, g: Globals, process: Process, host: ScriptHost, script: string, args: seq<string>, cmdfmt: string, cmdargs: seq<string>)
    requires EffectiveShell(c, g) != ""
    requires GetScriptFile(g, host, Expand(host.format, script, args)).writeErr.None?
    ensures RunShellScript(c, g, process, host, script, args).out.spawned.value.name
         == RunShellCmd(c, g, process, host.format, cmdfmt, cmdargs).spawned.value.name
         == (if c.shell != "" then c.shell else g.defaultShell)
  {
  }

  function ExecuteShellScript(c: Cmd, g: Globals, process: Process, host: ScriptHost, script: string, args: seq<string>): (err: Option<Error>)
    requires ScriptRunnable(c, g, host, script, args)
    ensures err == RunShellScript(c, g, process, host, script, args).out.err
    ensures err.Some? ==> err.value.CmdErr?
  {
    RunShellScript(c, g, process, host, script, args).out.err
  }

  function OutputShellScript(c: Cmd, g: Globals, process: Process, host: ScriptHost, script: string, args: seq<string>): (r: (string, Option<Error>))
    requires ScriptRunnable(c, g, host, script, args)
    ensures var out := RunShellScript(c, g, process, host, script, args).out; r == (out.stdout, out.err)
    ensures var file := GetScriptFile(g, host, Expand(host.format, script, args));
      && (file.writeErr.Some? ==> r == ("", Some(CmdErr(CmdError(script, args, "", "", file.writeErr.value)))))
      && (file.writeErr.None? ==>
            var exit := process(Invocation(RunnerOf(c), EffectiveTimeout(c.timeout, g.defaultTimeout),
                                           EffectiveShell(c, g), [file.path]));
            r.0 == exit.stdout && (r.1.None? <==> exit.err.None?))
      && (r.1.Some? ==> r.1.value.CmdErr?)
  {
    var out := RunShellScript(c, g, process, host, script, args).out;
    (out.stdout, out.err)
  }

}
