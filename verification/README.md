# go-exec command-execution core, modelled in Dafny

This project models the decision layer of the Go package `exec` (xgfone/go-exec):
the `CmdError` value and its `Error()` text, the executor `Cmd` with its result
hooks, timeout choice and run-function choice, `Run` with its `Execute` and
`Output` projections, and the shell adapter that runs inline commands as
`shell -c command` and scripts as `shell file`, including the layout of the
script file name.

The process, the clock, the random number generator, the MD5 digest,
`fmt.Sprintf`, `filepath.Join` and the file write are inputs to the model:

- the process is a function `Process` from the `Invocation` handed to it (run
  function, timeout, program, arguments) to what it reports (`Exit`: stdout,
  stderr, error);
- `fmt.Sprintf`, `md5.Sum`, `filepath.Join` and `ioutil.WriteFile` are
  function-valued fields of `Shell.ScriptHost`; the digest is typed as exactly
  16 bytes;
- `time.Now().UnixMicro()` is an integer and the eight `rand.Intn(36)` results
  are a sequence of eight values in `[0, 36)`.

A Go `error` is `Option<Error>` (`None` is `nil`); an `Error` is either a
`CmdError` or any other failure, known by its `Error()` text. Result hooks are
known by identity; each call of a hook is recorded in the outcome as a
`HookCall`, so "every hook runs once, in order, with the original error" is a
statement about the outcome.

Modules, one per concern of the source:

- `Options` — the `Option` datatype.
- `Text` — Go's `%d` rendering of an integer and `hex.EncodeToString`, each
  with a parser proved to invert it.
- `CmdErrors` — `CmdError`, `NewCmdError`, `Unwrap` and `Error()` (cmd.go).
  `Error()` is specified as a list of `key=value` fields joined by `", "`; the
  method `ErrorString` performs the source's buffer writes and is proved to
  produce that join.
- `Executor` — `Cmd`, `NewCmd`, `AppendResultHooks`, the run-function choice
  of `runCmd`, `runResultHooks`, `Run`, `Execute`, `Output` (cmd.go).
- `ScriptName` — the base name built by `getScriptFile` (cmd_shell.go), with a
  parser proved to recover digest, timestamp and random draws from it.
- `Shell` — `RunShellCmd`, `RunShellScript`, `getScriptFile` and their
  `Execute*`/`Output*` projections (cmd_shell.go).

How the model follows the code where it could be read more than one way:

- log.go declares `LogResult(r Result)` and cmd_unix_test.go assigns
  `cmd.ResultHook = func(Result) {}` and `cmd.CmdHook`, but cmd.go defines
  result hooks as a list `ResultHooks` of functions of
  `(name, args, stdout, stderr, err)`, all called in order; the model follows
  cmd.go;
- the custom run function (`Cmd.RunCmd`, cmd.go:122-125) returns only an
  error, and the streams are still read from the executor's buffers;
- `AppendResultHooks` changes the executor in place (a pointer receiver); the
  model returns the changed configuration (see `Executor.AppendResultHooks`
  under "Left out" for the one way the two can differ);
- the early error of `RunShellScript` (cmd_shell.go:106) calls `NewResult`,
  which neither cmd.go nor cmd_shell.go defines; `NewResult` has the same
  parameter list as `NewCmdError` and is modelled by it.

## Model

| member | source | states |
|---|---|---|
| `CmdErrors.NewCmdError` | cmd.go:45-47 | stores name, args, stdout and stderr unchanged, and unwrapping the result gives back exactly the error it was given |
| `CmdErrors.Unwrap` | cmd.go:74-76 | returns the stored error, and the `CmdError`'s text always closes with `, err=` followed by that error's text |
| `CmdErrors.ArgsText` | cmd.go:57 | the arguments are rendered inside square brackets: `[]` for none, `[a]` for one, several separated by spaces |
| `CmdErrors.ArgsTextCons` | cmd.go:57 | with two or more arguments the text is `[`, the first argument, one space, then the remaining arguments' text after its opening bracket |
| `CmdErrors.ErrorString` | cmd.go:49-71 | the source's sequence of buffer writes produces exactly the shown fields joined by `", "` |
| `CmdErrors.RenderLayout` | cmd.go:53-70 | the text is `cmd=` and the name, then `, args=`, `, stdout=`, `, stderr=` parts each only when present, then `, err=` and the error's text |
| `CmdErrors.RenderFrame` | cmd.go:53-70 | the text always starts with `cmd=` followed by the name and always ends with `, err=` followed by the underlying error's text |
| `CmdErrors.FieldsPresence` | cmd.go:56-67 | the args field is shown iff there are arguments, stdout iff stdout is non-empty, stderr iff stderr is non-empty; name and error are always shown |
| `CmdErrors.FieldsOrder` | cmd.go:53-70 | the fields always come in the order name, args, stdout, stderr, err, opening with the name and closing with the error |
| `CmdErrors.RenderLength` | cmd.go:53-70 | the length of the text is the sum of the fixed labels present and the values shown |
| `CmdErrors.GrowHintSuffices` | cmd.go:52 | without arguments the capacity reserved before writing is never exceeded |
| `Executor.NewCmd` | cmd.go:109 | a new executor has no hooks, no shell, no timeout and no custom run function |
| `Executor.AppendResultHooks` | cmd.go:112-114 | the existing hooks keep their order, the new ones follow them, and no other setting changes |
| `Executor.AppendedHooksRunLast` | cmd.go:130-132 | after appending hooks, a run makes the old hook calls first and the new ones after them, and is otherwise unchanged |
| `Executor.RunnerOf` | cmd.go:122-125 | the custom run function is used iff one is set |
| `Executor.EffectiveTimeout` | cmd.go:153-160 | the timeout is the executor's when positive, else the package default when positive, else none; a chosen timeout is always positive |
| `Executor.NotifyHooks` | cmd.go:130-132 | every hook is called exactly once, in list order, with the same name, args, streams and the original error |
| `Executor.WrapError` | cmd.go:134-138 | no error stays none, a `CmdError` is returned unchanged, any other error is wrapped with name, args and both streams; a returned error is always a `CmdError` |
| `Executor.WrapIdempotent` | cmd.go:134-138 | an already wrapped error is never wrapped again, whatever fields the second call carries |
| `Executor.WrapUnwrap` | cmd.go:137 | wrapping a plain error and unwrapping the result gives the original error back |
| `Executor.RunResultHooks` | cmd.go:128-141 | the streams pass through unchanged, the hooks see the unwrapped error, and the returned error is the wrapped one |
| `Executor.Run` | cmd.go:147-178 | the name must be non-empty; the process gets the chosen run function, the effective timeout, the name and the args; the caller gets the process's streams, the wrapped error, and one hook call per hook in order |
| `Executor.RunErrorIsCmdError` | cmd.go:143-146 | every error `Run` returns is a `CmdError`, and `Run` fails exactly when the process reported an error |
| `Executor.Execute` | cmd.go:181-184 | returns exactly the error of `Run`, which is none iff the process reported none |
| `Executor.Output` | cmd.go:187-190 | returns exactly the stdout and the error of `Run`; the stdout is what the process captured |
| `Text.Decimal` | cmd_shell.go:129-130 | `%d` gives the canonical decimal text: a non-empty digit string led by a minus sign exactly for negative numbers, with no leading zeros, and exactly `0` for zero |
| `Text.DecimalRoundTrip` | cmd_shell.go:129-130 | the timestamp can be read back from its `%d` rendering |
| `Text.HexEncode` | cmd_shell.go:128 | the hex text has two lower-case hex digits per byte |
| `Text.HexRoundTrip` | cmd_shell.go:128 | the digest can be read back from its hex text |
| `ScriptName.RandomSuffix` | cmd_shell.go:119-124 | the suffix has exactly 8 characters, each from `0123456789abcdefghijklmnopqrstuvwxyz`, the i-th picked by the i-th draw |
| `ScriptName.BaseName` | cmd_shell.go:129-130 | the name starts with `_cmd_exec_run_shell_script_md5`, has 32 lower-case hex digits at positions 30 to 61, ends with `.sh`, is 75 characters longer than the timestamp's decimal text, and contains no `/` |
| `ScriptName.BaseNameRoundTrip` | cmd_shell.go:126-130 | the digest, the timestamp and the eight draws can all be read back from the name |
| `ScriptName.BaseNameInjective` | cmd_shell.go:126-130 | two names are equal only when digest, timestamp and draws all are |
| `Shell.EffectiveShell` | cmd_shell.go:50-53 | the shell is the executor's when set, else `DefaultShell` |
| `Shell.Expand` | cmd_shell.go:55-61 | the text is formatted only when there are positional arguments, and passed verbatim otherwise |
| `Shell.RunShellCmd` | cmd_shell.go:48-64 | the process is started as the effective shell with exactly the arguments `-c` and the expanded command |
| `Shell.ShellCmdVerbatim` | cmd_shell.go:55-63 | with no arguments the shell receives the command text verbatim, whatever the formatter does |
| `Shell.ExecuteShellCmd` | cmd_shell.go:67-70 | returns exactly the error of `RunShellCmd`, always a `CmdError` when present |
| `Shell.OutputShellCmd` | cmd_shell.go:73-76 | returns exactly the stdout and the error of `RunShellCmd`; that stdout is what the process started as `shell -c command` captured, and an error is returned exactly when that process reported one, always as a `CmdError` |
| `Shell.ScriptPath` | cmd_shell.go:132-134 | the name is joined under the script directory iff that directory is non-empty |
| `Shell.GetScriptFile` | cmd_shell.go:118-138 | the file name reads back as the digest of exactly the bytes written, the clock reading and the draws; the write goes to the script path, joined under the script directory only when that directory is set |
| `Shell.ScriptNamesDiffer` | cmd_shell.go:126-130 | scripts with different digests, clock readings or draws get different base names |
| `Shell.ScriptPathsDiffer` | cmd_shell.go:126-134 | when no script directory is set, such scripts also get different file paths |
| `Shell.RunShellScript` | cmd_shell.go:93-116 | a failed write returns an error naming the unexpanded script and its args with empty streams, starting no process and calling no hook; otherwise the effective shell runs with exactly one argument, the script path |
| `Shell.ScriptDigestMatchesContent` | cmd_shell.go:126-136 | the bytes written are the expanded script, and they are the bytes whose digest names the file |
| `Shell.SameShellBothPaths` | cmd_shell.go:111-115 | a written script runs under the same shell an inline command would, the executor's when set, else `DefaultShell` |
| `Shell.ExecuteShellScript` | cmd_shell.go:79-82 | returns exactly the error of `RunShellScript`, always a `CmdError` when present |
| `Shell.OutputShellScript` | cmd_shell.go:85-89 | returns exactly the stdout and the error of `RunShellScript`; a failed script write gives empty stdout and a `CmdError` naming the unexpanded script and its args and holding the write error; otherwise the stdout is what the process started as `shell path` captured, and an error is returned exactly when that process reported one; every error is a `CmdError` |

## Left out

- Process spawning, waiting and exit status (`exec.CommandContext`, `cmd.Run`): the process is the `Process` input.
- Context deadlines and cancellation: only the choice of timeout is modelled, not its composition with the caller's context or the passage of time.
- The mutex `Cmd.Lock` held around the run function: it serializes concurrent runs and has no effect on a single sequential run.
- The `sync.Pool` of output buffers and their `Reset`: allocation reuse only; the model takes the streams as the process reports them.
- Writing the script file with mode 0700 and removing it afterwards with `os.RemoveAll`: file-system effects; the write's outcome is the `write` input.
- The operating-system dependent initial value of `ShellScriptDir` (`os.TempDir()`, empty on js and windows): the directory is part of `Globals`.
- `md5.Sum`, `time.Now`, `rand.Intn`: inputs, as described above.
- `fmt.Sprintf` with positional arguments: an uninterpreted `Formatter`.
- `filepath.Join`: an uninterpreted function; path cleaning is not modelled.
- The package-level functions of global.go and global_shell.go: each only forwards to `DefaultCmd`.
- log.go: logging side effects only.
- The side effects of the result hooks themselves: only the calls are recorded.
- A `CmdError` whose `Err` is nil: its `Error()` would dereference nil; the model's `CmdError` always holds an error.
- The 64-bit width of `time.Duration` and of the microsecond timestamp: no arithmetic is done on them, so no wrap-around can arise.
- `CmdErrors.ArgsText`: Go's `%s` rendering of `[]string` in `Error()` is modelled concretely as the elements separated by spaces inside square brackets.
- `Executor.AppendResultHooks`: Go's `append` (cmd.go:113) may write into a backing array shared with a copy of the `Cmd` value taken earlier, so that copy can later see, or lose, hooks appended through another copy; the model's configurations are values and never share storage.
- `CmdErrors.RenderLength`, `CmdErrors.GrowHintSuffices`: Go strings are byte sequences and `len` counts bytes, while the model's strings are sequences of characters and its lengths count characters; the fixed labels are ASCII, so the additive relation holds for byte lengths of UTF-8 text too, but values that are not valid UTF-8 cannot be represented.
- `Executor.NotifyHooks`: a nil result hook cannot be represented, since hooks are known by identity. In Go, `AppendResultHooks(nil)` (cmd.go:113) is accepted, and every later `Run` then panics at the nil hook call (cmd.go:131) after the process has run: the hooks after it are skipped and no result is returned. The model's `NotifyHooks` and `Run` promise every hook runs once and `Run` returns normally, which holds only for non-nil hooks.
