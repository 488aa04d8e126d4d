# helm-cli in Dafny

A model of `HelmCLI`, the Ruby wrapper around the `helm` executable
(`lib/helm-cli.rb`). The wrapper builds an argument vector for each helm
command, joins it with spaces and launches it, forwards or captures the
process's output, and records the exit status where the calling fiber can
read it back. It also lets a caller swap that fiber's output sinks for the
length of a block.

The model has four modules:

- `Wrappers` (`wrappers.dfy`): an `Option` type. `GetOr` is Ruby's `x || default`.
- `HelmCommands` (`commands.dfy`): the client configuration, the commands and
  their argument vectors (`BaseCmd`, `SetFlags`, `ChartArgv`, `Argv`). It also
  has the loop that appends `--set` pairs (`BuildChartArgv`), which is proved
  equal to the pure vector. `Join` models `Array#join(' ')`, and `Split` cuts
  the joined string back into fields at every space.
- `HelmOutcomes` (`outcomes.dfy`): how a process ends (`ExitStatus`, with
  `success?` and `exitstatus`), what `StringIO#puts` collects from standard
  output (`Capture`), and the decision each operation makes from the status
  (`GetReleaseOutcome`, `RescueMissingRelease`, `InstallOutcome`,
  `UpgradeOutcome`). Errors are a `Result` datatype, not exceptions.
- `HelmClient` (`client.dfy`):
  - `ThreadContext` holds the storage the source keeps in `Thread.current`:
    the last status and the stored stdout and stderr sinks, with their getters
    (`LastStatus`, `Stdout`, `Stderr`), setters and `WithPipes`.
  - `HelmCli` holds the configuration and the operations, and takes a
    `ThreadContext` and a `HelmProcess` oracle as arguments.
  - `ClientScenario` shows what a caller can derive from the contracts alone.

The source keys its storage on fixed symbols (`:helm_cli_last_status`, …) of
`Thread.current`, whose `[]` holds fiber-local values. So the storage is per
fiber (the thread's root fiber unless fibers are used), and every client
object used on one fiber shares one status and one pair of sinks. That is why
the storage is a separate object, given to each operation, and not a field
of the client.

The helm process is an oracle of type `string -> Run`, given to each
launching operation. It receives the space-joined command string, as
`Open3.popen3` does in the source. It answers with the exit status and the
lines printed on standard output and standard error.

Three things the code does that a caller might not expect:

- `upgrade_chart` fails with `InstallError`, not `UpgradeError`
  (lib/helm-cli.rb:78). `UpgradeError` is declared but nothing raises it.
  `UpgradeOutcome` and `UpgradeFailsAsInstall` state this.
- The argument vector is not passed to the process as a vector. It is joined
  with single spaces and launched as one string (lib/helm-cli.rb:117, 144).
  `SplitJoin` shows that the vector is recoverable from that string only when
  no argument contains a space. `ArgumentWithSpaceIsLost` shows it is lost
  as soon as one argument does.
- `with_pipes` saves the previous sinks through the getters, which already
  substitute STDOUT and STDERR. If no sink was stored, it afterwards stores
  STDOUT and STDERR explicitly. The getters then answer as before, but the
  stored values have changed from nil. `WithPipes` states both facts.

## Model

| member | source | states |
|---|---|---|
| HelmCommands.BuildChartArgv | lib/helm-cli.rb:50-56 | growing the vector with one `--set key=value` pair per parameter yields exactly the pure install/upgrade vector for that verb |
| HelmCommands.SetFlagsSnoc | lib/helm-cli.rb:54-56 | one more parameter adds exactly its own `--set` pair at the end, nothing else |
| HelmCommands.SetFlagsLength | lib/helm-cli.rb:54-56 | the parameters contribute two arguments each |
| HelmCommands.SetFlagsAt | lib/helm-cli.rb:54-56 | parameter i becomes `--set` at position 2i and `key=value` at 2i+1, so the flags keep the mapping's order |
| HelmCommands.SetArgumentsOfSetFlags | lib/helm-cli.rb:55 | the `key=value` arguments read back from the flags are the parameters' assignments, in order |
| HelmCommands.ArgvStartsWithBase | lib/helm-cli.rb:112-114 | every command's first three arguments are the executable, `--kubeconfig` and the credentials path |
| HelmCommands.InstallArgvShape | lib/helm-cli.rb:50-56 | the install vector is base, `install`, release, chart, `--version`, version, `-n`, namespace, then the flags; it has 10 + 2n arguments, and exactly 10 with no parameters |
| HelmCommands.UpgradeArgvIsInstallArgvWithVerb | lib/helm-cli.rb:67-73 | the upgrade vector equals the install vector with element 3 changed from `install` to `upgrade` |
| HelmCommands.Split | lib/helm-cli.rb:144 | cutting a string at its spaces yields at least one field, and no field holds a space |
| HelmCommands.JoinSplit | lib/helm-cli.rb:144 | joining the space-cut fields of a string gives the string back, so the cut loses nothing |
| HelmCommands.SplitJoin | lib/helm-cli.rb:144 | when no argument contains a space, the fields of the joined command string are the argument vector |
| HelmCommands.ArgumentWithSpaceIsLost | lib/helm-cli.rb:117 | if any argument contains a space, the joined string's fields are not the argument vector |
| HelmOutcomes.CaptureOfTerminatedLines | lib/helm-cli.rb:123 | lines that end in a newline are captured verbatim and in order |
| HelmOutcomes.CaptureEndsWithNewline | lib/helm-cli.rb:123 | the capture is empty exactly when there are no lines; otherwise it ends in a newline, and it is at least as long as the lines together |
| HelmOutcomes.PutLineKeepsLine | lib/helm-cli.rb:123 | `puts` of a line writes the whole line, followed by at most one added newline, and always ends in a newline |
| HelmOutcomes.CaptureOne | lib/helm-cli.rb:123 | capturing a single line is `puts` of that line |
| HelmOutcomes.CaptureAppend | lib/helm-cli.rb:123 | capturing lines a then b is the capture of a followed by the capture of b, so with CaptureOne and PutLineKeepsLine every line appears verbatim and in order |
| HelmOutcomes.GetReleaseOutcome | lib/helm-cli.rb:34-39 | succeeds exactly when helm succeeded, returning the captured stdout; otherwise a MissingReleaseError with the release and exit code |
| HelmOutcomes.ReleaseExistsIffSuccess | lib/helm-cli.rb:42-47 | `release_exists?` yields true exactly when helm exited with code 0, and never an error |
| HelmOutcomes.RescueKeepsOtherErrors | lib/helm-cli.rb:45-46 | the rescue turns only MissingReleaseError into false; any other error passes through unchanged |
| HelmOutcomes.InstallOutcome | lib/helm-cli.rb:60-63 | install succeeds exactly when helm succeeded; otherwise an InstallError with the release and exit code |
| HelmOutcomes.UpgradeOutcome | lib/helm-cli.rb:77-80 | upgrade succeeds exactly when helm succeeded; otherwise an error of the InstallError kind with the release and exit code |
| HelmOutcomes.InstallFailsIffNonZero | lib/helm-cli.rb:60-63 | for an exit code, install fails exactly when it is non-zero, and the error carries that code |
| HelmOutcomes.UpgradeFailsAsInstall | lib/helm-cli.rb:78 | upgrade's outcome is always install's outcome, so it never fails with the UpgradeError kind |
| HelmOutcomes.MissingReleaseCarriesCode | lib/helm-cli.rb:35-37 | a non-zero exit gives MissingReleaseError with that code; exit 0 gives the captured output |
| HelmClient.ThreadContext.constructor | lib/helm-cli.rb:19 | a fresh fiber has no last status and no stored sinks: its `Thread.current` keys read nil (also lines 95 and 103) |
| HelmClient.ThreadContext.LastStatus | lib/helm-cli.rb:18-20 | `last_status` is the status the latest command stored, absent before any command |
| HelmClient.ThreadContext.Stdout | lib/helm-cli.rb:94-96 | the stored stdout sink, or STDOUT when none is stored |
| HelmClient.ThreadContext.Stderr | lib/helm-cli.rb:102-104 | the stored stderr sink, or STDERR when none is stored |
| HelmClient.ThreadContext.SetStdout | lib/helm-cli.rb:98-100 | stores the stdout sink and leaves stderr and the status alone |
| HelmClient.ThreadContext.SetStderr | lib/helm-cli.rb:106-108 | stores the stderr sink and leaves stdout and the status alone |
| HelmClient.ThreadContext.SetLastStatus | lib/helm-cli.rb:167-169 | replaces any earlier status and leaves the sinks alone |
| HelmClient.ThreadContext.WithPipes | lib/helm-cli.rb:83-92 | the body runs with the sinks set to the given ones; afterwards, whether it returned or raised, the sinks are the ones the getters gave before and the body's status stays; the body's value is returned, or its exception passed on |
| HelmClient.HelmCli.constructor | lib/helm-cli.rb:13-16 | the client keeps the credentials path and the executable it is given |
| HelmClient.HelmCli.RunStreaming | lib/helm-cli.rb:143-165 | launches the joined command and records its exit status; the stored sinks do not change |
| HelmClient.HelmCli.RunCapturing | lib/helm-cli.rb:116-141 | launches the joined command, records its exit status and returns its captured standard output |
| HelmClient.HelmCli.AddRepo | lib/helm-cli.rb:22-25 | launches `repo add name url`, never fails, and the last status is that command's, whatever came before |
| HelmClient.HelmCli.UpdateRepos | lib/helm-cli.rb:27-30 | launches `repo update`, never fails, and the last status is that command's |
| HelmClient.HelmCli.GetRelease | lib/helm-cli.rb:32-40 | launches `get all release -n namespace` and records the status before deciding; then returns the capture or fails with MissingReleaseError |
| HelmClient.HelmCli.ReleaseExists | lib/helm-cli.rb:42-47 | true exactly when helm's `get` succeeded; it never fails, and it records the status |
| HelmClient.HelmCli.InstallChart | lib/helm-cli.rb:49-64 | launches the install vector with the given parameters, records the status, and fails with InstallError exactly when helm did not succeed |
| HelmClient.HelmCli.UpgradeChart | lib/helm-cli.rb:66-81 | launches the upgrade vector, records the status, and fails, with the InstallError kind, exactly when helm did not succeed |

## Left out

- Launching the process with `Open3.popen3`, closing its stdin and waiting
  for it (lib/helm-cli.rb:120-138, 146-164) are operating-system I/O. The
  `HelmProcess` oracle stands in for all of them.
- The reader threads that forward each output line to the fiber's sinks
  (lib/helm-cli.rb:121-133, 147-159) are concurrency and foreign streams. The
  model keeps only the stdout capture of `backticks`. It does not record what
  was written to a sink, and so not which sink a streamed line reached.
- The swallowed `IOError` of the reader threads (lib/helm-cli.rb:124, 131,
  150, 157) is the behaviour of a foreign stream.
- Isolation between fibers and threads is not modelled: one `ThreadContext`
  stands for the storage of one fiber.
- How the shell or `popen3` tokenises the joined string is not modelled.
  `Split` is the most generous reading, a cut at every space. It keeps empty
  fields, so `SplitJoin` also holds for an empty argument (a version `""`,
  say). Ruby's whitespace split or a shell would drop that field.
- The default executable `HelmRb.executable` (lib/helm-cli.rb:13) comes from
  another library. The constructor takes the executable as an argument.
- The wording of the error messages is not modelled, only the release and
  exit code they carry.
- The values `add_repo`, `update_repos`, `install_chart` and `upgrade_chart`
  return in Ruby (a thread object or nil) carry no meaning and are not
  modelled.
- HelmClient.HelmCli.RunCapturing: assumes the stdout reader drains all of
  stdout before the capture is returned. The source joins only the process
  waiter (lib/helm-cli.rb:137), not the reader thread (121-126). The block
  form of `popen3` then closes the pipes, and the rescue at line 124 swallows
  the resulting `IOError`. So the string returned at line 140 can be a
  truncated or empty capture, which the model does not capture.
- The getters' `||` also replaces a stored `false`. The model only stores
  sinks or nothing (nil).
