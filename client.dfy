/**
 * The helm client (class HelmCLI of lib/helm-cli.rb) and the per-fiber
 * storage it keeps its last exit status and output sinks in.
 *
 * The source keys that storage on fixed symbols of `Thread.current`, which
 * holds fiber-local values: every client used on one fiber (the thread's root
 * fiber unless fibers are used) shares it. Here it is one explicit object, a
 * ThreadContext, handed to each operation. The helm process itself is an
 * oracle handed to each launching operation: given the command string it is
 * launched with, it says how the process ended and what it printed.
 */
module HelmClient {
  import opened Wrappers
  import opened HelmCommands
  import opened HelmOutcomes

  /** An output destination: the program's own STDOUT or STDERR, or another stream. */
  datatype Sink = StandardOutput | StandardError | Stream(id: nat)

  /** A snapshot of a fiber's storage, as the body of `with_pipes` sees and leaves it. */
  datatype Context = Context(lastStatus: Option<ExitStatus>, out: Option<Sink>, err: Option<Sink>)

  /** What the body of `with_pipes` did: returned a value or raised, leaving the storage `after`. */
  datatype BodyRun<+T> = Finished(after: Context, value: T) | Threw(after: Context)

  /** How `with_pipes` ended: returning the body's value, or passing on its exception. */
  datatype Completion<+T> = Returned(value: T) | Raised

  /** The helm process, seen from outside: command string to how it ran. */
  type HelmProcess = string -> Run

  /** The storage of one fiber: last exit status and the stored sinks, none until first set. */
  class ThreadContext {
    var lastStatus: Option<ExitStatus>
    var out: Option<Sink>
    var err: Option<Sink>

    constructor ()
      ensures lastStatus == None && out == None && err == None
    {
      lastStatus, out, err := None, None, None;
    }

    /** `last_status`: the status the latest command stored, absent before any. */
    function LastStatus(): (s: Option<ExitStatus>)
      reads this
      ensures s == lastStatus
    {
      lastStatus
    }

    /** `stdout`: the stored sink, or STDOUT when none is stored. */
    function Stdout(): (s: Sink)
      reads this
      ensures out.Some? ==> s == out.value
      ensures out.None? ==> s == StandardOutput
    {
      out.GetOr(StandardOutput)
    }

    /** `stderr`: the stored sink, or STDERR when none is stored. */
    function Stderr(): (s: Sink)
      reads this
      ensures err.Some? ==> s == err.value
      ensures err.None? ==> s == StandardError
    {
      err.GetOr(StandardError)
    }

    function State(): Context
      reads this
    {
      Context(lastStatus, out, err)
    }

    /** `stdout=`: stores a sink (None stands for Ruby's nil). */
    method SetStdout(s: Option<Sink>)
      modifies this
      ensures out == s
      ensures err == old(err) && lastStatus == old(lastStatus)
    {
      out := s;
    }

    /** `stderr=`: stores a sink (None stands for Ruby's nil). */
    method SetStderr(s: Option<Sink>)
      modifies this
      ensures err == s
      ensures out == old(out) && lastStatus == old(lastStatus)
    {
      err := s;
    }

    /** `last_status=`: replaces whatever status an earlier command left. */
    method SetLastStatus(status: ExitStatus)
      modifies this
      ensures lastStatus == Some(status)
      ensures out == old(out) && err == old(err)
    {
      lastStatus := Some(status);
    }

    /**
     * `with_pipes`: runs `body` with the sinks set to `newOut` and `newErr`,
     * and afterwards, whether the body returned or raised, stores again the
     * sinks the getters gave before. What the body recorded as last status
     * stays, and the body's value is returned (the ensure clause does not
     * replace it).
     */
    method WithPipes<T>(body: Context -> BodyRun<T>, newOut: Sink := StandardOutput, newErr: Sink := StandardError)
      returns (c: Completion<T>)
      modifies this
      ensures var run := body(Context(old(lastStatus), Some(newOut), Some(newErr)));
        && lastStatus == run.after.lastStatus
        && c == (if run.Finished? then Returned(run.value) else Raised)
      ensures out == Some(old(Stdout())) && err == Some(old(Stderr()))
      ensures Stdout() == old(Stdout()) && Stderr() == old(Stderr())
    {
      var previousOut := Stdout();
      var previousErr := Stderr();
      SetStdout(Some(newOut));
      SetStderr(Some(newErr));
      var run := body(State());
      lastStatus, out, err := run.after.lastStatus, run.after.out, run.after.err;
      // the ensure clause: runs on both exits of the body
      SetStdout(Some(previousOut));
      SetStderr(Some(previousErr));
      c := if run.Finished? then Returned(run.value) else Raised;
    }
  }

  /** A client: the credentials file and the executable it was created with. */
  class HelmCli {
    const config: Config

    constructor (kubeconfigPath: string, executable: string)
      ensures config == Config(kubeconfigPath, executable)
    {
      config := Config(kubeconfigPath, executable);
    }

    /**
     * `systemm`: launches the joined command; its output streams to the
     * fiber's sinks and its exit status is recorded.
     */
    method RunStreaming(ctx: ThreadContext, helm: HelmProcess, cmd: seq<string>)
      modifies ctx
      ensures ctx.lastStatus == Some(helm(Join(cmd)).status)
      ensures ctx.out == old(ctx.out) && ctx.err == old(ctx.err)
    {
      var run := helm(Join(cmd));
      ctx.SetLastStatus(run.status);
    }

    /**
     * `backticks`: launches the joined command, records its exit status and
     * returns what it printed on standard output.
     */
    method RunCapturing(ctx: ThreadContext, helm: HelmProcess, cmd: seq<string>) returns (captured: string)
      modifies ctx
      ensures ctx.lastStatus == Some(helm(Join(cmd)).status)
      ensures captured == Capture(helm(Join(cmd)).out)
      ensures ctx.out == old(ctx.out) && ctx.err == old(ctx.err)
    {
      var run := helm(Join(cmd));
      captured := Capture(run.out);
      ctx.SetLastStatus(run.status);
    }

    /** `add_repo`: never raises; the caller reads the outcome from the last status. */
    method AddRepo(ctx: ThreadContext, helm: HelmProcess, name: string, url: string)
      modifies ctx
      ensures ctx.lastStatus == Some(helm(Join(Argv(config, Command.AddRepo(name, url)))).status)
      ensures ctx.out == old(ctx.out) && ctx.err == old(ctx.err)
    {
      var cmd := BaseCmd(config) + ["repo", "add", name, url];
      RunStreaming(ctx, helm, cmd);
    }

    /** `update_repos`: never raises; the caller reads the outcome from the last status. */
    method UpdateRepos(ctx: ThreadContext, helm: HelmProcess)
      modifies ctx
      ensures ctx.lastStatus == Some(helm(Join(Argv(config, Command.UpdateRepos))).status)
      ensures ctx.out == old(ctx.out) && ctx.err == old(ctx.err)
    {
      var cmd := BaseCmd(config) + ["repo", "update"];
      RunStreaming(ctx, helm, cmd);
    }

    /**
     * `get_release`: the captured standard output when helm succeeds, else a
     * missing-release error; the status is recorded in both cases.
     */
    method GetRelease(ctx: ThreadContext, helm: HelmProcess, release: string,
                      nameonly namespace: string := DefaultNamespace)
      returns (r: Result<string>)
      modifies ctx
      ensures var run := helm(Join(Argv(config, Command.GetRelease(release, namespace))));
        && ctx.lastStatus == Some(run.status)
        && r == GetReleaseOutcome(release, run)
      ensures ctx.out == old(ctx.out) && ctx.err == old(ctx.err)
    {
      var cmd := BaseCmd(config) + ["get", "all", release, "-n", namespace];
      var captured := RunCapturing(ctx, helm, cmd);
      if ctx.lastStatus.Some? && ctx.lastStatus.value.Success() {
        r := Ok(captured);
      } else {
        r := Err(MissingReleaseError(release, ctx.lastStatus.value.ExitCode()));
      }
    }

    /** `release_exists?`: true exactly when helm exited with code 0; never raises. */
    method ReleaseExists(ctx: ThreadContext, helm: HelmProcess, release: string,
                         nameonly namespace: string := DefaultNamespace)
      returns (found: bool)
      modifies ctx
      ensures var run := helm(Join(Argv(config, Command.GetRelease(release, namespace))));
        && ctx.lastStatus == Some(run.status)
        && found == run.status.Success()
      ensures ctx.out == old(ctx.out) && ctx.err == old(ctx.err)
    {
      var r := GetRelease(ctx, helm, release, namespace := namespace);
      match r
      case Ok(_) =>
        found := ctx.lastStatus.value.ExitCode() == Some(0);
      case Err(e) =>
        // the rescue of MissingReleaseError, the only kind GetRelease raises
        found := false;
    }

    /** `install_chart`: fails with InstallError, carrying release and code, unless helm succeeds. */
    method InstallChart(ctx: ThreadContext, helm: HelmProcess, chart: string,
                        nameonly release: string, nameonly version: string,
                        nameonly namespace: string := DefaultNamespace, nameonly params: seq<Param> := [])
      returns (r: Result<()>)
      modifies ctx
      ensures var run := helm(Join(Argv(config, Command.InstallChart(chart, release, version, namespace, params))));
        && ctx.lastStatus == Some(run.status)
        && r == InstallOutcome(release, run.status)
      ensures ctx.out == old(ctx.out) && ctx.err == old(ctx.err)
    {
      var cmd := BuildChartArgv(config, "install", chart, release, version, namespace, params);
      RunStreaming(ctx, helm, cmd);
      if ctx.lastStatus.Some? && ctx.lastStatus.value.Success() {
        r := Ok(());
      } else {
        r := Err(InstallError(release, ctx.lastStatus.value.ExitCode()));
      }
    }

    /** `upgrade_chart`: as install with the `upgrade` verb; it too fails with InstallError. */
    method UpgradeChart(ctx: ThreadContext, helm: HelmProcess, chart: string,
                        nameonly release: string, nameonly version: string,
                        nameonly namespace: string := DefaultNamespace, nameonly params: seq<Param> := [])
      returns (r: Result<()>)
      modifies ctx
      ensures var run := helm(Join(Argv(config, Command.UpgradeChart(chart, release, version, namespace, params))));
        && ctx.lastStatus == Some(run.status)
        && r == UpgradeOutcome(release, run.status)
      ensures ctx.out == old(ctx.out) && ctx.err == old(ctx.err)
    {
      var cmd := BuildChartArgv(config, "upgrade", chart, release, version, namespace, params);
      RunStreaming(ctx, helm, cmd);
      if ctx.lastStatus.Some? && ctx.lastStatus.value.Success() {
        r := Ok(());
      } else {
        r := Err(InstallError(release, ctx.lastStatus.value.ExitCode()));
      }
    }
  }

  /** What a caller can conclude from the contracts alone. */
  method ClientScenario()
  {
    var ctx := new ThreadContext();
    var cli := new HelmCli("/etc/kube/config", "helm");
    assert ctx.LastStatus() == None && ctx.Stdout() == StandardOutput;

    var succeeds: HelmProcess := (s: string) => Run(Exited(0), [s + "\n"], []);
    cli.AddRepo(ctx, succeeds, "bitnami", "https://charts.bitnami.com/bitnami");
    assert ctx.lastStatus == Some(Exited(0)) && ctx.lastStatus.value.Success();
    assert Argv(cli.config, Command.AddRepo("bitnami", "https://charts.bitnami.com/bitnami"))
        == ["helm", "--kubeconfig", "/etc/kube/config", "repo", "add", "bitnami", "https://charts.bitnami.com/bitnami"];

    var fails: HelmProcess := (s: string) => Run(Exited(1), [], ["Error: failed"]);
    var r := cli.InstallChart(ctx, fails, "mychart", release := "r1", version := "1.0.0",
                              params := [Param("a", "1"), Param("b", "2")]);
    assert r == Err(InstallError("r1", Some(1)));
    assert ctx.lastStatus == Some(Exited(1));

    var found := cli.ReleaseExists(ctx, fails, "r1");
    assert !found;

    var raising: Context -> BodyRun<int> := (c: Context) => Threw(c.(lastStatus := Some(Exited(2))));
    var completion := ctx.WithPipes(raising, Stream(1), Stream(2));
    assert completion == Raised;
    assert ctx.Stdout() == StandardOutput && ctx.Stderr() == StandardError;

    var returning := (c: Context) => Finished(c, c.out == Some(Stream(3)));
    var answer := ctx.WithPipes(returning, Stream(3));
    assert answer == Returned(true);
    assert ctx.Stdout() == StandardOutput && ctx.Stderr() == StandardError;
    assert ctx.lastStatus == Some(Exited(2));
  }
}
